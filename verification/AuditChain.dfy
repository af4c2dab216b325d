/** The audit log's per-user hash chain: appending an entry and verifying a chain. The keyed
    hash is a parameter `mac`; where a result needs it, it is assumed to be injective. */
module AuditChain {
  import opened Options
  import opened Keys
  import opened Sequences

  function Zeros(n: nat): (s: string)
    ensures |s| == n && forall i :: 0 <= i < n ==> s[i] == '0'
  {
    seq(n, i => '0')
  }

  const GENESIS := "GENESIS_" + Zeros(64)

  type Mac = string -> string

  datatype Entry = Entry(userId: Option<nat>, action: string, resourceType: Option<string>, resourceId: Option<nat>,
                         timestamp: string, entryHash: Option<string>, prevHash: Option<string>)

  /** What the hash covers, with the values the code writes alike identified: an absent id and
      the id 0 are both written as nothing, as are an absent and an empty resource type. */
  datatype Fields = Fields(action: string, userId: nat, resourceType: string, resourceId: nat, timestamp: string)

  function OrZero(id: Option<nat>): nat { if id.Some? then id.value else 0 }

  function OrEmpty(s: Option<string>): string { if s.Some? then s.value else "" }

  function FieldsOf(e: Entry): Fields {
    Fields(e.action, OrZero(e.userId), OrEmpty(e.resourceType), OrZero(e.resourceId), e.timestamp)
  }

  function IdText(id: nat): string { if id == 0 then "" else Decimal(id) }

  /** The fields joined by '|'. */
  function ChainData(prev: string, f: Fields): string {
    Field(prev, '|', Field(f.action, '|', Field(IdText(f.userId), '|',
      Field(f.resourceType, '|', Field(IdText(f.resourceId), '|', f.timestamp)))))
  }

  function ComputeEntryHash(mac: Mac, prev: string, f: Fields): string { mac(ChainData(prev, f)) }

  predicate Hashed(e: Entry) { e.entryHash.Some? && e.entryHash.value != "" }

  // ---- Appending ----------------------------------------------------------------------------------------

  function ForUser(log: seq<Entry>, user: Option<nat>): (r: seq<Entry>)
    ensures forall e :: e in r ==> e in log && e.userId == user
  {
    if log == [] then []
    else if log[0].userId == user then [log[0]] + ForUser(log[1..], user) else ForUser(log[1..], user)
  }

  /** The hash of the last of some entries, or GENESIS when there is none or it has no hash. */
  function LastHash(entries: seq<Entry>): string {
    if entries == [] || !Hashed(entries[|entries| - 1]) then GENESIS else entries[|entries| - 1].entryHash.value
  }

  /** A call of `audit`; `chained` says whether the hash chain is configured at the time. */
  datatype Request = Request(userId: Option<nat>, action: string, resourceType: Option<string>,
                             resourceId: Option<nat>, timestamp: string, chained: bool)

  function NewEntry(mac: Mac, prev: string, q: Request): Entry {
    var plain := Entry(q.userId, q.action, q.resourceType, q.resourceId, q.timestamp, None, None);
    if !q.chained then plain
    else plain.(entryHash := Some(ComputeEntryHash(mac, prev, FieldsOf(plain))), prevHash := Some(prev))
  }

  function Appended(mac: Mac, log: seq<Entry>, q: Request): seq<Entry> {
    log + [NewEntry(mac, LastHash(ForUser(log, q.userId)), q)]
  }

  /** The log after a run of appends, whoever made them. */
  function Written(mac: Mac, qs: seq<Request>): seq<Entry> {
    if qs == [] then [] else Appended(mac, Written(mac, qs[..|qs| - 1]), qs[|qs| - 1])
  }

  // ---- Verifying ------------------------------------------------------------------------------------------

  datatype Reason = PrevMismatch | HashMismatch

  /** `checked` entries were found right; a broken chain names the entry at that position. */
  datatype Verdict = Valid(checked: nat) | Broken(checked: nat, reason: Reason)

  /** The check of one entry that has a hash. */
  predicate PrevMatches(e: Entry, expected: string) { e.prevHash == Some(expected) }

  predicate HashMatches(mac: Mac, e: Entry) {
    e.prevHash.Some? && e.entryHash == Some(ComputeEntryHash(mac, e.prevHash.value, FieldsOf(e)))
  }

  /** The verdict on the entries from position i on. */
  function Verify(mac: Mac, entries: seq<Entry>, i: nat, expected: string): Verdict
    requires i <= |entries|
    decreases |entries| - i
  {
    if i == |entries| then Valid(i)
    else if !Hashed(entries[i]) then Verify(mac, entries, i + 1, expected)
    else if !PrevMatches(entries[i], expected) then Broken(i, PrevMismatch)
    else if !HashMatches(mac, entries[i]) then Broken(i, HashMismatch)
    else Verify(mac, entries, i + 1, entries[i].entryHash.value)
  }

  predicate Accepted(mac: Mac, entries: seq<Entry>) { Verify(mac, entries, 0, GENESIS).Valid? }

  /** The entries a verification may read: one user's, or everybody's when it names no user. */
  function ChosenOf(log: seq<Entry>, user: Option<nat>): seq<Entry> {
    if user.Some? then ForUser(log, user) else log
  }

  /** What a verification looks at: one user's entries, or, without a user, everybody's; the
      first `limit` of them. */
  function Selected(log: seq<Entry>, user: Option<nat>, limit: nat): seq<Entry> {
    Slice(ChosenOf(log, user), limit)
  }

  class AuditTrail {
    const mac: Mac
    var log: seq<Entry>

    constructor (mac: Mac)
      ensures log == [] && this.mac == mac
    {
      this.mac := mac;
      log := [];
    }

    method Audit(q: Request)
      modifies this
      ensures log == Appended(mac, old(log), q)
    {
      var entryHash, prevHash := None, None;
      if q.chained {
        var mine := ForUser(log, q.userId);
        var prev := LastHash(mine);
        prevHash := Some(prev);
        var fields := Fields(q.action, OrZero(q.userId), OrEmpty(q.resourceType), OrZero(q.resourceId), q.timestamp);
        entryHash := Some(ComputeEntryHash(mac, prev, fields));
      }
      log := log + [Entry(q.userId, q.action, q.resourceType, q.resourceId, q.timestamp, entryHash, prevHash)];
    }

    /** `enabled` is the configuration at the time of the check. */
    method VerifyAuditChain(user: Option<nat>, limit: nat, enabled: bool) returns (v: Verdict)
      ensures enabled ==> v == Verify(mac, Selected(log, user, limit), 0, GENESIS)
      ensures !enabled ==> v == Valid(|Selected(log, user, limit)|)
    {
      var entries := Selected(log, user, limit);
      if entries == [] { return Valid(0); }
      var expected := GENESIS;
      for i := 0 to |entries|
        invariant enabled ==> Verify(mac, entries, 0, GENESIS) == Verify(mac, entries, i, expected)
      {
        var entry := entries[i];
        if !enabled || !Hashed(entry) { continue; }
        if entry.prevHash != Some(expected) { return Broken(i, PrevMismatch); }
        if entry.entryHash.value != ComputeEntryHash(mac, entry.prevHash.value, FieldsOf(entry)) {
          return Broken(i, HashMismatch);
        }
        expected := entry.entryHash.value;
      }
      v := Valid(|entries|);
    }
  }

  // ---- What is appended ------------------------------------------------------------------------------------

  /** The text that is hashed: the fields between bars, an absent id or the id 0 as nothing. */
  lemma {:induction false} HashedText(prev: string, e: Entry)
    ensures var id := (x: Option<nat>) => if x == None || x == Some(0) then "" else Decimal(x.value);
            ChainData(prev, FieldsOf(e)) ==
            prev + "|" + (e.action + "|" + (id(e.userId) + "|" + ((match e.resourceType case None => "" case Some(s) => s)
            + "|" + (id(e.resourceId) + "|" + e.timestamp))))
  {
  }

  /** The user's entry at position p is the last of that user's. */
  ghost predicate LastOf(log: seq<Entry>, user: Option<nat>, p: nat) {
    p < |log| && log[p].userId == user && forall k :: p < k < |log| ==> log[k].userId != user
  }

  lemma {:induction false} ForUserConcat(a: seq<Entry>, b: seq<Entry>, user: Option<nat>)
    ensures ForUser(a + b, user) == ForUser(a, user) + ForUser(b, user)
  {
    if a == [] {
      assert a + b == b;
    } else {
      assert (a + b)[1..] == a[1..] + b;
      ForUserConcat(a[1..], b, user);
    }
  }

  lemma {:induction false} LastOfUser(log: seq<Entry>, user: Option<nat>, p: nat)
    requires LastOf(log, user, p)
    ensures ForUser(log, user) != [] && ForUser(log, user)[|ForUser(log, user)| - 1] == log[p]
  {
    var l, r := log[..p] + [log[p]], log[p + 1..];
    assert log == l + r;
    ForUserConcat(l, r, user);
    ForUserAppend(log[..p], log[p], user);
    NobodyIs(r, user);
  }

  /** An append keeps the log and adds one entry with the fields of the request. With the chain
      configured that entry carries the hash of its user's last entry, or GENESIS if there is none or
      it has none, and its own; without it, no hash at all. */
  lemma {:induction false} AppendedExactly(mac: Mac, log: seq<Entry>, q: Request)
    ensures var n, u := |log|, Appended(mac, log, q);
            && |u| == n + 1 && u[..n] == log
            && (var e := u[n];
                && e.userId == q.userId && e.action == q.action && e.resourceType == q.resourceType
                && e.resourceId == q.resourceId && e.timestamp == q.timestamp
                && (!q.chained ==> e.entryHash.None? && e.prevHash.None?)
                && (q.chained ==> e.prevHash.Some? && e.entryHash == Some(mac(ChainData(e.prevHash.value, FieldsOf(e)))))
                && (q.chained && (forall x :: x in log ==> x.userId != q.userId) ==> e.prevHash == Some(GENESIS))
                && (q.chained ==> forall p: nat :: LastOf(log, q.userId, p) ==>
                      e.prevHash == if log[p].entryHash in {None, Some("")} then Some(GENESIS) else log[p].entryHash))
  {
    if forall x :: x in log ==> x.userId != q.userId { NobodyIs(log, q.userId); }
    forall p: nat | LastOf(log, q.userId, p) ensures LastHash(ForUser(log, q.userId)) ==
        if log[p].entryHash in {None, Some("")} then GENESIS else log[p].entryHash.value
    {
      LastOfUser(log, q.userId, p);
    }
  }

  // ---- What acceptance means --------------------------------------------------------------------------------

  /** The hash the verifier expects before position n: that of the last hashed entry before it. */
  function ExpectedAt(entries: seq<Entry>, n: nat): string
    requires n <= |entries|
  {
    if n == 0 then GENESIS
    else if Hashed(entries[n - 1]) then entries[n - 1].entryHash.value else ExpectedAt(entries, n - 1)
  }

  predicate Linked(mac: Mac, entries: seq<Entry>, n: nat)
    requires n < |entries|
  {
    Hashed(entries[n]) ==> PrevMatches(entries[n], ExpectedAt(entries, n)) && HashMatches(mac, entries[n])
  }

  lemma {:induction false} VerifyChecksLinks(mac: Mac, entries: seq<Entry>, i: nat)
    requires i <= |entries|
    ensures Verify(mac, entries, i, ExpectedAt(entries, i)).Valid? <==>
            forall n :: i <= n < |entries| ==> Linked(mac, entries, n)
    decreases |entries| - i
  {
    if i < |entries| {
      VerifyChecksLinks(mac, entries, i + 1);
      assert Verify(mac, entries, i, ExpectedAt(entries, i)).Valid? <==>
             Linked(mac, entries, i) && Verify(mac, entries, i + 1, ExpectedAt(entries, i + 1)).Valid?;
    }
  }

  /** A chain is accepted exactly when every hashed entry is linked to the hashed one before it. */
  lemma AcceptedIsLinked(mac: Mac, entries: seq<Entry>)
    ensures Accepted(mac, entries) <==> forall n :: 0 <= n < |entries| ==> Linked(mac, entries, n)
  {
    VerifyChecksLinks(mac, entries, 0);
  }

  /** One entry: a faultless one is passed over, at any other the verdict is its fault. */
  lemma {:induction false} VerdictAt(mac: Mac, entries: seq<Entry>, i: nat)
    requires i < |entries|
    ensures var v := Verify(mac, entries, i, ExpectedAt(entries, i));
            if Faultless(mac, entries, i) then v == Verify(mac, entries, i + 1, ExpectedAt(entries, i + 1))
            else v.Broken? && v.checked == i && Fault(mac, entries, i, v.reason)
  {
  }

  lemma {:induction false} VerdictFrom(mac: Mac, entries: seq<Entry>, i: nat)
    requires i <= |entries|
    ensures SoundVerdict(mac, entries, i, Verify(mac, entries, i, ExpectedAt(entries, i)))
    decreases |entries| - i
  {
    if i < |entries| {
      VerdictAt(mac, entries, i);
      if Faultless(mac, entries, i) { VerdictFrom(mac, entries, i + 1); }
    }
  }

  /** The verdict v on the entries from position i on. */
  ghost predicate SoundVerdict(mac: Mac, entries: seq<Entry>, i: nat, v: Verdict)
    requires i <= |entries|
  {
    if v.Valid? then v.checked == |entries| && forall n :: i <= n < |entries| ==> Faultless(mac, entries, n)
    else i <= v.checked < |entries| && Fault(mac, entries, v.checked, v.reason)
         && forall n :: i <= n < v.checked ==> Faultless(mac, entries, n)
  }

  predicate Faultless(mac: Mac, entries: seq<Entry>, n: nat)
    requires n < |entries|
  {
    !Fault(mac, entries, n, PrevMismatch) && !Fault(mac, entries, n, HashMismatch)
  }

  /** What is wrong with the hashed entry at position n: its previous hash is not that of the hashed
      entry before it, or else its own hash is not that of its fields. */
  predicate Fault(mac: Mac, entries: seq<Entry>, n: nat, reason: Reason)
    requires n < |entries|
  {
    var e := entries[n];
    var continues := e.prevHash == Some(ExpectedAt(entries, n));
    && e.entryHash.Some? && e.entryHash.value != ""
    && match reason
       case PrevMismatch => !continues
       case HashMismatch => continues && e.entryHash.value != mac(ChainData(e.prevHash.value, FieldsOf(e)))
  }

  /** A verdict counts all the entries it was given, or names the position of the first one with a
      fault, and what that is. */
  lemma {:induction false} BrokenAtTheFirstFault(mac: Mac, entries: seq<Entry>)
    ensures SoundVerdict(mac, entries, 0, Verify(mac, entries, 0, GENESIS))
  {
    VerdictFrom(mac, entries, 0);
  }

  lemma {:induction false} ExpectedOfPrefix(entries: seq<Entry>, k: nat, n: nat)
    requires n <= k <= |entries|
    ensures ExpectedAt(entries[..k], n) == ExpectedAt(entries, n)
  {
    if n > 0 { ExpectedOfPrefix(entries, k, n - 1); }
  }

  /** Every prefix of an accepted chain is accepted: a smaller limit never finds a fault that a
      larger one misses, and cutting off the end is not noticed by the chain alone. */
  lemma {:induction false} PrefixesAccepted(mac: Mac, entries: seq<Entry>, k: nat)
    requires Accepted(mac, entries) && k <= |entries|
    ensures Accepted(mac, entries[..k])
  {
    AcceptedIsLinked(mac, entries);
    AcceptedIsLinked(mac, entries[..k]);
    forall n | 0 <= n < k ensures Linked(mac, entries[..k], n) {
      assert Linked(mac, entries, n);
      ExpectedOfPrefix(entries, k, n);
    }
  }

  // ---- Honest logs --------------------------------------------------------------------------------------------

  /** The log of one user's own appends. */
  ghost predicate Honest(mac: Mac, entries: seq<Entry>) {
    forall n :: 0 <= n < |entries| && entries[n].entryHash.Some? ==>
      PrevMatches(entries[n], LastHash(entries[..n])) && HashMatches(mac, entries[n])
  }

  lemma {:induction false} ForUserAppend(log: seq<Entry>, e: Entry, user: Option<nat>)
    ensures ForUser(log + [e], user) == if e.userId == user then ForUser(log, user) + [e] else ForUser(log, user)
  {
    if log == [] {
      assert log + [e] == [e] && ForUser([e][1..], user) == [];
    } else {
      assert (log + [e])[1..] == log[1..] + [e];
      ForUserAppend(log[1..], e, user);
    }
  }

  lemma {:induction false} HonestGrows(mac: Mac, entries: seq<Entry>, q: Request)
    requires Honest(mac, entries)
    ensures Honest(mac, entries + [NewEntry(mac, LastHash(entries), q)])
  {
    var grown := entries + [NewEntry(mac, LastHash(entries), q)];
    assert grown[..|entries|] == entries;
    forall n | 0 <= n < |grown| && grown[n].entryHash.Some?
      ensures PrevMatches(grown[n], LastHash(grown[..n])) && HashMatches(mac, grown[n])
    {
      if n < |entries| { assert grown[n] == entries[n] && grown[..n] == entries[..n]; }
    }
  }

  /** Whatever the others append in between, one user's entries are honest. */
  lemma {:induction false} WrittenIsHonest(mac: Mac, qs: seq<Request>, user: Option<nat>)
    ensures Honest(mac, ForUser(Written(mac, qs), user))
  {
    if qs != [] {
      var log, q := Written(mac, qs[..|qs| - 1]), qs[|qs| - 1];
      WrittenIsHonest(mac, qs[..|qs| - 1], user);
      var e := NewEntry(mac, LastHash(ForUser(log, q.userId)), q);
      ForUserAppend(log, e, user);
      assert Written(mac, qs) == log + [e];
      if q.userId == user { HonestGrows(mac, ForUser(log, user), q); }
    }
  }

  /** Hashed entries are never separated by an unhashed one. */
  ghost predicate Contiguous(entries: seq<Entry>) {
    forall i, j, k :: 0 <= i < j < k < |entries| && Hashed(entries[i]) && Hashed(entries[k]) ==> Hashed(entries[j])
  }

  /** The hash is never GENESIS and never empty. */
  ghost predicate ProperMac(mac: Mac) { forall x :: mac(x) != GENESIS && mac(x) != "" && '|' !in mac(x) }

  lemma {:induction false} ExpectedIsGenesis(mac: Mac, entries: seq<Entry>, n: nat)
    requires ProperMac(mac) && n <= |entries|
    requires forall i :: 0 <= i < n && Hashed(entries[i]) ==> HashMatches(mac, entries[i])
    ensures ExpectedAt(entries, n) == GENESIS <==> forall i :: 0 <= i < n ==> !Hashed(entries[i])
  {
    if n > 0 && !Hashed(entries[n - 1]) { ExpectedIsGenesis(mac, entries, n - 1); }
  }

  lemma {:induction false} HonestLink(mac: Mac, entries: seq<Entry>, n: nat)
    requires Honest(mac, entries) && n < |entries| && Hashed(entries[n])
    ensures Linked(mac, entries, n) <==> LastHash(entries[..n]) == ExpectedAt(entries, n)
  {
  }

  lemma {:induction false} LastOfPrefix(entries: seq<Entry>, n: nat)
    requires 0 < n <= |entries|
    ensures LastHash(entries[..n]) == if Hashed(entries[n - 1]) then entries[n - 1].entryHash.value else GENESIS
  {
    assert entries[..n][n - 1] == entries[n - 1];
  }

  /** Right after a hashed entry, or with no hashed entry before, the two agree. */
  lemma {:induction false} LinkAtGap(mac: Mac, entries: seq<Entry>, n: nat)
    requires ProperMac(mac) && Honest(mac, entries) && n < |entries| && Hashed(entries[n])
    ensures Linked(mac, entries, n) <==>
            n == 0 || Hashed(entries[n - 1]) || forall i :: 0 <= i < n ==> !Hashed(entries[i])
  {
    HonestLink(mac, entries, n);
    if n > 0 {
      LastOfPrefix(entries, n);
      if !Hashed(entries[n - 1]) { ExpectedIsGenesis(mac, entries, n); }
    }
  }

  /** What keeps the chain linked at every hashed entry. */
  ghost predicate NoRestart(entries: seq<Entry>, n: nat)
    requires n < |entries|
  {
    Hashed(entries[n]) ==> n == 0 || Hashed(entries[n - 1]) || forall i :: 0 <= i < n ==> !Hashed(entries[i])
  }

  lemma {:induction false} ContiguousIsNoRestart(entries: seq<Entry>)
    ensures Contiguous(entries) <==> forall n :: 0 <= n < |entries| ==> NoRestart(entries, n)
  {
    if Contiguous(entries) {
      forall n | 0 <= n < |entries| ensures NoRestart(entries, n) {
        if Hashed(entries[n]) && n > 0 && !Hashed(entries[n - 1]) {
          assert forall i :: 0 <= i < n - 1 && Hashed(entries[i]) ==> Hashed(entries[n - 1]);
        }
      }
    } else {
      var i, j, k :| 0 <= i < j < k < |entries| && Hashed(entries[i]) && Hashed(entries[k]) && !Hashed(entries[j]);
      var n := FirstHashed(entries, j, k);
      assert !NoRestart(entries, n);
    }
  }

  /** A user's own log is accepted exactly when the chain was never switched off and on again
      between two hashed entries: the entry after such a gap starts from GENESIS, but the
      verifier still expects the hash before the gap. */
  lemma {:induction false} HonestAccepted(mac: Mac, entries: seq<Entry>)
    requires ProperMac(mac) && Honest(mac, entries)
    ensures Accepted(mac, entries) <==> Contiguous(entries)
  {
    AcceptedIsLinked(mac, entries);
    ContiguousIsNoRestart(entries);
    forall n | 0 <= n < |entries| ensures Linked(mac, entries, n) <==> NoRestart(entries, n) {
      if Hashed(entries[n]) { LinkAtGap(mac, entries, n); }
    }
  }

  lemma {:induction false} FirstHashed(entries: seq<Entry>, j: nat, k: nat) returns (n: nat)
    requires j < k < |entries| && !Hashed(entries[j]) && Hashed(entries[k])
    ensures j < n <= k && Hashed(entries[n]) && !Hashed(entries[n - 1])
  {
    n := j + 1;
    while !Hashed(entries[n])
      invariant j < n <= k && !Hashed(entries[n - 1])
      decreases k - n
    {
      n := n + 1;
    }
  }

  /** With the chain configured throughout, every user's log is accepted, in every interleaving
      with other users' appends and for every limit. */
  lemma {:induction false} OwnChainAccepted(mac: Mac, qs: seq<Request>, user: nat, limit: nat)
    requires ProperMac(mac) && forall q :: q in qs ==> q.chained
    ensures Accepted(mac, Selected(Written(mac, qs), Some(user), limit))
  {
    var mine := ForUser(Written(mac, qs), Some(user));
    WrittenIsHonest(mac, qs, Some(user));
    AllHashed(mac, qs);
    HonestAccepted(mac, mine);
    if |mine| > limit { PrefixesAccepted(mac, mine, limit); }
  }

  lemma {:induction false} AllHashed(mac: Mac, qs: seq<Request>)
    requires ProperMac(mac) && forall q :: q in qs ==> q.chained
    ensures forall e :: e in Written(mac, qs) ==> Hashed(e)
  {
    if qs != [] { AllHashed(mac, qs[..|qs| - 1]); }
  }

  // ---- Verifying without a user ---------------------------------------------------------------------------------

  /** The first entry of every user starts from GENESIS. */
  lemma {:induction false} FirstOfUser(mac: Mac, qs: seq<Request>, n: nat)
    requires n < |Written(mac, qs)| && Written(mac, qs)[n].entryHash.Some?
    ensures var log := Written(mac, qs);
            PrevMatches(log[n], LastHash(ForUser(log[..n], log[n].userId))) && HashMatches(mac, log[n])
  {
    var before, q := Written(mac, qs[..|qs| - 1]), qs[|qs| - 1];
    assert Written(mac, qs) == Appended(mac, before, q);
    if n < |before| {
      FirstOfUser(mac, qs[..|qs| - 1], n);
      assert Written(mac, qs)[..n] == before[..n];
    } else {
      assert Written(mac, qs)[..n] == before;
    }
  }

  predicate OneUser(log: seq<Entry>) { forall i :: 0 <= i < |log| ==> log[i].userId == log[0].userId }

  lemma {:induction false} OneUserAccepted(mac: Mac, qs: seq<Request>)
    requires ProperMac(mac) && (forall q :: q in qs ==> q.chained) && OneUser(Written(mac, qs))
    ensures Accepted(mac, Written(mac, qs))
  {
    var log := Written(mac, qs);
    AllHashed(mac, qs);
    if log != [] {
      WrittenIsHonest(mac, qs, log[0].userId);
      EveryoneIs(log, log[0].userId);
      HonestAccepted(mac, log);
    }
  }

  /** An entry whose user has none before it starts from GENESIS. */
  lemma {:induction false} StartsOver(mac: Mac, qs: seq<Request>, n: nat)
    requires n < |Written(mac, qs)| && Hashed(Written(mac, qs)[n])
    requires forall i :: 0 <= i < n ==> Written(mac, qs)[i].userId != Written(mac, qs)[n].userId
    ensures PrevMatches(Written(mac, qs)[n], GENESIS)
  {
    FirstOfUser(mac, qs, n);
    NobodyIs(Written(mac, qs)[..n], Written(mac, qs)[n].userId);
  }

  lemma {:induction false} SecondStart(mac: Mac, log: seq<Entry>, n: nat)
    requires ProperMac(mac) && 0 < n < |log| && Hashed(log[0]) && Hashed(log[n]) && PrevMatches(log[n], GENESIS)
    requires forall i :: 0 <= i < n ==> HashMatches(mac, log[i])
    ensures !Linked(mac, log, n)
  {
    ExpectedIsGenesis(mac, log, n);
  }

  lemma {:induction false} MixedLogRejected(mac: Mac, qs: seq<Request>)
    requires ProperMac(mac) && (forall q :: q in qs ==> q.chained) && !OneUser(Written(mac, qs))
    ensures !Accepted(mac, Written(mac, qs))
  {
    var log := Written(mac, qs);
    AllHashed(mac, qs);
    AcceptedIsLinked(mac, log);
    var k :| 0 <= k < |log| && log[k].userId != log[0].userId;
    var n := FirstOther(log, k);
    assert log[n] in log && log[0] in log;
    StartsOver(mac, qs, n);
    forall i | 0 <= i < n ensures HashMatches(mac, log[i]) {
      assert log[i] in log;
      FirstOfUser(mac, qs, i);
    }
    SecondStart(mac, log, n);
  }

  /** Every request adds one entry, so a prefix of the log is the log of a prefix. */
  lemma {:induction false} WrittenPrefix(mac: Mac, qs: seq<Request>, k: nat)
    requires k <= |qs|
    ensures |Written(mac, qs)| == |qs| && Written(mac, qs)[..k] == Written(mac, qs[..k])
  {
    if k == |qs| {
      assert qs[..k] == qs;
      if qs != [] { WrittenPrefix(mac, qs[..k - 1], k - 1); }
    } else {
      WrittenPrefix(mac, qs[..|qs| - 1], k);
      assert qs[..|qs| - 1][..k] == qs[..k];
    }
  }

  /** A verification without a user does not check "the system's events": it runs through the
      entries of all users as one chain, and an honest log passes it exactly when all the entries
      it looks at belong to one user. */
  lemma {:induction false} MixedLogAccepted(mac: Mac, qs: seq<Request>, limit: nat)
    requires ProperMac(mac) && (forall q :: q in qs ==> q.chained)
    ensures var seen := Selected(Written(mac, qs), None, limit);
            Accepted(mac, seen) <==> OneUser(seen)
  {
    var k := |Slice(qs, limit)|;
    WrittenPrefix(mac, qs, k);
    assert Selected(Written(mac, qs), None, limit) == Written(mac, qs[..k]);
    if OneUser(Written(mac, qs[..k])) { OneUserAccepted(mac, qs[..k]); } else { MixedLogRejected(mac, qs[..k]); }
  }

  lemma {:induction false} EveryoneIs(log: seq<Entry>, user: Option<nat>)
    requires forall e :: e in log ==> e.userId == user
    ensures ForUser(log, user) == log
  {
    if log != [] {
      assert log[0] in log;
      EveryoneIs(log[1..], user);
    }
  }

  lemma {:induction false} NobodyIs(log: seq<Entry>, user: Option<nat>)
    requires forall e :: e in log ==> e.userId != user
    ensures ForUser(log, user) == []
  {
    if log != [] {
      assert log[0] in log;
      NobodyIs(log[1..], user);
    }
  }

  lemma {:induction false} FirstOther(log: seq<Entry>, k: nat) returns (n: nat)
    requires k < |log| && log[k].userId != log[0].userId
    ensures 0 < n <= k && log[n].userId != log[0].userId && forall i :: 0 <= i < n ==> log[i].userId == log[0].userId
  {
    n := 1;
    while log[n].userId == log[0].userId
      invariant 0 < n <= k && forall i :: 0 <= i < n ==> log[i].userId == log[0].userId
      decreases k - n
    {
      n := n + 1;
    }
  }
}
