/** What an accepted audit chain proves about its history, when the keyed hash is injective:
    the last hash fixes every entry before it, so no interior entry can be altered or deleted. */
module AuditTamper {
  import opened Options
  import opened Keys
  import opened Sequences
  import opened AuditChain

  ghost predicate Injective(mac: Mac) { forall x, y :: mac(x) == mac(y) ==> x == y }

  // ---- The hashed text determines the fields ------------------------------------------------------------

  function Bars(s: string): nat {
    if s == [] then 0 else (if s[0] == '|' then 1 else 0) + Bars(s[1..])
  }

  lemma {:induction false} BarsAppend(a: string, b: string)
    ensures Bars(a + b) == Bars(a) + Bars(b)
  {
    if a == [] {
      assert a + b == b;
    } else {
      assert (a + b)[1..] == a[1..] + b;
      BarsAppend(a[1..], b);
    }
  }

  lemma {:induction false} NoBars(s: string)
    ensures Bars(s) == 0 <==> '|' !in s
  {
    if s != [] { NoBars(s[1..]); }
  }

  lemma {:induction false} BarsOfField(a: string, rest: string)
    ensures Bars(Field(a, '|', rest)) == Bars(a) + 1 + Bars(rest)
  {
    BarsAppend(a + ['|'], rest);
    BarsAppend(a, ['|']);
    assert Bars(['|']) == 1 by { assert ['|'][1..] == []; }
  }

  function BarsIn(prev: string, f: Fields): nat {
    Bars(prev) + Bars(f.action) + Bars(f.resourceType) + Bars(f.timestamp)
  }

  lemma {:induction false} IdTextHasNoBars(id: nat)
    ensures Bars(IdText(id)) == 0
  {
    NoBars(IdText(id));
  }

  lemma {:induction false} BarsOfChainData(prev: string, f: Fields)
    ensures Bars(ChainData(prev, f)) == 5 + BarsIn(prev, f)
  {
    var e := Field(IdText(f.resourceId), '|', f.timestamp);
    var d := Field(f.resourceType, '|', e);
    var c := Field(IdText(f.userId), '|', d);
    var b := Field(f.action, '|', c);
    IdTextHasNoBars(f.userId);
    IdTextHasNoBars(f.resourceId);
    BarsOfField(IdText(f.resourceId), f.timestamp);
    BarsOfField(f.resourceType, e);
    BarsOfField(IdText(f.userId), d);
    BarsOfField(f.action, c);
    BarsOfField(prev, b);
  }

  /** No separator in the texts that are joined. */
  predicate Clean(f: Fields) { '|' !in f.action && '|' !in f.resourceType && '|' !in f.timestamp }

  lemma {:induction false} FieldSplits(a: string, x: string, b: string, y: string)
    requires Field(a, '|', x) == Field(b, '|', y) && Bars(a) == 0 && Bars(b) == 0
    ensures a == b && x == y
  {
    NoBars(a);
    NoBars(b);
    assert "" + Field(a, '|', x) == Field(a, '|', x) && "" + Field(b, '|', y) == Field(b, '|', y);
    FieldsSplit("", a, b, '|', x, y);
  }

  lemma {:induction false} IdTextInjective(m: nat, n: nat)
    requires IdText(m) == IdText(n)
    ensures m == n
  {
    if m != 0 && n != 0 { DecimalInjective(m, n); }
  }

  /** The text that is hashed determines what was joined, as soon as one of the two sides has
      no stray separator: the number of separators then rules it out on the other side. */
  lemma {:induction false} ChainDataInjective(prev: string, f: Fields, prev': string, f': Fields)
    requires ChainData(prev, f) == ChainData(prev', f') && '|' !in prev && Clean(f)
    ensures prev == prev' && f == f'
  {
    NoBars(prev);
    NoBars(f.action);
    NoBars(f.resourceType);
    NoBars(f.timestamp);
    BarsOfChainData(prev, f);
    BarsOfChainData(prev', f');
    IdTextHasNoBars(f.userId);
    IdTextHasNoBars(f.resourceId);
    IdTextHasNoBars(f'.userId);
    IdTextHasNoBars(f'.resourceId);
    var e, e' := Field(IdText(f.resourceId), '|', f.timestamp), Field(IdText(f'.resourceId), '|', f'.timestamp);
    var d, d' := Field(f.resourceType, '|', e), Field(f'.resourceType, '|', e');
    var c, c' := Field(IdText(f.userId), '|', d), Field(IdText(f'.userId), '|', d');
    FieldSplits(prev, Field(f.action, '|', c), prev', Field(f'.action, '|', c'));
    FieldSplits(f.action, c, f'.action, c');
    FieldSplits(IdText(f.userId), d, IdText(f'.userId), d');
    FieldSplits(f.resourceType, e, f'.resourceType, e');
    FieldSplits(IdText(f.resourceId), f.timestamp, IdText(f'.resourceId), f'.timestamp);
    IdTextInjective(f.userId, f'.userId);
    IdTextInjective(f.resourceId, f'.resourceId);
  }

  // ---- Entries without a hash are invisible ---------------------------------------------------------------

  /** The entries the verifier does not skip. */
  function Chain(entries: seq<Entry>): (r: seq<Entry>)
    ensures forall e :: e in r ==> Hashed(e) && e in entries
  {
    if entries == [] then []
    else if Hashed(entries[0]) then [entries[0]] + Chain(entries[1..]) else Chain(entries[1..])
  }

  lemma {:induction false} VerifyFrom(mac: Mac, entries: seq<Entry>, i: nat, k: nat, expected: string)
    requires i <= k <= |entries|
    ensures Verify(mac, entries, k, expected).Valid? <==> Verify(mac, entries[i..], k - i, expected).Valid?
    decreases |entries| - k
  {
    if k < |entries| {
      assert entries[i..][k - i] == entries[k];
      VerifyFrom(mac, entries, i, k + 1, expected);
      if Hashed(entries[k]) { VerifyFrom(mac, entries, i, k + 1, entries[k].entryHash.value); }
    }
  }

  /** One entry, and then the rest. */
  lemma {:induction false} VerifyHead(mac: Mac, entries: seq<Entry>, expected: string)
    requires entries != []
    ensures var e := entries[0];
            Verify(mac, entries, 0, expected).Valid? <==>
            && (Hashed(e) ==> PrevMatches(e, expected) && HashMatches(mac, e))
            && Verify(mac, entries[1..], 0, if Hashed(e) then e.entryHash.value else expected).Valid?
  {
    VerifyFrom(mac, entries, 1, 1, if Hashed(entries[0]) then entries[0].entryHash.value else expected);
  }

  lemma {:induction false} VerifySkips(mac: Mac, entries: seq<Entry>, expected: string)
    ensures Verify(mac, entries, 0, expected).Valid? <==> Verify(mac, Chain(entries), 0, expected).Valid?
    decreases |entries|
  {
    if entries != [] {
      var e := entries[0];
      VerifyHead(mac, entries, expected);
      VerifySkips(mac, entries[1..], if Hashed(e) then e.entryHash.value else expected);
      if Hashed(e) {
        assert Chain(entries)[1..] == Chain(entries[1..]);
        VerifyHead(mac, Chain(entries), expected);
      }
    }
  }

  // ---- The last hash fixes the history ------------------------------------------------------------------------

  ghost predicate AllHashedIn(entries: seq<Entry>) { forall e :: e in entries ==> Hashed(e) }

  /** Two chains that agree in every hashed field and in every hash. */
  ghost predicate SameHistory(a: seq<Entry>, b: seq<Entry>) {
    |a| == |b| && forall i :: 0 <= i < |a| ==> Same(a[i], b[i])
  }

  predicate Same(e: Entry, f: Entry) {
    FieldsOf(e) == FieldsOf(f) && e.entryHash == f.entryHash && e.prevHash == f.prevHash
  }

  lemma {:induction false} LastLink(mac: Mac, entries: seq<Entry>)
    requires Accepted(mac, entries) && AllHashedIn(entries) && entries != []
    ensures var n := |entries| - 1;
            && PrevMatches(entries[n], LastHash(entries[..n])) && HashMatches(mac, entries[n])
            && Accepted(mac, entries[..n]) && AllHashedIn(entries[..n])
            && LastHash(entries) == mac(ChainData(LastHash(entries[..n]), FieldsOf(entries[n])))
  {
    var n := |entries| - 1;
    AcceptedIsLinked(mac, entries);
    PrefixesAccepted(mac, entries, n);
    assert entries[n] in entries && Linked(mac, entries, n);
    if n > 0 { assert entries[n - 1] in entries && entries[..n][n - 1] == entries[n - 1]; }
  }

  lemma {:induction false} LastHashIsClean(mac: Mac, entries: seq<Entry>)
    requires ProperMac(mac) && Accepted(mac, entries) && AllHashedIn(entries)
    ensures '|' !in LastHash(entries) && (LastHash(entries) == GENESIS <==> entries == [])
  {
    assert '|' !in GENESIS;
    if entries != [] { LastLink(mac, entries); }
  }

  /** Equal last hashes mean equal last entries and equal last hashes before them. */
  lemma {:induction false} LastEntryIsFixed(mac: Mac, a: seq<Entry>, b: seq<Entry>)
    requires Injective(mac) && ProperMac(mac) && AllHashedIn(a) && AllHashedIn(b) && a != [] && b != []
    requires Clean(FieldsOf(a[|a| - 1]))
    requires Accepted(mac, a) && Accepted(mac, b) && LastHash(a) == LastHash(b)
    ensures Same(a[|a| - 1], b[|b| - 1]) && LastHash(a[..|a| - 1]) == LastHash(b[..|b| - 1])
    ensures Accepted(mac, a[..|a| - 1]) && Accepted(mac, b[..|b| - 1])
    ensures AllHashedIn(a[..|a| - 1]) && AllHashedIn(b[..|b| - 1])
  {
    var m, n := |a| - 1, |b| - 1;
    LastLink(mac, a);
    LastLink(mac, b);
    LastHashIsClean(mac, a[..m]);
    ChainDataInjective(LastHash(a[..m]), FieldsOf(a[m]), LastHash(b[..n]), FieldsOf(b[n]));
  }

  lemma {:induction false} HashedHistoryIsFixed(mac: Mac, a: seq<Entry>, b: seq<Entry>)
    requires Injective(mac) && ProperMac(mac) && AllHashedIn(a) && AllHashedIn(b)
    requires forall e :: e in a ==> Clean(FieldsOf(e))
    requires Accepted(mac, a) && Accepted(mac, b) && LastHash(a) == LastHash(b)
    ensures SameHistory(a, b)
    decreases |a|
  {
    LastHashIsClean(mac, a);
    LastHashIsClean(mac, b);
    if a != [] {
      var m, n := |a| - 1, |b| - 1;
      assert a[m] in a;
      LastEntryIsFixed(mac, a, b);
      HashedHistoryIsFixed(mac, a[..m], b[..n]);
      LastAdded(a, b);
    }
  }

  lemma {:induction false} LastAdded(a: seq<Entry>, b: seq<Entry>)
    requires a != [] && b != [] && SameHistory(a[..|a| - 1], b[..|b| - 1]) && Same(a[|a| - 1], b[|b| - 1])
    ensures SameHistory(a, b)
  {
    var m, n := |a| - 1, |b| - 1;
    forall i | 0 <= i < |a| ensures Same(a[i], b[i]) {
      if i < m { assert a[i] == a[..m][i] && b[i] == b[..n][i]; }
    }
  }

  /** Two accepted chains with the same last hash agree entry by entry on all hashed fields
      (entries without a hash set aside). Only the texts of the first are assumed to be free of
      the separator; the second is whatever someone made of the log. */
  lemma {:induction false} LastHashFixesHistory(mac: Mac, a: seq<Entry>, b: seq<Entry>)
    requires Injective(mac) && ProperMac(mac)
    requires forall e :: e in a ==> Clean(FieldsOf(e))
    requires Accepted(mac, a) && Accepted(mac, b) && LastHash(Chain(a)) == LastHash(Chain(b))
    ensures SameHistory(Chain(a), Chain(b))
  {
    VerifySkips(mac, a, GENESIS);
    VerifySkips(mac, b, GENESIS);
    HashedHistoryIsFixed(mac, Chain(a), Chain(b));
  }

  // ---- Tampering ----------------------------------------------------------------------------------------------

  lemma {:induction false} ChainAppend(a: seq<Entry>, b: seq<Entry>)
    ensures Chain(a + b) == Chain(a) + Chain(b)
  {
    if a == [] {
      assert a + b == b;
    } else {
      assert (a + b)[1..] == a[1..] + b;
      ChainAppend(a[1..], b);
    }
  }

  function OneIfHashed(e: Entry): seq<Entry> { if Hashed(e) then [e] else [] }

  lemma {:induction false} ChainAround(l: seq<Entry>, e: Entry, r: seq<Entry>)
    ensures Chain(l + ([e] + r)) == Chain(l) + (OneIfHashed(e) + Chain(r)) && Chain(l + r) == Chain(l) + Chain(r)
  {
    ChainAppend(l, [e] + r);
    ChainAppend([e], r);
    ChainAppend(l, r);
    assert [e][1..] == [] && Chain([e]) == OneIfHashed(e);
  }

  lemma {:induction false} HashedIn(entries: seq<Entry>)
    ensures Chain(entries) != [] <==> exists e :: e in entries && Hashed(e)
  {
    if entries != [] {
      HashedIn(entries[1..]);
      assert forall e :: e in entries <==> e == entries[0] || e in entries[1..];
    }
  }

  lemma {:induction false} SameLast(mac: Mac, l: seq<Entry>, x: seq<Entry>, y: seq<Entry>, r: seq<Entry>)
    requires r != []
    ensures LastHash(l + (x + r)) == LastHash(l + (y + r)) == LastHash(r)
  {
  }

  /** A change between l and r to a chain of hashed entries that is still accepted changes nothing. */
  lemma {:induction false} OnlySameAccepted(mac: Mac, l: seq<Entry>, x: seq<Entry>, y: seq<Entry>, r: seq<Entry>)
    requires Injective(mac) && ProperMac(mac) && AllHashedIn(l + (x + r)) && AllHashedIn(l + (y + r))
    requires forall e :: e in l + (x + r) ==> Clean(FieldsOf(e))
    requires Accepted(mac, l + (x + r)) && LastHash(l + (x + r)) == LastHash(l + (y + r))
    requires Accepted(mac, l + (y + r))
    ensures |x| == |y| && forall n :: 0 <= n < |x| ==> Same(x[n], y[n])
  {
    var a, b := l + (x + r), l + (y + r);
    HashedHistoryIsFixed(mac, a, b);
    forall n | 0 <= n < |x| ensures Same(x[n], y[n]) {
      assert a[|l| + n] == x[n] && b[|l| + n] == y[n];
    }
  }

  lemma {:induction false} HashedDeletion(mac: Mac, l: seq<Entry>, e: Entry, r: seq<Entry>)
    requires Injective(mac) && ProperMac(mac) && AllHashedIn(l + ([e] + r)) && Accepted(mac, l + ([e] + r))
    requires forall x :: x in l + ([e] + r) ==> Clean(FieldsOf(x))
    ensures Accepted(mac, l + r) <==> r == []
  {
    if r == [] {
      assert l + r == (l + ([e] + r))[..|l|];
      PrefixesAccepted(mac, l + ([e] + r), |l|);
    } else if Accepted(mac, l + r) {
      assert l + r == l + ([] + r);
      SameLast(mac, l, [e], [], r);
      OnlySameAccepted(mac, l, [e], [], r);
    }
  }

  lemma {:induction false} DeletingHashed(mac: Mac, l: seq<Entry>, e: Entry, r: seq<Entry>)
    requires Injective(mac) && ProperMac(mac) && Accepted(mac, l + ([e] + r)) && Hashed(e)
    requires forall x :: x in l + ([e] + r) ==> Clean(FieldsOf(x))
    ensures Accepted(mac, l + r) <==> Chain(r) == []
  {
    ChainAround(l, e, r);
    VerifySkips(mac, l + ([e] + r), GENESIS);
    VerifySkips(mac, l + r, GENESIS);
    assert Chain(l + ([e] + r)) == Chain(l) + ([e] + Chain(r));
    HashedDeletion(mac, Chain(l), e, Chain(r));
  }

  lemma {:induction false} DeletingUnhashed(mac: Mac, l: seq<Entry>, e: Entry, r: seq<Entry>)
    requires Accepted(mac, l + ([e] + r)) && !Hashed(e)
    ensures Accepted(mac, l + r)
  {
    ChainAround(l, e, r);
    VerifySkips(mac, l + ([e] + r), GENESIS);
    VerifySkips(mac, l + r, GENESIS);
    assert [] + Chain(r) == Chain(r);
  }

  predicate HashedAfter(a: seq<Entry>, i: nat) { exists k :: i < k < |a| && Hashed(a[k]) }

  lemma {:induction false} Deletion(mac: Mac, a: seq<Entry>, i: nat)
    requires Injective(mac) && ProperMac(mac) && Accepted(mac, a) && i < |a|
    requires forall e :: e in a ==> Clean(FieldsOf(e))
    ensures Accepted(mac, Without(a, i)) <==> !Hashed(a[i]) || !HashedAfter(a, i)
  {
    var l, r := a[..i], a[i + 1..];
    assert a == l + ([a[i]] + r);
    HashedRest(a, i);
    if Hashed(a[i]) { DeletingHashed(mac, l, a[i], r); } else { DeletingUnhashed(mac, l, a[i], r); }
  }

  lemma {:induction false} HashedRest(a: seq<Entry>, i: nat)
    requires i < |a|
    ensures HashedAfter(a, i) <==> Chain(a[i + 1..]) != []
  {
    var r := a[i + 1..];
    HashedIn(r);
    if k :| i < k < |a| && Hashed(a[k]) { assert r[k - i - 1] == a[k]; }
  }

  /** Nothing to tell the two apart: hashed alike, or both without a hash. */
  predicate Alike(e: Entry, f: Entry) { if Hashed(e) then Same(e, f) else !Hashed(f) }

  lemma {:induction false} ExpectedAlike(a: seq<Entry>, b: seq<Entry>, n: nat)
    requires n <= |a| && n <= |b| && forall k :: 0 <= k < n ==> Alike(a[k], b[k])
    ensures ExpectedAt(a, n) == ExpectedAt(b, n)
  {
    if n > 0 { ExpectedAlike(a, b, n - 1); }
  }

  lemma {:induction false} AlikeIsAccepted(mac: Mac, a: seq<Entry>, b: seq<Entry>)
    requires Accepted(mac, a) && |a| == |b| && forall k :: 0 <= k < |a| ==> Alike(a[k], b[k])
    ensures Accepted(mac, b)
  {
    AcceptedIsLinked(mac, a);
    AcceptedIsLinked(mac, b);
    forall n | 0 <= n < |b| ensures Linked(mac, b, n) {
      ExpectedAlike(a, b, n);
      assert Linked(mac, a, n);
    }
  }

  /** A new entry that a chain still accepts behind the given ones. */
  predicate Fits(mac: Mac, before: seq<Entry>, e: Entry) {
    Hashed(e) ==> PrevMatches(e, ExpectedAt(before, |before|)) && HashMatches(mac, e)
  }

  lemma {:induction false} AlteringLast(mac: Mac, a: seq<Entry>, i: nat, e: Entry)
    requires Accepted(mac, a) && i < |a| && !HashedAfter(a, i)
    ensures Accepted(mac, a[i := e]) <==> Fits(mac, a[..i], e)
  {
    var b := a[i := e];
    AcceptedIsLinked(mac, a);
    AcceptedIsLinked(mac, b);
    assert a[..i] == b[..i];
    ExpectedOfPrefix(a, i, i);
    ExpectedOfPrefix(b, i, i);
    forall n | 0 <= n < |b| && n != i ensures Linked(mac, b, n) {
      assert Linked(mac, a, n);
      if n < i {
        ExpectedOfPrefix(a, i, n);
        ExpectedOfPrefix(b, i, n);
      }
    }
    assert Linked(mac, b, i) <==> Fits(mac, a[..i], e);
  }

  lemma {:induction false} AlteringInner(mac: Mac, a: seq<Entry>, i: nat, e: Entry)
    requires Injective(mac) && ProperMac(mac) && Accepted(mac, a) && i < |a|
    requires forall x :: x in a ==> Clean(FieldsOf(x))
    requires HashedAfter(a, i) && Accepted(mac, a[i := e])
    ensures Alike(a[i], e)
  {
    var l, r, b := a[..i], a[i + 1..], a[i := e];
    assert a == l + ([a[i]] + r) && b == l + ([e] + r);
    ChainAround(l, a[i], r);
    ChainAround(l, e, r);
    HashedRest(a, i);
    VerifySkips(mac, a, GENESIS);
    VerifySkips(mac, b, GENESIS);
    var cl, x, y, cr := Chain(l), OneIfHashed(a[i]), OneIfHashed(e), Chain(r);
    SameLast(mac, cl, x, y, cr);
    OnlySameAccepted(mac, cl, x, y, cr);
  }

  lemma {:induction false} Alteration(mac: Mac, a: seq<Entry>, i: nat, e: Entry)
    requires Injective(mac) && ProperMac(mac) && Accepted(mac, a) && i < |a|
    requires forall x :: x in a ==> Clean(FieldsOf(x))
    ensures Accepted(mac, a[i := e]) <==> if HashedAfter(a, i) then Alike(a[i], e) else Fits(mac, a[..i], e)
  {
    if !HashedAfter(a, i) {
      AlteringLast(mac, a, i, e);
    } else if Accepted(mac, a[i := e]) {
      AlteringInner(mac, a, i, e);
    } else if Alike(a[i], e) {
      AlikeIsAccepted(mac, a, a[i := e]);
    }
  }

  const UNHASHED := Entry(None, "", None, None, "", None, None)

  lemma {:induction false} InsertingUnhashed(mac: Mac, a: seq<Entry>, i: nat)
    requires Accepted(mac, a) && i <= |a|
    ensures Accepted(mac, Inserted(a, i, UNHASHED))
  {
    var l, r := a[..i], a[i..];
    assert a == l + r && Inserted(a, i, UNHASHED) == l + ([UNHASHED] + r);
    ChainAround(l, UNHASHED, r);
    VerifySkips(mac, a, GENESIS);
    VerifySkips(mac, Inserted(a, i, UNHASHED), GENESIS);
    assert [] + Chain(r) == Chain(r);
  }

  /** Inserting an entry is inserting one without a hash and then altering it. */
  lemma {:induction false} Insertion(mac: Mac, a: seq<Entry>, i: nat, e: Entry)
    requires Injective(mac) && ProperMac(mac) && Accepted(mac, a) && i <= |a|
    requires forall x :: x in a ==> Clean(FieldsOf(x))
    ensures var b := Inserted(a, i, e);
            Accepted(mac, b) <==> !Hashed(e) || (Fits(mac, a[..i], e) && !HashedAfter(b, i))
  {
    var b0, b := Inserted(a, i, UNHASHED), Inserted(a, i, e);
    InsertingUnhashed(mac, a, i);
    assert b0[i := e] == b && b0[..i] == a[..i];
    assert forall k :: i < k < |b0| ==> b0[k] == b[k];
    Alteration(mac, b0, i, e);
  }

  // ---- Tampering with the log, as the verifier of one window sees it ------------------------------------------

  predicate Chosen(user: Option<nat>, e: Entry) { user.None? || e.userId == user }

  /** The entries of the chain before position p of the log. */
  function Before(log: seq<Entry>, user: Option<nat>, p: nat): seq<Entry>
    requires p <= |log|
  {
    ChosenOf(log[..p], user)
  }

  lemma {:induction false} ChosenAround(l: seq<Entry>, e: Entry, r: seq<Entry>, user: Option<nat>)
    ensures ChosenOf(l + r, user) == ChosenOf(l, user) + ChosenOf(r, user)
    ensures ChosenOf(l + [e] + r, user)
            == ChosenOf(l, user) + (if Chosen(user, e) then [e] else []) + ChosenOf(r, user)
  {
    if user.Some? {
      ForUserConcat(l, r, user);
      ForUserConcat(l + [e], r, user);
      ForUserAppend(l, e, user);
    }
  }

  lemma {:induction false} ChosenWithout(log: seq<Entry>, user: Option<nat>, p: nat)
    requires p < |log|
    ensures var all, i := ChosenOf(log, user), |Before(log, user, p)|;
            if Chosen(user, log[p])
            then i < |all| && all[i] == log[p] && ChosenOf(Without(log, p), user) == Without(all, i)
            else ChosenOf(Without(log, p), user) == all
  {
    assert log == log[..p] + [log[p]] + log[p + 1..];
    ChosenAround(log[..p], log[p], log[p + 1..], user);
  }

  lemma {:induction false} ChosenAltered(log: seq<Entry>, user: Option<nat>, p: nat, e: Entry)
    requires p < |log| && Chosen(user, log[p])
    ensures var all, i := ChosenOf(log, user), |Before(log, user, p)|;
            && i < |all| && all[..i] == Before(log, user, p) && all[i] == log[p]
            && ChosenOf(log[p := e], user) == if Chosen(user, e) then all[i := e] else Without(all, i)
  {
    assert log == log[..p] + [log[p]] + log[p + 1..];
    assert log[p := e] == log[..p] + [e] + log[p + 1..];
    ChosenAround(log[..p], log[p], log[p + 1..], user);
    ChosenAround(log[..p], e, log[p + 1..], user);
    OneReplaced(Before(log, user, p), log[p], ChosenOf(log[p + 1..], user), e);
  }

  lemma {:induction false} OneReplaced(l: seq<Entry>, x: Entry, r: seq<Entry>, e: Entry)
    ensures var all := l + [x] + r;
            && all[..|l|] == l && all[|l|] == x && all[|l| := e] == l + [e] + r && Without(all, |l|) == l + [] + r
  {
  }

  /** A deletion goes unnoticed exactly when the entry is not among those the verifier reads, has
      no hash, or no hashed entry follows it in the window, into which one more entry moves up. */
  lemma {:induction false} DeletionNoticed(mac: Mac, log: seq<Entry>, user: Option<nat>, limit: nat, p: nat)
    requires Injective(mac) && ProperMac(mac) && p < |log|
    requires Accepted(mac, Selected(log, user, limit + 1))
    requires forall e :: e in Selected(log, user, limit + 1) ==> Clean(FieldsOf(e))
    ensures var i := |Before(log, user, p)|;
            Accepted(mac, Selected(Without(log, p), user, limit)) <==>
            !Chosen(user, log[p]) || limit <= i || !Hashed(log[p])
            || !HashedAfter(Selected(log, user, limit + 1), i)
  {
    var all, i := ChosenOf(log, user), |Before(log, user, p)|;
    var a, left := Selected(log, user, limit + 1), Selected(Without(log, p), user, limit);
    ChosenWithout(log, user, p);
    if Chosen(user, log[p]) { SliceWithout(all, i, limit); }
    if Chosen(user, log[p]) && i < limit {
      Deletion(mac, a, i);
    } else {
      SlicesAccepted(mac, all, limit);
    }
  }

  lemma {:induction false} SlicesAccepted(mac: Mac, all: seq<Entry>, limit: nat)
    requires Accepted(mac, Slice(all, limit + 1))
    ensures Accepted(mac, Slice(all, limit))
  {
    var a := Slice(all, limit + 1);
    assert Slice(all, limit) == a[..|Slice(all, limit)|];
    PrefixesAccepted(mac, a, |Slice(all, limit)|);
  }

  /** An alteration, also of a hash or by clearing one, is noticed exactly when the entry is in the
      window and either a hashed entry follows there and the verifier can tell the two apart, or
      none follows and the new entry does not fit behind those before it. */
  lemma {:induction false} AlterationNoticed(mac: Mac, log: seq<Entry>, user: Option<nat>, limit: nat, p: nat, e: Entry)
    requires Injective(mac) && ProperMac(mac) && p < |log| && Chosen(user, log[p]) && Chosen(user, e)
    requires Accepted(mac, Selected(log, user, limit))
    requires forall x :: x in Selected(log, user, limit) ==> Clean(FieldsOf(x))
    ensures var a, i := Selected(log, user, limit), |Before(log, user, p)|;
            Accepted(mac, Selected(log[p := e], user, limit)) <==>
            limit <= i || if HashedAfter(a, i) then Alike(log[p], e) else Fits(mac, Before(log, user, p), e)
  {
    var a, i := Selected(log, user, limit), |Before(log, user, p)|;
    ChosenAltered(log, user, p, e);
    if i < limit {
      assert Selected(log[p := e], user, limit) == a[i := e] && a[..i] == Before(log, user, p);
      Alteration(mac, a, i, e);
    } else {
      assert Selected(log[p := e], user, limit) == a;
    }
  }

  lemma {:induction false} ChosenInserted(log: seq<Entry>, user: Option<nat>, p: nat, e: Entry)
    requires p <= |log| && Chosen(user, e)
    ensures var all, i := ChosenOf(log, user), |Before(log, user, p)|;
            && i <= |all| && all[..i] == Before(log, user, p)
            && ChosenOf(Inserted(log, p, e), user) == Inserted(all, i, e)
  {
    assert log == log[..p] + log[p..];
    ChosenAround(log[..p], e, log[p..], user);
  }

  /** A forged entry in a chain goes unnoticed exactly when it lies behind the window, has no hash,
      or is correctly chained to those before it and no hashed entry follows it there. */
  lemma {:induction false} InsertionNoticed(mac: Mac, log: seq<Entry>, user: Option<nat>, limit: nat, p: nat, e: Entry)
    requires Injective(mac) && ProperMac(mac) && p <= |log| && Chosen(user, e)
    requires Accepted(mac, Selected(log, user, limit))
    requires forall x :: x in Selected(log, user, limit) ==> Clean(FieldsOf(x))
    ensures var b, i := Selected(Inserted(log, p, e), user, limit), |Before(log, user, p)|;
            Accepted(mac, b) <==>
            limit <= i || !Hashed(e) || (Fits(mac, Before(log, user, p), e) && !HashedAfter(b, i))
  {
    ChosenInserted(log, user, p, e);
    InsertionInWindow(mac, ChosenOf(log, user), |Before(log, user, p)|, limit, e);
  }

  lemma {:induction false} InsertionInWindow(mac: Mac, all: seq<Entry>, i: nat, limit: nat, e: Entry)
    requires Injective(mac) && ProperMac(mac) && i <= |all| && Accepted(mac, Slice(all, limit))
    requires forall x :: x in Slice(all, limit) ==> Clean(FieldsOf(x))
    ensures var b := Slice(Inserted(all, i, e), limit);
            Accepted(mac, b) <==> limit <= i || !Hashed(e) || (Fits(mac, all[..i], e) && !HashedAfter(b, i))
  {
    SliceInserted(all, i, e, limit);
    if i < limit {
      SlicesAccepted(mac, all, limit - 1);
      SliceKeeps(all, i, limit - 1);
      Insertion(mac, Slice(all, limit - 1), i, e);
    }
  }

  lemma {:induction false} SliceKeeps(all: seq<Entry>, i: nat, n: nat)
    requires i <= |all| && i <= n
    ensures i <= |Slice(all, n)| && Slice(all, n)[..i] == all[..i]
    ensures forall x :: x in Slice(all, n) ==> x in Slice(all, n + 1)
  {
    forall x | x in Slice(all, n) ensures x in Slice(all, n + 1) {
      var k :| 0 <= k < |Slice(all, n)| && Slice(all, n)[k] == x;
      assert Slice(all, n + 1)[k] == x;
    }
  }

  /** Taking over somebody else's entry looks to the new user's verifier like inserting it. */
  lemma {:induction false} ReassigningIsInserting(log: seq<Entry>, user: Option<nat>, limit: nat, p: nat, e: Entry)
    requires p < |log| && !Chosen(user, log[p]) && Chosen(user, e)
    ensures Selected(log[p := e], user, limit) == Selected(Inserted(log, p, e), user, limit)
  {
    assert log[p := e] == log[..p] + [e] + log[p + 1..] && log[p..] == [] + [log[p]] + log[p + 1..];
    ChosenAround(log[..p], e, log[p + 1..], user);
    ChosenAround(log[..p], e, log[p..], user);
    ChosenAround([], log[p], log[p + 1..], user);
  }

  /** Giving an entry to somebody else looks to its user's verifier like deleting it. */
  lemma {:induction false} ReassigningIsDeleting(log: seq<Entry>, user: Option<nat>, limit: nat, p: nat, e: Entry)
    requires p < |log| && Chosen(user, log[p]) && !Chosen(user, e)
    ensures Selected(log[p := e], user, limit) == Selected(Without(log, p), user, limit)
  {
    ChosenAltered(log, user, p, e);
    ChosenWithout(log, user, p);
  }

  /** The fields of the last hashed entry cannot be altered without its hash. */
  lemma {:induction false} KeptHashKeepsFields(mac: Mac, a: seq<Entry>, i: nat, e: Entry)
    requires Injective(mac) && ProperMac(mac) && Accepted(mac, a) && i < |a| && Hashed(a[i])
    requires forall x :: x in a ==> Clean(FieldsOf(x))
    requires e.entryHash == a[i].entryHash
    ensures Fits(mac, a[..i], e) <==> Same(a[i], e)
  {
    AcceptedIsLinked(mac, a);
    assert Linked(mac, a, i);
    assert a[..i][..i] == a[..i];
    ExpectedOfPrefix(a, i, i);
    if Fits(mac, a[..i], e) {
      assert a[i] in a;
      ExpectedIsClean(mac, a, i);
      ChainDataInjective(ExpectedAt(a, i), FieldsOf(a[i]), ExpectedAt(a, i), FieldsOf(e));
    }
  }

  lemma {:induction false} ExpectedIsClean(mac: Mac, a: seq<Entry>, n: nat)
    requires ProperMac(mac) && Accepted(mac, a) && n <= |a|
    ensures '|' !in ExpectedAt(a, n)
  {
    assert '|' !in GENESIS;
    AcceptedIsLinked(mac, a);
    if n > 0 {
      assert Linked(mac, a, n - 1);
      if !Hashed(a[n - 1]) { ExpectedIsClean(mac, a, n - 1); }
    }
  }
}
