/** Where exactly-once ends, shown by runs of the state machine: replay fails under exactly the keys
    that are deduplication keys too, a duplicate misleads exactly when a client uses the operation's
    deduplication key or step hashes collide, and one operation is executed twice without any time
    passing as soon as it is sent under two keys, by requests that overlap as well as by requests
    that do not. */
module ExecuteRequestsLimits {
  import opened Options
  import Keys
  import opened ExecuteRequests
  import opened ExecuteRequestsProofs
  import opened ExecuteRequestsReplay
  import opened ExecuteRequestsDedup

  // ---- Reachable states ---------------------------------------------------------------------------------

  /** Which runs are looked at: all, those in which a request arrives only when no other is in
      progress, or those in which no request is interrupted. */
  datatype Manner = Any | OneAtATime | NobodyDies

  predicate Allowed(m: Manner, s: State, a: Action) {
    match m
    case Any => true
    case OneAtATime => a.Arrive? ==> forall r :: r in s.procs ==> !s.procs[r].Active()
    case NobodyDies => !a.Abort?
  }

  ghost predicate RunBy(env: Env, tr: seq<State>, acts: seq<Action>, who: iset<Request>, m: Manner) {
    && Run(env, tr, acts)
    && forall i :: 0 <= i < |acts| ==> (acts[i].Arrive? ==> acts[i].req in who) && Allowed(m, tr[i], acts[i])
  }

  /** s can be reached by such a run whose requests all satisfy `who`. */
  ghost predicate Reached(env: Env, s: State, who: iset<Request>, m: Manner) {
    exists tr, acts :: RunBy(env, tr, acts, who, m) && tr[|acts|] == s
  }

  lemma {:induction false} Extend(env: Env, tr: seq<State>, acts: seq<Action>, a: Action, who: iset<Request>, m: Manner)
    requires RunBy(env, tr, acts, who, m) && Enabled(env, tr[|acts|], a)
    requires (a.Arrive? ==> a.req in who) && Allowed(m, tr[|acts|], a)
    ensures RunBy(env, tr + [Next(env, tr[|acts|], a)], acts + [a], who, m)
  {
    var tr', acts' := tr + [Next(env, tr[|acts|], a)], acts + [a];
    forall i | 0 <= i < |acts'| ensures Enabled(env, tr'[i], acts'[i]) && tr'[i + 1] == Next(env, tr'[i], acts'[i]) {
      if i < |acts| { assert tr'[i] == tr[i] && tr'[i + 1] == tr[i + 1] && acts'[i] == acts[i]; }
    }
    forall i | 0 <= i < |acts'| ensures (acts'[i].Arrive? ==> acts'[i].req in who) && Allowed(m, tr'[i], acts'[i]) {
      if i < |acts| { assert tr'[i] == tr[i] && acts'[i] == acts[i]; }
    }
  }

  lemma {:induction false} ReachedInitially(env: Env, who: iset<Request>, m: Manner)
    ensures Reached(env, INITIAL, who, m)
  {
    assert RunBy(env, [INITIAL], [], who, m);
  }

  lemma {:induction false} ReachedNext(env: Env, s: State, who: iset<Request>, m: Manner, a: Action) returns (s': State)
    requires Reached(env, s, who, m) && Enabled(env, s, a) && (a.Arrive? ==> a.req in who) && Allowed(m, s, a)
    ensures s' == Next(env, s, a) && Reached(env, s', who, m)
  {
    s' := Next(env, s, a);
    var tr, acts :| RunBy(env, tr, acts, who, m) && tr[|acts|] == s;
    Extend(env, tr, acts, a, who, m);
    var tr', acts' := tr + [s'], acts + [a];
    assert RunBy(env, tr', acts', who, m) && tr'[|acts'|] == s';
  }

  /** The requests in a reachable state are among those that may be sent. */
  lemma {:induction false} OnlyThose(env: Env, tr: seq<State>, acts: seq<Action>, who: iset<Request>, m: Manner, i: nat, r: nat)
    requires RunBy(env, tr, acts, who, m) && i < |tr| && r in tr[i].procs
    ensures tr[i].procs[r].req in who
  {
    if i > 0 {
      StepFrom(env, tr[i - 1], acts[i - 1], r);
      if r in tr[i - 1].procs { OnlyThose(env, tr, acts, who, m, i - 1, r); }
    }
  }

  lemma {:induction false} StepFrom(env: Env, s: State, a: Action, r: nat)
    requires Enabled(env, s, a) && r in Next(env, s, a).procs
    ensures if r in s.procs then Next(env, s, a).procs[r].req == s.procs[r].req
            else a.Arrive? && a.r == r && Next(env, s, a).procs[r].req == a.req
  {
  }

  // ---- A first request, alone -----------------------------------------------------------------------------

  /** The first request looks up its key at time 0 and its operation at time d. */
  function Solo(d: int, req: Request, pc: Pc, pending: map<Slot, Record>, idem: map<Slot, Record>,
                execs: map<nat, Execution>, ids: nat, grants: map<nat, Grant>): State
  {
    State(d, idem, execs, map[0 := Process(req, pc, pending, TTL)], ids, ids, grants)
  }

  function FirstRecord(hash: string): Record { Record(hash, true, None, TTL, 0, 0) }

  function FirstDedupRecord(env: Env, d: int, req: Request): Record {
    Record(DedupKeyOf(env, req.op), true, None, d + TTL, d, 0)
  }

  /** What the first request has written when its execution is inserted. */
  function FirstRecords(env: Env, d: int, req: Request): map<Slot, Record> {
    var slot, dedup := ClientSlot(req), DedupSlot(env, req.op);
    if slot == dedup then map[slot := FirstRecord(req.bodyHash)]
    else map[slot := FirstRecord(req.bodyHash), dedup := FirstDedupRecord(env, d, req)]
  }

  function FirstExecs(req: Request): map<nat, Execution> { map[0 := Execution(req.key, req.op, 0, 0)] }

  function FirstGrants(req: Request): map<nat, Grant> { map[0 := Grant(ClientSlot(req), 0, TTL)] }

  /** The first request after its first commit. */
  function AfterFirst(env: Env, d: int, req: Request, pc: Pc, pending: map<Slot, Record>): State {
    Solo(d, req, pc, pending, FirstRecords(env, d, req), FirstExecs(req), 1, FirstGrants(req))
  }

  lemma {:induction false} FirstRequestArrives(env: Env, req: Request, who: iset<Request>, m: Manner)
    requires req in who
    ensures Reached(env, Solo(0, req, Absent, map[], map[], map[], 0, map[]), who, m)
  {
    ReachedInitially(env, who, m);
    var s := ReachedNext(env, INITIAL, who, m, Arrive(0, req));
    assert s.procs == map[0 := Process(req, Arrived, map[], 0)];
    s := ReachedNext(env, s, who, m, LookupKey(0));
    assert s == Solo(0, req, Absent, map[], map[], map[], 0, map[]);
  }

  lemma {:induction false} FirstRequestGranted(env: Env, d: nat, req: Request, who: iset<Request>, m: Manner)
    requires req in who && d < TTL
    ensures Reached(env, Solo(d, req, Granted, map[ClientSlot(req) := FirstRecord(req.bodyHash)], map[], map[], 0, map[]), who, m)
  {
    var p := map[ClientSlot(req) := FirstRecord(req.bodyHash)];
    FirstRequestArrives(env, req, who, m);
    var s := ReachedNext(env, Solo(0, req, Absent, map[], map[], map[], 0, map[]), who, m, InsertKey(0));
    assert s == Solo(0, req, Granted, p, map[], map[], 0, map[]);
    s := ReachedNext(env, s, who, m, Tick(d));
    assert s == Solo(d, req, Granted, p, map[], map[], 0, map[]);
  }

  /** Its own record of the operation is either the one of its key or has to be inserted. */
  lemma {:induction false} FirstLookup(env: Env, d: nat, req: Request)
    requires d < TTL
    ensures var slot, dedup := ClientSlot(req), DedupSlot(env, req.op);
            var p := map[slot := FirstRecord(req.bodyHash)];
            var s := Solo(d, req, Granted, p, map[], map[], 0, map[]);
            Next(env, s, LookupDedup(0))
            == Solo(d, req, if slot == dedup then DedupHeld else DedupAbsent(d), p, map[], map[], 0, map[])
  {
    var p := map[ClientSlot(req) := FirstRecord(req.bodyHash)];
    assert map[] + p == p;
  }

  lemma {:induction false} FirstInsert(env: Env, d: nat, req: Request)
    requires ClientSlot(req) != DedupSlot(env, req.op)
    ensures var s := Solo(d, req, DedupAbsent(d), map[ClientSlot(req) := FirstRecord(req.bodyHash)], map[], map[], 0, map[]);
            && Enabled(env, s, InsertDedup(0))
            && Next(env, s, InsertDedup(0)) == Solo(d, req, DedupHeld, FirstRecords(env, d, req), map[], map[], 0, map[])
  {
    var p := map[ClientSlot(req) := FirstRecord(req.bodyHash)];
    assert p[DedupSlot(env, req.op) := FirstDedupRecord(env, d, req)] == FirstRecords(env, d, req);
  }

  lemma {:induction false} FirstRequestHeld(env: Env, d: nat, req: Request, who: iset<Request>, m: Manner)
    requires req in who && d < TTL
    ensures Reached(env, Solo(d, req, DedupHeld, FirstRecords(env, d, req), map[], map[], 0, map[]), who, m)
  {
    var slot, dedup := ClientSlot(req), DedupSlot(env, req.op);
    var p := map[slot := FirstRecord(req.bodyHash)];
    FirstRequestGranted(env, d, req, who, m);
    var s := Solo(d, req, Granted, p, map[], map[], 0, map[]);
    FirstLookup(env, d, req);
    s := ReachedNext(env, s, who, m, LookupDedup(0));
    if slot != dedup {
      FirstInsert(env, d, req);
      s := ReachedNext(env, s, who, m, InsertDedup(0));
    }
  }

  lemma {:induction false} FirstRequestInserts(env: Env, d: nat, req: Request, who: iset<Request>, m: Manner)
    requires req in who && d < TTL
    ensures Reached(env, Solo(d, req, RowAdded(0, 0), FirstRecords(env, d, req), map[], map[], 1, map[]), who, m)
  {
    var p := FirstRecords(env, d, req);
    FirstRequestHeld(env, d, req, who, m);
    var s := ReachedNext(env, Solo(d, req, DedupHeld, p, map[], map[], 0, map[]), who, m, InsertExecution(0));
    assert s == Solo(d, req, RowAdded(0, 0), p, map[], map[], 1, map[]);
  }

  lemma {:induction false} FirstRequestCommits(env: Env, d: nat, req: Request, who: iset<Request>, m: Manner)
    requires req in who && d < TTL
    ensures Reached(env, AfterFirst(env, d, req, Persisted(0, 0), map[]), who, m)
  {
    var p := FirstRecords(env, d, req);
    FirstRequestInserts(env, d, req, who, m);
    var s := ReachedNext(env, Solo(d, req, RowAdded(0, 0), p, map[], map[], 1, map[]), who, m, CommitExecution(0));
    assert map[] + p == p;
    assert s == AfterFirst(env, d, req, Persisted(0, 0), map[]);
  }

  lemma {:induction false} FirstRequestLinks(env: Env, d: nat, req: Request, who: iset<Request>, m: Manner)
    requires req in who && d < TTL
    ensures Reached(env, AfterFirst(env, d, req, Linked(0, 0), map[]), who, m)
  {
    FirstRequestCommits(env, d, req, who, m);
    var s := ReachedNext(env, AfterFirst(env, d, req, Persisted(0, 0), map[]), who, m, Send(0));
    assert s == AfterFirst(env, d, req, Sent(0, 0), map[]);
    s := ReachedNext(env, s, who, m, CommitLinks(0));
    assert s == AfterFirst(env, d, req, Linked(0, 0), map[]);
  }

  /** What it writes at its end; at a colliding key the second write covers the first. */
  function LastRecords(env: Env, d: int, req: Request): map<Slot, Record> {
    var dedup := DedupSlot(env, req.op);
    KeyRecord(req)[dedup := FirstRecords(env, d, req)[dedup].(processing := false, body := Some(Marker(0)))]
  }

  function KeyRecord(req: Request): map<Slot, Record> {
    map[ClientSlot(req) := FirstRecord(req.bodyHash).(processing := false, body := Some(Created(0, 0)))]
  }

  lemma {:induction false} FirstRequestClosesKey(env: Env, d: nat, req: Request, who: iset<Request>, m: Manner)
    requires req in who && d < TTL
    ensures Reached(env, AfterFirst(env, d, req, ClosingKey(0, 0), KeyRecord(req)), who, m)
  {
    FirstRequestLinks(env, d, req, who, m);
    var s := ReachedNext(env, AfterFirst(env, d, req, Linked(0, 0), map[]), who, m, CompleteKey(0));
    assert s == AfterFirst(env, d, req, ClosingKey(0, 0), KeyRecord(req));
  }

  lemma {:induction false} FirstRequestCloses(env: Env, d: nat, req: Request, who: iset<Request>, m: Manner)
    requires req in who && d < TTL
    ensures Reached(env, AfterFirst(env, d, req, Closing(0, 0), LastRecords(env, d, req)), who, m)
  {
    FirstRequestClosesKey(env, d, req, who, m);
    var s := ReachedNext(env, AfterFirst(env, d, req, ClosingKey(0, 0), KeyRecord(req)), who, m, CompleteDedup(0));
    assert s.procs[0].pending == LastRecords(env, d, req);
    assert s == AfterFirst(env, d, req, Closing(0, 0), LastRecords(env, d, req));
  }

  /** The first request at its end, at a time t at which the records `idem` are there. */
  function Finished(t: int, req: Request, idem: map<Slot, Record>): State {
    Solo(t, req, Answered(Accepted(Created(0, 0))), map[], idem, FirstExecs(req), 1, FirstGrants(req))
  }

  lemma {:induction false} FirstRequestFinishes(env: Env, d: nat, req: Request, who: iset<Request>, m: Manner)
    requires req in who && d < TTL
    ensures Reached(env, Finished(d, req, LastRecords(env, d, req)), who, m)
  {
    FirstRequestCloses(env, d, req, who, m);
    var s := ReachedNext(env, AfterFirst(env, d, req, Closing(0, 0), LastRecords(env, d, req)), who, m, CommitAnswer(0, true));
    assert s.idem == LastRecords(env, d, req);
  }

  lemma {:induction false} FirstADayLater(env: Env, req: Request, who: iset<Request>, m: Manner)
    requires req in who
    ensures Reached(env, Finished(TTL, req, LastRecords(env, 1, req)), who, m)
  {
    FirstRequestFinishes(env, 1, req, who, m);
    var s := ReachedNext(env, Finished(1, req, LastRecords(env, 1, req)), who, m, Tick(TTL));
  }

  lemma {:induction false} FirstKeyPurged(env: Env, req: Request)
    requires req.key != DedupKeyOf(env, req.op)
    ensures var dedup, last := DedupSlot(env, req.op), LastRecords(env, 1, req);
            Next(env, Finished(TTL, req, last), Purge) == Finished(TTL, req, map[dedup := last[dedup]])
  {
    var dedup, last := DedupSlot(env, req.op), LastRecords(env, 1, req);
    assert Next(env, Finished(TTL, req, last), Purge).idem == map[dedup := last[dedup]];
  }

  /** A day later its key has been purged, but if it looked up its operation later than its key,
      the record of the operation is still there. */
  lemma {:induction false} FirstKeyExpires(env: Env, req: Request, who: iset<Request>, m: Manner)
    requires req in who && req.key != DedupKeyOf(env, req.op)
    ensures var dedup := DedupSlot(env, req.op);
            Reached(env, Finished(TTL, req, map[dedup := LastRecords(env, 1, req)[dedup]]), who, m)
  {
    FirstADayLater(env, req, who, m);
    FirstKeyPurged(env, req);
    var s := ReachedNext(env, Finished(TTL, req, LastRecords(env, 1, req)), who, m, Purge);
  }

  // ---- A second request under another key ---------------------------------------------------------------

  /** Request 0 has done what it will do, and request 1 sends a key without a record. */
  ghost predicate Follows(env: Env, s: State, req: Request) {
    && s.procs.Keys == {0} && s.procs[0].pending == map[] && !s.procs[0].pc.RowAdded?
    && ClientSlot(req) !in s.idem && ClientSlot(req) != DedupSlot(env, req.op) && Live(s.idem, DedupSlot(env, req.op), s.clock)
  }

  /** The state in which request 1 stands at pc. */
  function Second(s0: State, req: Request, pc: Pc, pending: map<Slot, Record>, deadline: int): State {
    s0.(procs := s0.procs[1 := Process(req, pc, pending, deadline)])
  }

  /** What request 1 has written when its key is granted. */
  function SecondRecords(now: int, req: Request): map<Slot, Record> {
    map[ClientSlot(req) := Record(req.bodyHash, true, None, now + TTL, now, 1)]
  }

  lemma {:induction false} SecondRequestArrives(env: Env, s0: State, req: Request, who: iset<Request>, m: Manner)
    requires Reached(env, s0, who, m) && Follows(env, s0, req) && req in who
    requires m.OneAtATime? ==> !s0.procs[0].Active()
    ensures Reached(env, Second(s0, req, Absent, map[], s0.clock + TTL), who, m)
  {
    var s := ReachedNext(env, s0, who, m, Arrive(1, req));
    assert s == Second(s0, req, Arrived, map[], s0.clock);
    SecondLookup(env, s0, req);
    s := ReachedNext(env, s, who, m, LookupKey(1));
  }

  lemma {:induction false} SecondLookup(env: Env, s0: State, req: Request)
    requires Follows(env, s0, req)
    ensures Next(env, Second(s0, req, Arrived, map[], s0.clock), LookupKey(1)) == Second(s0, req, Absent, map[], s0.clock + TTL)
  {
    var s := Second(s0, req, Arrived, map[], s0.clock);
    assert Next(env, s, LookupKey(1)).procs == Second(s0, req, Absent, map[], s0.clock + TTL).procs;
  }

  lemma {:induction false} SecondInsert(env: Env, s0: State, req: Request)
    requires Follows(env, s0, req)
    ensures var s := Second(s0, req, Absent, map[], s0.clock + TTL);
            && Enabled(env, s, InsertKey(1))
            && Next(env, s, InsertKey(1)) == Second(s0, req, Granted, SecondRecords(s0.clock, req), s0.clock + TTL)
  {
    var s := Second(s0, req, Absent, map[], s0.clock + TTL);
    assert Next(env, s, InsertKey(1)).procs == Second(s0, req, Granted, SecondRecords(s0.clock, req), s0.clock + TTL).procs;
  }

  lemma {:induction false} SecondRequestGranted(env: Env, s0: State, req: Request, who: iset<Request>, m: Manner)
    requires Reached(env, Second(s0, req, Absent, map[], s0.clock + TTL), who, m) && Follows(env, s0, req)
    ensures Reached(env, Second(s0, req, Granted, SecondRecords(s0.clock, req), s0.clock + TTL), who, m)
  {
    SecondInsert(env, s0, req);
    var s := ReachedNext(env, Second(s0, req, Absent, map[], s0.clock + TTL), who, m, InsertKey(1));
  }

  lemma {:induction false} SecondRequestLooksUp(env: Env, s0: State, req: Request, who: iset<Request>, m: Manner)
    returns (s: State)
    requires Reached(env, s0, who, m) && Follows(env, s0, req) && req in who
    requires m.OneAtATime? ==> !s0.procs[0].Active()
    ensures Reached(env, s, who, m) && 1 in s.procs && s.procs[1].req == req
    ensures var rec := s0.idem[DedupSlot(env, req.op)];
            s.procs[1].pc == if rec.processing || rec.body.None? then DedupHeld
                             else ClosingDup(Deduplicated(ExecutionOf(rec.body.value)))
    ensures s == s0.(procs := s0.procs[1 := s.procs[1]])
  {
    SecondRequestArrives(env, s0, req, who, m);
    SecondRequestGranted(env, s0, req, who, m);
    var granted := Second(s0, req, Granted, SecondRecords(s0.clock, req), s0.clock + TTL);
    s := ReachedNext(env, granted, who, m, LookupDedup(1));
    assert s.procs == s0.procs[1 := s.procs[1]];
  }

  /** A request that was let through, with nothing else going on, creates its execution at once. */
  lemma {:induction false} SecondRequestRuns(env: Env, s0: State, who: iset<Request>, m: Manner) returns (s: State)
    requires Reached(env, s0, who, m) && 1 in s0.procs && s0.procs[1].pc.DedupHeld? && !Taken(s0.execs, s0.procs[1].req.key)
    requires forall k :: k in s0.procs && k != 1 ==> !s0.procs[k].pc.RowAdded?
    requires s0.nextExec !in s0.execs
    ensures Reached(env, s, who, m) && s.clock == s0.clock
    ensures s.nextExec == s0.nextExec + 1 && s0.nextExec in s.execs && s.execs[s0.nextExec].op == s0.procs[1].req.op
    ensures forall e :: e in s0.execs ==> e in s.execs && s.execs[e] == s0.execs[e]
  {
    s := ReachedNext(env, s0, who, m, InsertExecution(1));
    s := ReachedNext(env, s, who, m, CommitExecution(1));
  }

  // ---- Replay and keys that collide -----------------------------------------------------------------------

  /** The record of a client's key holds an answer its own request did not compute. */
  predicate WrongAnswer(s: State, slot: Slot) {
    && slot in s.idem && s.idem[slot].creator in s.procs && ClientSlot(s.procs[s.idem[slot].creator].req) == slot
    && !s.idem[slot].processing && Computed(s.procs[s.idem[slot].creator].pc) != s.idem[slot].body
  }

  /** Whoever may send what. */
  ghost predicate ReplayCanFail(env: Env, user: nat, key: string) {
    exists s, who :: Reached(env, s, who, Any) && WrongAnswer(s, Slot(user, key))
  }

  /** With its own deduplication key as Idempotency-Key, a request finishes normally, but the
      stored answer is the deduplication marker. */
  lemma {:induction false} CollidingKeyStoresAMarker(env: Env, req: Request, who: iset<Request>)
    requires req in who && req.key == DedupKeyOf(env, req.op)
    ensures exists s :: Reached(env, s, who, Any) && WrongAnswer(s, ClientSlot(req)) && s.idem[ClientSlot(req)].body == Some(Marker(0))
  {
    FirstRequestFinishes(env, 0, req, who, Any);
    var s := Finished(0, req, LastRecords(env, 0, req));
    assert WrongAnswer(s, ClientSlot(req)) && s.idem[ClientSlot(req)].body == Some(Marker(0));
  }

  /** Whatever anybody sends: the answer stored for a client key is always the one its request
      computed, if and only if the key is not a deduplication key of that user. */
  lemma {:induction false} ReplayIsFaithfulExactlyWhenApart(env: Env, user: nat, key: string)
    ensures ReplayCanFail(env, user, key) <==> IsDedupKey(env, user, key)
  {
    if IsDedupKey(env, user, key) {
      var op: Op :| op.user == user && DedupKeyOf(env, op) == key;
      CollidingKeyStoresAMarker(env, Request(op, key, ""), iset{Request(op, key, "")});
    } else {
      forall s, who | Reached(env, s, who, Any) ensures !WrongAnswer(s, Slot(user, key)) {
        var tr, acts :| RunBy(env, tr, acts, who, Any) && tr[|acts|] == s;
        RunKeepsAnswers(env, tr, acts, |acts|, Slot(user, key));
      }
    }
  }

  // ---- Duplicates that mislead ----------------------------------------------------------------------------

  /** This user sends only these keys; the others send what they like. */
  ghost function UsersKeys(user: nat, keys: iset<string>): iset<Request> {
    iset req: Request | req.op.user == user ==> req.key in keys
  }

  /** The answer names an execution that was created for this operation. */
  predicate NamesOp(env: Env, s: State, b: Body, op: Op) {
    b.Deduplicated? && b.original.Some? && b.original.value in s.execs && SameOp(env, s.execs[b.original.value].op, op)
  }

  /** A request is answered `duplicate`, but not with an execution of its own operation. */
  predicate Misled(env: Env, s: State, r: nat, x: Slot) {
    && r in s.procs && DedupSlot(env, s.procs[r].req.op) == x
    && s.procs[r].pc.ClosingDup? && !NamesOp(env, s, s.procs[r].pc.body, s.procs[r].req.op)
  }

  /** Two operations of the user have this deduplication key, because their step hashes collide. */
  ghost predicate Ambiguous(env: Env, user: nat, key: string) {
    exists a, b :: DedupSlot(env, a) == Slot(user, key) && Collide(env, a, b)
  }

  ghost predicate CanMislead(env: Env, user: nat, key: string, keys: iset<string>) {
    exists s, r :: Reached(env, s, UsersKeys(user, keys), Any) && Misled(env, s, r, Slot(user, key))
  }

  /** A request whose key is its own deduplication key is never answered `duplicate`. */
  lemma {:induction false} OwnKeyNoDuplicate(env: Env, tr: seq<State>, acts: seq<Action>, i: nat, r: nat)
    requires Run(env, tr, acts) && i < |tr| && r in tr[i].procs
    requires ClientSlot(tr[i].procs[r].req) == DedupSlot(env, tr[i].procs[r].req.op)
    ensures !tr[i].procs[r].pc.ClosingDup?
  {
    if i > 0 {
      StepFrom(env, tr[i - 1], acts[i - 1], r);
      if r in tr[i - 1].procs {
        OwnKeyNoDuplicate(env, tr, acts, i - 1, r);
        RunKeepsShapes(env, tr, acts, i - 1);
        assert ProcOk(env, tr[i - 1], r) && PendingOk(env, tr[i - 1], r);
        StepOwnKey(env, tr[i - 1], acts[i - 1], r, tr[i]);
      }
    }
  }

  lemma {:induction false} ToDuplicate(env: Env, s: State, a: Action, r: nat)
    requires Enabled(env, s, a) && r in s.procs && r in Next(env, s, a).procs
    requires !s.procs[r].pc.ClosingDup? && Next(env, s, a).procs[r].pc.ClosingDup?
    ensures a == LookupDedup(r)
  {
  }

  lemma {:induction false} StepOwnKey(env: Env, s: State, a: Action, r: nat, s': State)
    requires Enabled(env, s, a) && r in s.procs && PendingOk(env, s, r) && Shapes(s) && s' == Next(env, s, a) && r in s'.procs
    requires ClientSlot(s.procs[r].req) == DedupSlot(env, s.procs[r].req.op) && !s.procs[r].pc.ClosingDup?
    ensures !s'.procs[r].pc.ClosingDup?
  {
    if s'.procs[r].pc.ClosingDup? {
      ToDuplicate(env, s, a, r);
      LookupFindsComplete(env, s, r);
    }
  }

  lemma {:induction false} MisledNeedsSharing(env: Env, tr: seq<State>, acts: seq<Action>, user: nat, key: string,
                                              keys: iset<string>, r: nat)
    requires RunBy(env, tr, acts, UsersKeys(user, keys), Any) && Misled(env, tr[|acts|], r, Slot(user, key))
    ensures IsDedupKey(env, user, key) && (key in keys || Ambiguous(env, user, key))
    ensures tr[|acts|].procs[r].req.key in keys && tr[|acts|].procs[r].req.key != key
  {
    var s, x := tr[|acts|], Slot(user, key);
    assert DedupKeyOf(env, s.procs[r].req.op) == key;
    OnlyThose(env, tr, acts, UsersKeys(user, keys), Any, |acts|, r);
    if s.procs[r].req.key == key { OwnKeyNoDuplicate(env, tr, acts, |acts|, r); }
    if key !in keys {
      assert ClientsAvoid(acts, x);
      AvoidedSlotCollides(env, tr, acts, |acts|, r, x);
    }
  }

  /** At a slot that no client uses only a collision misleads. */
  lemma {:induction false} AvoidedSlotCollides(env: Env, tr: seq<State>, acts: seq<Action>, i: nat, r: nat, x: Slot)
    requires Run(env, tr, acts) && i < |tr| && ClientsAvoid(acts, x) && Misled(env, tr[i], r, x)
    ensures Ambiguous(env, x.user, x.key)
  {
    var b, op := tr[i].procs[r].pc.body, tr[i].procs[r].req.op;
    RunKeepsNames(env, tr, acts, i, x);
    assert ProcNames(env, tr[i], r, x) && NamedBody(env, tr[i], x, b);
    var other := tr[i].execs[b.original.value].op;
    SameSlotSameOp(env, other, op);
    assert DedupSlot(env, other) == Slot(x.user, x.key) && Collide(env, other, op);
  }

  /** An operation of the same user in another slot, whose deduplication key is not k. */
  lemma {:induction false} AnotherOperation(env: Env, op: Op, k: string) returns (other: Op)
    ensures other.user == op.user && DedupKeyOf(env, other) != DedupKeyOf(env, op) && DedupKeyOf(env, other) != k
  {
    var h := if env.includeSteps then env.hashSteps(op.steps) else "";
    var a, b := op.(dataset := op.dataset + 1), op.(dataset := op.dataset + 2);
    if DedupKeyOf(env, a) == DedupKeyOf(env, op) {
      Keys.DedupKeyInjective(a.user, a.pipeline, a.dataset, h, op.user, op.pipeline, op.dataset, h);
    }
    if DedupKeyOf(env, b) == DedupKeyOf(env, op) {
      Keys.DedupKeyInjective(b.user, b.pipeline, b.dataset, h, op.user, op.pipeline, op.dataset, h);
    }
    if DedupKeyOf(env, a) == DedupKeyOf(env, b) {
      Keys.DedupKeyInjective(a.user, a.pipeline, a.dataset, h, b.user, b.pipeline, b.dataset, h);
    }
    other := if DedupKeyOf(env, a) == k then b else a;
  }

  /** A request for another operation is sent under op's deduplication key and finishes; a request
      for op under a third key is then told that the other execution is its own. */
  lemma {:induction false} BorrowedKeyMisleads(env: Env, op: Op, other: Op, k: string, who: iset<Request>) returns (s: State)
    requires other.user == op.user && DedupKeyOf(env, other) != DedupKeyOf(env, op) && DedupKeyOf(env, other) != k
    requires k != DedupKeyOf(env, op)
    requires Request(other, DedupKeyOf(env, op), "") in who && Request(op, k, "") in who
    ensures Reached(env, s, who, Any) && Misled(env, s, 1, DedupSlot(env, op))
    ensures s.procs[1].pc == ClosingDup(Deduplicated(Some(0))) && 0 in s.execs && s.execs[0].op == other
  {
    var first, second := Request(other, DedupKeyOf(env, op), ""), Request(op, k, "");
    FirstRequestFinishes(env, 0, first, who, Any);
    var s0 := Finished(0, first, LastRecords(env, 0, first));
    assert ClientSlot(first) == DedupSlot(env, op) && Follows(env, s0, second);
    s := SecondRequestLooksUp(env, s0, second, who, Any);
    SameSlotSameOp(env, other, op);
  }

  /** The same happens without any borrowed key to operations whose step hashes collide, under two
      keys, and even under one and the same key, once that has expired and the record of the
      operation has not. */
  lemma {:induction false} CollidingStepsMislead(env: Env, op: Op, other: Op, k1: string, k2: string, who: iset<Request>)
    returns (s: State)
    requires Collide(env, other, op) && k1 != DedupKeyOf(env, op) && k2 != DedupKeyOf(env, op)
    requires Request(other, k1, "") in who && Request(op, k2, "") in who
    ensures Reached(env, s, who, Any) && Misled(env, s, 1, DedupSlot(env, op))
    ensures s.procs[1].pc == ClosingDup(Deduplicated(Some(0))) && 0 in s.execs && s.execs[0].op == other
  {
    var first, second := Request(other, k1, ""), Request(op, k2, "");
    var dedup := DedupSlot(env, op);
    assert DedupSlot(env, other) == dedup;
    FirstKeyExpires(env, first, who, Any);
    var s0 := Finished(TTL, first, map[dedup := LastRecords(env, 1, first)[dedup]]);
    assert Follows(env, s0, second);
    s := SecondRequestLooksUp(env, s0, second, who, Any);
  }

  /** A duplicate for an operation with a given deduplication key can name an execution of another
      operation if and only if clients of that user may use another key than this one, and either
      this very key as well, or the step hashes of two operations with this key collide. */
  lemma {:induction false} DuplicatesMisleadExactlyWhenShared(env: Env, user: nat, key: string, keys: iset<string>)
    ensures CanMislead(env, user, key, keys) <==>
            IsDedupKey(env, user, key) && (exists k :: k in keys && k != key) && (key in keys || Ambiguous(env, user, key))
  {
    if CanMislead(env, user, key, keys) {
      var s, r :| Reached(env, s, UsersKeys(user, keys), Any) && Misled(env, s, r, Slot(user, key));
      var tr, acts :| RunBy(env, tr, acts, UsersKeys(user, keys), Any) && tr[|acts|] == s;
      MisledNeedsSharing(env, tr, acts, user, key, keys, r);
    }
    if IsDedupKey(env, user, key) && (exists k :: k in keys && k != key) && (key in keys || Ambiguous(env, user, key)) {
      var k :| k in keys && k != key;
      if key in keys {
        var op: Op :| op.user == user && DedupKeyOf(env, op) == key;
        var other := AnotherOperation(env, op, k);
        var s := BorrowedKeyMisleads(env, op, other, k, UsersKeys(user, keys));
      } else {
        var a, b :| DedupSlot(env, a) == Slot(user, key) && Collide(env, a, b);
        var s := CollidingStepsMislead(env, b, a, k, k, UsersKeys(user, keys));
      }
    }
  }

  // ---- One operation, two executions ------------------------------------------------------------------------

  predicate RanTwice(s: State, op: Op) {
    exists e1, e2 :: e1 in s.execs && e2 in s.execs && e1 != e2 && s.execs[e1].op == op && s.execs[e2].op == op
  }

  /** Before any time has passed, and so before any record has expired. */
  ghost predicate CanRunTwiceAtOnce(env: Env, who: iset<Request>, m: Manner, op: Op) {
    exists s :: Reached(env, s, who, m) && s.clock == INITIAL.clock && RanTwice(s, op)
  }

  lemma {:induction false} FirstCommitsOrDies(env: Env, req: Request, who: iset<Request>, m: Manner) returns (s: State)
    requires req in who
    ensures Reached(env, s, who, m)
    ensures s == AfterFirst(env, 0, req, if m.OneAtATime? then Aborted else Persisted(0, 0), map[])
  {
    FirstRequestCommits(env, 0, req, who, m);
    s := AfterFirst(env, 0, req, Persisted(0, 0), map[]);
    if m.OneAtATime? {
      s := ReachedNext(env, s, who, m, Abort(0));
      assert s == AfterFirst(env, 0, req, Aborted, map[]);
    }
  }

  /** Request `first` commits its execution and dies if the manner asks for it; `second` finds a
      record still being processed and creates another one. All of this happens at time 0. */
  lemma {:induction false} SecondKeyRunsAgain(env: Env, first: Request, second: Request, who: iset<Request>, m: Manner)
    requires first in who && second in who && first.op == second.op && first.key != second.key
    requires second.key != DedupKeyOf(env, second.op)
    ensures CanRunTwiceAtOnce(env, who, m, first.op)
  {
    var s := FirstCommitsOrDies(env, first, who, m);
    assert Follows(env, s, second);
    s := SecondRequestLooksUp(env, s, second, who, m);
    assert s.execs == FirstExecs(first) && s.nextExec == 1;
    s := SecondRequestRuns(env, s, who, m);
    assert 0 in s.execs && 1 in s.execs && RanTwice(s, first.op);
  }

  lemma {:induction false} OneKeyRunsOnce(env: Env, tr: seq<State>, acts: seq<Action>, who: iset<Request>, m: Manner, op: Op)
    requires RunBy(env, tr, acts, who, m) && forall a, b :: a in who && b in who ==> a.key == b.key
    ensures !RanTwice(tr[|acts|], op)
  {
    var s := tr[|acts|];
    RunKeepsInv(env, tr, acts, |acts|);
    forall e1, e2 | e1 in s.execs && e2 in s.execs ensures e1 == e2 {
      assert ExecOk(s, e1) && ExecOk(s, e2) && SameKeySameExecution(s, e1, e2);
      OnlyThose(env, tr, acts, who, m, |acts|, s.execs[e1].creator);
      OnlyThose(env, tr, acts, who, m, |acts|, s.execs[e2].creator);
    }
  }

  /** An operation that is sent by two requests can be executed twice without any time passing,
      and so within one lifetime of its record, if and only if they carry different keys: with
      requests that overlap and are not interrupted, and also with requests of which one arrives
      after the other has ended, because a request that dies after its first commit leaves a record
      that stops nobody. Under one key it is not executed twice, however much time passes. */
  lemma {:induction false} RunsTwiceExactlyUnderTwoKeys(env: Env, op: Op, key1: string, hash1: string, key2: string, hash2: string,
                                                        m: Manner)
    ensures var who := iset{Request(op, key1, hash1), Request(op, key2, hash2)};
            CanRunTwiceAtOnce(env, who, m, op) <==> key1 != key2
    ensures var who := iset{Request(op, key1, hash1), Request(op, key2, hash2)};
            key1 == key2 ==> forall s :: Reached(env, s, who, m) ==> !RanTwice(s, op)
  {
    var a, b := Request(op, key1, hash1), Request(op, key2, hash2);
    var who := iset{a, b};
    if key1 == key2 {
      forall s | Reached(env, s, who, m) ensures !RanTwice(s, op) {
        var tr, acts :| RunBy(env, tr, acts, who, m) && tr[|acts|] == s;
        OneKeyRunsOnce(env, tr, acts, who, m, op);
      }
    } else if key2 != DedupKeyOf(env, op) {
      SecondKeyRunsAgain(env, a, b, who, m);
    } else {
      SecondKeyRunsAgain(env, b, a, who, m);
    }
  }
}
