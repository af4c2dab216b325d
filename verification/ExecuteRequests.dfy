/** The request side of exactly-once execution as a state machine: concurrent calls of the
    `execute` route, each a transaction with three commit points that can be rolled back at
    any of them, over the table of idempotency keys and the table of executions, with the
    clock and the sweeper that purges expired keys.

    Mutual exclusion rests on the UNIQUE constraints alone: an uncommitted insert blocks a
    second insert of the same key until it is committed (then the second one fails) or rolled
    back. The advisory locks are not modelled, because their ids differ between processes. */
module ExecuteRequests {
  import opened Options
  import opened Tables
  import Keys

  // ---- Data ------------------------------------------------------------------------------

  /** The unique key of the table of idempotency keys. Client keys and deduplication keys
      live in the same table. */
  datatype Slot = Slot(user: nat, key: string)

  /** One logical execution: who runs which steps of which pipeline on which data. */
  datatype Op = Op(user: nat, pipeline: nat, dataset: nat, steps: seq<Step>)

  datatype Request = Request(op: Op, key: string, bodyHash: string)

  /** The stored JSON bodies: the route's two answers and the deduplication marker. */
  datatype Body = Created(execution: nat, job: nat) | Deduplicated(original: Option<nat>) | Marker(execution: nat)

  /** `creator` is the request that inserted the record and `since` the time it did. */
  datatype Record = Record(hash: string, processing: bool, body: Option<Body>, expires: int,
                           since: int, creator: nat)

  datatype Execution = Execution(key: string, op: Op, job: nat, creator: nat)

  /** `Unheard` is an answer that is stored although the client is sent an error, because
      something failed after the last commit. */
  datatype Response = BodyConflict | Busy | Replay(body: Option<Body>) | Accepted(answer: Body) | Unheard(answer: Body)

  datatype Pc =
    | Arrived
    | Absent                            // no live record was found for the client's key
    | Granted                           // its record is inserted: "proceed"
    | DedupAbsent(now: int)             // no live deduplication record was found
    | DedupHeld                         // "proceed" from the deduplication layer
    | RowAdded(e: nat, j: nat)
    | Persisted(e: nat, j: nat)         // first commit
    | Sent(e: nat, j: nat)              // the task is dispatched
    | Linked(e: nat, j: nat)            // second commit
    | ClosingKey(e: nat, j: nat)
    | Closing(e: nat, j: nat)
    | ClosingDup(body: Body)            // answered by an earlier execution
    | Answered(response: Response)
    | Aborted

  /** A request in progress: `pending` holds the records its open transaction has written,
      `deadline` the expiry of its key. */
  datatype Process = Process(req: Request, pc: Pc, pending: map<Slot, Record>, deadline: int)
  {
    predicate Active() { !pc.Answered? && !pc.Aborted? }

    /** The request holds an uncommitted insert of its key. */
    predicate Inserting() {
      pc.Granted? || pc.DedupAbsent? || pc.DedupHeld? || pc.RowAdded? || pc.ClosingDup?
    }

    /** The request's key and execution are committed and it is not done. */
    predicate Owning() {
      pc.Persisted? || pc.Sent? || pc.Linked? || pc.ClosingKey? || pc.Closing?
    }
  }

  /** A committed "proceed": the time it was given and the time its key expires. */
  datatype Grant = Grant(slot: Slot, since: int, until: int)

  datatype State = State(clock: int, idem: map<Slot, Record>, execs: map<nat, Execution>,
                         procs: map<nat, Process>, nextExec: nat, nextJob: nat, grants: map<nat, Grant>)

  const INITIAL := State(0, map[], map[], map[], 0, 0, map[])

  const TTL := 86400

  /** How steps are hashed, and whether the hash is part of the deduplication key. */
  datatype Env = Env(hashSteps: seq<Step> -> string, includeSteps: bool)

  function ClientSlot(req: Request): Slot { Slot(req.op.user, req.key) }

  function DedupKeyOf(env: Env, op: Op): string {
    Keys.DedupKey(op.user, op.pipeline, op.dataset, if env.includeSteps then env.hashSteps(op.steps) else "")
  }

  function DedupSlot(env: Env, op: Op): Slot { Slot(op.user, DedupKeyOf(env, op)) }

  datatype Action =
    | Arrive(r: nat, req: Request)
    | LookupKey(r: nat)
    | InsertKey(r: nat)
    | LookupDedup(r: nat)
    | InsertDedup(r: nat)
    | InsertExecution(r: nat)
    | CommitExecution(r: nat)
    | Send(r: nat)
    | CommitLinks(r: nat)
    | CompleteKey(r: nat)
    | CompleteDedup(r: nat)
    | CommitAnswer(r: nat, heard: bool)
    | Abort(r: nat)
    | Tick(t: int)
    | Purge

  // ---- Steps -----------------------------------------------------------------------------

  /** Another open transaction has written this record: a write to it has to wait. */
  predicate LockedByOther(s: State, r: nat, slot: Slot) {
    exists k :: k in s.procs && k != r && slot in s.procs[k].pending
  }

  predicate Locked(s: State, slot: Slot) {
    exists k :: k in s.procs && slot in s.procs[k].pending
  }

  predicate Taken(execs: map<nat, Execution>, key: string) {
    exists e :: e in execs && execs[e].key == key
  }

  predicate KeyBeingTaken(s: State, r: nat, key: string) {
    exists k :: k in s.procs && k != r && s.procs[k].pc.RowAdded? && s.procs[k].req.key == key
  }

  function Put(s: State, r: nat, p: Process): State {
    s.(procs := s.procs[r := p])
  }

  predicate Live(m: map<Slot, Record>, slot: Slot, now: int) {
    slot in m && m[slot].expires > now
  }

  predicate Enabled(env: Env, s: State, a: Action) {
    match a
    case Arrive(r, req) => r !in s.procs
    case LookupKey(r) => r in s.procs && s.procs[r].pc.Arrived?
    case InsertKey(r) =>
      r in s.procs && s.procs[r].pc.Absent? && !LockedByOther(s, r, ClientSlot(s.procs[r].req))
    case LookupDedup(r) => r in s.procs && s.procs[r].pc.Granted?
    case InsertDedup(r) =>
      r in s.procs && s.procs[r].pc.DedupAbsent? && !LockedByOther(s, r, DedupSlot(env, s.procs[r].req.op))
    case InsertExecution(r) =>
      r in s.procs && s.procs[r].pc.DedupHeld? && !KeyBeingTaken(s, r, s.procs[r].req.key)
    case CommitExecution(r) => r in s.procs && s.procs[r].pc.RowAdded?
    case Send(r) => r in s.procs && s.procs[r].pc.Persisted?
    case CommitLinks(r) => r in s.procs && s.procs[r].pc.Sent?
    case CompleteKey(r) =>
      r in s.procs && s.procs[r].pc.Linked? && !LockedByOther(s, r, ClientSlot(s.procs[r].req))
    case CompleteDedup(r) =>
      r in s.procs && s.procs[r].pc.ClosingKey? && !LockedByOther(s, r, DedupSlot(env, s.procs[r].req.op))
    case CommitAnswer(r, _) => r in s.procs && (s.procs[r].pc.Closing? || s.procs[r].pc.ClosingDup?)
    case Abort(r) => r in s.procs && s.procs[r].Active()
    // requests are taken to be shorter than the TTL of their key
    case Tick(t) =>
      s.clock <= t && forall r :: r in s.procs && s.procs[r].Active() && !s.procs[r].pc.Arrived? ==> t < s.procs[r].deadline
    case Purge => true
  }

  function Next(env: Env, s: State, a: Action): State
    requires Enabled(env, s, a)
  {
    match a
    case Arrive(r, req) => Put(s, r, Process(req, Arrived, map[], s.clock))
    case LookupKey(r) => Put(s, r, AfterLookupKey(s, s.procs[r]))
    case InsertKey(r) => Put(s, r, AfterInsertKey(s, r, s.procs[r]))
    case LookupDedup(r) => Put(s, r, AfterLookupDedup(env, s, r, s.procs[r]))
    case InsertDedup(r) => Put(s, r, AfterInsertDedup(env, s, r, s.procs[r]))
    case InsertExecution(r) => AfterInsertExecution(s, r)
    case CommitExecution(r) => AfterCommitExecution(s, r)
    case Send(r) =>
      var p := s.procs[r];
      Put(s, r, p.(pc := Sent(p.pc.e, p.pc.j)))
    case CommitLinks(r) =>
      var p := s.procs[r];
      Put(s, r, p.(pc := Linked(p.pc.e, p.pc.j)))
    case CompleteKey(r) => Put(s, r, AfterCompleteKey(s, r, s.procs[r]))
    case CompleteDedup(r) => Put(s, r, AfterCompleteDedup(env, s, r, s.procs[r]))
    case CommitAnswer(r, heard) => AfterCommitAnswer(s, r, heard)
    case Abort(r) => Put(s, r, s.procs[r].(pc := Aborted, pending := map[]))
    case Tick(t) => s.(clock := t)
    case Purge => s.(idem := map slot | slot in s.idem && (s.idem[slot].expires > s.clock || Locked(s, slot)) :: s.idem[slot])
  }

  function AfterLookupKey(s: State, p: Process): Process {
    var slot := ClientSlot(p.req);
    if Live(s.idem, slot, s.clock) then
      var rec := s.idem[slot];
      p.(pc := Answered(if rec.hash != p.req.bodyHash then BodyConflict
                        else if rec.processing then Busy
                        else Replay(rec.body)))
    else p.(pc := Absent, deadline := s.clock + TTL)
  }

  /** A committed record of the same key, live or not, violates the UNIQUE constraint. */
  function AfterInsertKey(s: State, r: nat, p: Process): Process {
    var slot := ClientSlot(p.req);
    if slot in s.idem then p.(pc := Aborted)
    else p.(pc := Granted, pending := map[slot := Record(p.req.bodyHash, true, None, p.deadline, s.clock, r)])
  }

  function ExecutionOf(b: Body): Option<nat> {
    match b
    case Created(e, _) => Some(e)
    case Deduplicated(o) => o
    case Marker(e) => Some(e)
  }

  function AfterLookupDedup(env: Env, s: State, r: nat, p: Process): Process
    requires r in s.procs
  {
    var view := s.idem + p.pending;
    var dedup, slot := DedupSlot(env, p.req.op), ClientSlot(p.req);
    if !Live(view, dedup, s.clock) then p.(pc := DedupAbsent(s.clock))
    else if view[dedup].processing || view[dedup].body.None? then p.(pc := DedupHeld)
    else
      var body := Deduplicated(ExecutionOf(view[dedup].body.value));
      if slot in view then
        p.(pc := ClosingDup(body), pending := p.pending[slot := view[slot].(processing := false, body := Some(body))])
      else p.(pc := ClosingDup(body))
  }

  function AfterInsertDedup(env: Env, s: State, r: nat, p: Process): Process
    requires p.pc.DedupAbsent?
  {
    var dedup := DedupSlot(env, p.req.op);
    if dedup in s.idem || dedup in p.pending then p.(pc := Aborted, pending := map[])
    else p.(pc := DedupHeld, pending := p.pending[dedup := Record(dedup.key, true, None, p.pc.now + TTL, s.clock, r)])
  }

  function AfterInsertExecution(s: State, r: nat): State
    requires r in s.procs
  {
    var p := s.procs[r];
    var s' := s.(nextExec := s.nextExec + 1, nextJob := s.nextJob + 1);
    if Taken(s.execs, p.req.key) then Put(s', r, p.(pc := Aborted, pending := map[]))
    else Put(s', r, p.(pc := RowAdded(s.nextExec, s.nextJob)))
  }

  /** The transaction's writes become visible, and with them its "proceed". */
  function Publish(s: State, r: nat, pc: Pc): State
    requires r in s.procs
  {
    var p := s.procs[r];
    var slot := ClientSlot(p.req);
    Put(s.(idem := s.idem + p.pending,
           grants := if p.Inserting() && slot in p.pending
                     then s.grants[r := Grant(slot, p.pending[slot].since, p.deadline)] else s.grants),
        r, p.(pc := pc, pending := map[]))
  }

  function AfterCommitExecution(s: State, r: nat): State
    requires r in s.procs && s.procs[r].pc.RowAdded?
  {
    var p := s.procs[r];
    Publish(s.(execs := s.execs[p.pc.e := Execution(p.req.key, p.req.op, p.pc.j, r)]), r, Persisted(p.pc.e, p.pc.j))
  }

  function AfterCompleteKey(s: State, r: nat, p: Process): Process
    requires p.pc.Linked?
  {
    var slot := ClientSlot(p.req);
    if slot in s.idem then
      p.(pc := ClosingKey(p.pc.e, p.pc.j),
         pending := map[slot := s.idem[slot].(processing := false, body := Some(Created(p.pc.e, p.pc.j)))])
    else p.(pc := ClosingKey(p.pc.e, p.pc.j))
  }

  function AfterCompleteDedup(env: Env, s: State, r: nat, p: Process): Process
    requires p.pc.ClosingKey?
  {
    var view := s.idem + p.pending;
    var dedup := DedupSlot(env, p.req.op);
    if dedup in view then
      p.(pc := Closing(p.pc.e, p.pc.j),
         pending := p.pending[dedup := view[dedup].(processing := false, body := Some(Marker(p.pc.e)))])
    else p.(pc := Closing(p.pc.e, p.pc.j))
  }

  function AfterCommitAnswer(s: State, r: nat, heard: bool): State
    requires r in s.procs && (s.procs[r].pc.Closing? || s.procs[r].pc.ClosingDup?)
  {
    var pc := s.procs[r].pc;
    var answer := if pc.Closing? then Created(pc.e, pc.j) else pc.body;
    Publish(s, r, Answered(if heard then Accepted(answer) else Unheard(answer)))
  }

  /** The answer a finished request has computed, whether or not the client heard it. */
  function Computed(pc: Pc): Option<Body> {
    if pc.Answered? && (pc.response.Accepted? || pc.response.Unheard?) then Some(pc.response.answer) else None
  }

  /** A run from the empty tables: `tr` holds its states and `acts` its steps. */
  ghost predicate Run(env: Env, tr: seq<State>, acts: seq<Action>) {
    && |tr| == |acts| + 1 && tr[0] == INITIAL
    && forall i :: 0 <= i < |acts| ==> Enabled(env, tr[i], acts[i]) && tr[i + 1] == Next(env, tr[i], acts[i])
  }
}
