/** The code of the `execute` route and of the idempotency service, run without interference:
    the tables are updated in place, writes wait in the session until a commit, and an
    exception can strike before each commit point. The route is proved equal to `RouteEffect`,
    and `RouteEffect` to be a path of the state machine of ExecuteRequests. */
module ExecuteRoute {
  import opened Options
  import opened ExecuteRequests
  import opened Paths

  /** Where an exception interrupts the route. */
  datatype Fault = NoFault | BeforeFirstCommit | BeforeDispatch | BeforeSecondCommit | BeforeThirdCommit | AfterThirdCommit

  datatype Reply = Reply(response: Response) | Failure

  datatype Tables = Tables(idem: map<Slot, Record>, execs: map<nat, Execution>, nextExec: nat, nextJob: nat)

  datatype Effect = Effect(tables: Tables, reply: Reply)

  function NewRecord(req: Request, now: int, r: nat): Record {
    Record(req.bodyHash, true, None, now + TTL, now, r)
  }

  /** Complete a record of the session's view, if it has it. */
  function Completed(view: map<Slot, Record>, slot: Slot, body: Body): map<Slot, Record> {
    if slot in view then view[slot := view[slot].(processing := false, body := Some(body))] else view
  }

  /** What one undisturbed request leaves behind. */
  function RouteEffect(env: Env, t: Tables, req: Request, r: nat, now: int, fault: Fault): Effect {
    var slot := ClientSlot(req);
    if Live(t.idem, slot, now) then
      var rec := t.idem[slot];
      Effect(t, Reply(if rec.hash != req.bodyHash then BodyConflict else if rec.processing then Busy else Replay(rec.body)))
    else if slot in t.idem then Effect(t, Failure)
    else Proceeding(env, t, req, r, now, fault, t.idem[slot := NewRecord(req, now, r)])
  }

  /** The same, from the point where the key is inserted: `view` is what the session sees. */
  function Proceeding(env: Env, t: Tables, req: Request, r: nat, now: int, fault: Fault, view: map<Slot, Record>): Effect {
    var slot, dedup := ClientSlot(req), DedupSlot(env, req.op);
    if Live(view, dedup, now) && !view[dedup].processing && view[dedup].body.Some? then
      var body := Deduplicated(ExecutionOf(view[dedup].body.value));
      if fault.BeforeFirstCommit? then Effect(t, Failure)
      else Effect(t.(idem := Completed(view, slot, body)), Reply(Accepted(body)))
    else if !Live(view, dedup, now) && dedup in view then Effect(t, Failure)
    else if fault.BeforeFirstCommit? then Effect(t, Failure)
    else
      Creating(env, t.(nextExec := t.nextExec + 1, nextJob := t.nextJob + 1), req, r, fault, t.nextExec, t.nextJob,
               if Live(view, dedup, now) then view else view[dedup := Record(dedup.key, true, None, now + TTL, now, r)])
  }

  /** ... and from the insert of the execution; its ids stay used whatever happens. */
  function Creating(env: Env, t: Tables, req: Request, r: nat, fault: Fault, e: nat, j: nat, view: map<Slot, Record>): Effect {
    if Taken(t.execs, req.key) then Effect(t, Failure)
    else
      var t' := t.(idem := view, execs := t.execs[e := Execution(req.key, req.op, j, r)]);
      if !Finishing(fault) then Effect(t', Failure)
      else
        var answer := Created(e, j);
        Effect(t'.(idem := Completed(Completed(view, ClientSlot(req), answer), DedupSlot(env, req.op), Marker(e))),
               if fault.NoFault? then Reply(Accepted(answer)) else Failure)
  }

  /** The third commit is reached: the audit entry and the session's last commit come after it. */
  predicate Finishing(fault: Fault) { fault.NoFault? || fault.AfterThirdCommit? }

  datatype KeyResult = Proceed | KeyReplay(body: Option<Body>) | KeyConflict | KeyBusy | KeyViolation

  datatype DedupResult = DedupProceed | Duplicate(original: Option<nat>) | DedupViolation

  class Session {
    var idem: map<Slot, Record>       // committed
    var view: map<Slot, Record>       // as this session sees it
    var execs: map<nat, Execution>
    var viewExecs: map<nat, Execution>
    var nextExec: nat
    var nextJob: nat
    var sent: seq<nat>                // the executions dispatched to the broker

    ghost function Contents(): Tables
      reads this
    {
      Tables(idem, execs, nextExec, nextJob)
    }

    method Commit()
      modifies this
      ensures Contents() == old(Contents()).(idem := old(view), execs := old(viewExecs))
      ensures view == old(view) && viewExecs == old(viewExecs) && sent == old(sent)
    {
      idem, execs := view, viewExecs;
    }

    method Rollback()
      modifies this
      ensures Contents() == old(Contents()) && view == idem && viewExecs == execs && sent == old(sent)
    {
      view, viewExecs := idem, execs;
    }

    method GetOrCreateIdempotencyKey(req: Request, r: nat, now: int) returns (result: KeyResult)
      modifies this`view
      ensures var slot := ClientSlot(req);
              if Live(old(view), slot, now) then
                view == old(view) &&
                result == (var rec := old(view)[slot];
                           if rec.hash != req.bodyHash then KeyConflict
                           else if rec.processing then KeyBusy else KeyReplay(rec.body))
              else if slot in old(view) then view == old(view) && result == KeyViolation
              else view == old(view)[slot := NewRecord(req, now, r)] && result == Proceed
    {
      var slot := ClientSlot(req);
      if slot in view && view[slot].expires > now {
        var existing := view[slot];
        if existing.hash != req.bodyHash { return KeyConflict; }
        if existing.processing { return KeyBusy; }
        return KeyReplay(existing.body);
      }
      if slot in view { return KeyViolation; }
      view := view[slot := Record(req.bodyHash, true, None, now + TTL, now, r)];
      result := Proceed;
    }

    method CompleteIdempotencyKey(slot: Slot, body: Body)
      modifies this`view
      ensures view == Completed(old(view), slot, body)
    {
      if slot in view {
        view := view[slot := view[slot].(processing := false, body := Some(body))];
      }
    }

    method FailIdempotencyKey(slot: Slot)
      modifies this`view
      ensures view == if slot in old(view) then old(view)[slot := old(view)[slot].(processing := false)] else old(view)
    {
      if slot in view { view := view[slot := view[slot].(processing := false)]; }
    }

    method CleanupExpiredKeys(now: int) returns (count: nat)
      modifies this`view
      ensures view == map x | x in old(view) && old(view)[x].expires > now :: old(view)[x]
      ensures count == |set x | x in old(view) && old(view)[x].expires <= now|
    {
      var expired := set x | x in view && view[x].expires <= now;
      view := view - expired;
      count := |expired|;
    }

    method ClaimExecutionDedup(env: Env, op: Op, r: nat, now: int) returns (result: DedupResult)
      modifies this`view
      ensures var dedup := DedupSlot(env, op);
              if Live(old(view), dedup, now) then
                view == old(view) &&
                result == (var rec := old(view)[dedup];
                           if !rec.processing && rec.body.Some? then Duplicate(ExecutionOf(rec.body.value)) else DedupProceed)
              else if dedup in old(view) then view == old(view) && result == DedupViolation
              else view == old(view)[dedup := Record(dedup.key, true, None, now + TTL, now, r)] && result == DedupProceed
    {
      var dedup := DedupSlot(env, op);
      var existing := if dedup in view && view[dedup].expires > now then Some(view[dedup]) else None;
      if existing.Some? && !existing.value.processing && existing.value.body.Some? {
        return Duplicate(ExecutionOf(existing.value.body.value));
      }
      if existing.None? {
        if dedup in view { return DedupViolation; }
        view := view[dedup := Record(dedup.key, true, None, now + TTL, now, r)];
      }
      result := DedupProceed;
    }

    /** POST /pipelines/{pid}/execute: the exception handler marks the key as failed, and the
        session then rolls back everything since the last commit, that mark included. */
    method Execute(env: Env, req: Request, r: nat, now: int, fault: Fault) returns (reply: Reply)
      requires view == idem && viewExecs == execs
      modifies this
      ensures Effect(Contents(), reply) == RouteEffect(env, old(Contents()), req, r, now, fault)
      ensures view == idem && viewExecs == execs
      ensures sent == if Creates(env, old(Contents()), req, now) && !fault.BeforeFirstCommit? && !fault.BeforeDispatch?
                      then old(sent) + [old(nextExec)] else old(sent)
    {
      var key := GetOrCreateIdempotencyKey(req, r, now);
      match key
      case KeyConflict => reply := Reply(BodyConflict);
      case KeyBusy => reply := Reply(Busy);
      case KeyReplay(body) => reply := Reply(Replay(body));
      case KeyViolation => reply := Failure;
      case Proceed => reply := ExecuteGranted(env, req, r, now, fault);
    }

    method ExecuteGranted(env: Env, req: Request, r: nat, now: int, fault: Fault) returns (reply: Reply)
      requires viewExecs == execs && ClientSlot(req) in view
      modifies this
      ensures Effect(Contents(), reply) == Proceeding(env, old(Contents()), req, r, now, fault, old(view))
      ensures view == idem && viewExecs == execs
      ensures var dedup := DedupSlot(env, req.op);
              sent == if (dedup in old(view) ==> now < old(view)[dedup].expires && !Completes(old(view)[dedup]))
                         && !Taken(old(execs), req.key) && !fault.BeforeFirstCommit? && !fault.BeforeDispatch?
                      then old(sent) + [old(nextExec)] else old(sent)
    {
      var slot := ClientSlot(req);
      var dedup := ClaimExecutionDedup(env, req.op, r, now);
      if dedup.DedupViolation? || fault.BeforeFirstCommit? {
        reply := Except(slot);
        return;
      }
      if dedup.Duplicate? {
        var body := Deduplicated(dedup.original);
        CompleteIdempotencyKey(slot, body);
        Commit();
        return Reply(Accepted(body));
      }
      reply := CreateExecution(env, req, r, fault);
    }

    method CreateExecution(env: Env, req: Request, r: nat, fault: Fault) returns (reply: Reply)
      requires viewExecs == execs
      modifies this
      ensures Effect(Contents(), reply) ==
              Creating(env, old(Contents()).(nextExec := old(nextExec) + 1, nextJob := old(nextJob) + 1), req, r, fault,
                       old(nextExec), old(nextJob), old(view))
      ensures view == idem && viewExecs == execs
      ensures sent == if !Taken(old(execs), req.key) && !fault.BeforeDispatch? then old(sent) + [old(nextExec)] else old(sent)
    {
      var slot := ClientSlot(req);
      var e, j := nextExec, nextJob;
      nextExec, nextJob := nextExec + 1, nextJob + 1;
      if Taken(execs, req.key) { reply := Except(slot); return; }
      viewExecs := viewExecs[e := Execution(req.key, req.op, j, r)];
      Commit();
      if fault.BeforeDispatch? { reply := Except(slot); return; }
      sent := sent + [e];
      if fault.BeforeSecondCommit? { reply := Except(slot); return; }
      Commit();
      var result := Created(e, j);
      if fault.BeforeThirdCommit? || fault.BeforeFirstCommit? { reply := Except(slot); return; }
      CompleteIdempotencyKey(slot, result);
      CompleteIdempotencyKey(DedupSlot(env, req.op), Marker(e));
      Commit();
      if fault.AfterThirdCommit? { reply := Except(slot); return; }
      reply := Reply(Accepted(result));
    }

    /** The handler of any exception, and the rollback of the session that follows it. */
    method Except(slot: Slot) returns (reply: Reply)
      modifies this
      ensures Contents() == old(Contents()) && view == idem && viewExecs == execs && sent == old(sent)
      ensures reply == Failure
    {
      FailIdempotencyKey(slot);
      Rollback();
      reply := Failure;
    }
  }

  // ---- The code is a path of the state machine ---------------------------------------------------------

  /** The steps of the machine. */
  function Steps(env: Env): (State, Action) -> Option<State> {
    (s: State, a: Action) => if Enabled(env, s, a) then Some(Next(env, s, a)) else None
  }

  /** One more step on a path. */
  lemma {:induction false} Then(env: Env, s: State, acts: seq<Action>, s': State, a: Action) returns (path: seq<Action>)
    requires Leads(Steps(env), s, acts, s') && Enabled(env, s', a)
    ensures Leads(Steps(env), s, path, Next(env, s', a)) && path == acts + [a]
  {
    LeadsOneMore(Steps(env), s, acts, s', a);
    path := acts + [a];
  }

  function TablesOf(s: State): Tables {
    Tables(s.idem, s.execs, s.nextExec, s.nextJob)
  }

  /** Nobody else has an open transaction. */
  ghost predicate Undisturbed(s: State, r: nat) {
    forall k :: k in s.procs && k != r ==> s.procs[k].pending == map[] && !s.procs[k].pc.RowAdded?
  }

  ghost predicate Ends(s: State, r: nat, eff: Effect) {
    && TablesOf(s) == eff.tables && r in s.procs
    && match eff.reply
       case Reply(response) => s.procs[r].pc == Answered(response)
       case Failure => s.procs[r].pc.Aborted? || (s.procs[r].pc.Answered? && s.procs[r].pc.response.Unheard?)
  }

  /** Request r has the session's view `view` and stands at `pc`. */
  ghost predicate Stands(s: State, r: nat, req: Request, pc: Pc, view: map<Slot, Record>) {
    && Undisturbed(s, r) && r in s.procs && s.procs[r].req == req && s.procs[r].pc == pc
    && s.idem + s.procs[r].pending == view && s.procs[r].deadline == s.clock + TTL
  }

  lemma {:induction false} AbortPath(env: Env, s0: State, acts: seq<Action>, s: State, r: nat) returns (path: seq<Action>, s': State)
    requires Leads(Steps(env), s0, acts, s) && Enabled(env, s, Abort(r))
    ensures Leads(Steps(env), s0, path, s') && Ends(s', r, Effect(TablesOf(s), Failure))
  {
    path := Then(env, s0, acts, s, Abort(r));
    s' := Next(env, s, Abort(r));
  }

  /** From the second commit to the answer. */
  lemma {:induction false} FinishPath(env: Env, s0: State, acts: seq<Action>, s: State, r: nat, req: Request, e: nat, j: nat,
                                      heard: bool)
    returns (path: seq<Action>, s': State)
    requires Leads(Steps(env), s0, acts, s) && Stands(s, r, req, Linked(e, j), s.idem) && s.procs[r].pending == map[]
    ensures Leads(Steps(env), s0, path, s')
    ensures Ends(s', r, Effect(TablesOf(s).(idem := Completed(Completed(s.idem, ClientSlot(req), Created(e, j)),
                                                              DedupSlot(env, req.op), Marker(e))),
                               if heard then Reply(Accepted(Created(e, j))) else Failure))
  {
    var view1 := Completed(s.idem, ClientSlot(req), Created(e, j));
    var view2 := Completed(view1, DedupSlot(env, req.op), Marker(e));
    var s1 := CompleteKeyStep(env, s, r, req, e, j, view1);
    path := Then(env, s0, acts, s, CompleteKey(r));
    var s2 := CompleteDedupStep(env, s1, r, req, e, j, view1, view2);
    path := Then(env, s0, path, s1, CompleteDedup(r));
    path := Then(env, s0, path, s2, CommitAnswer(r, heard));
    s' := Next(env, s2, CommitAnswer(r, heard));
  }

  lemma {:induction false} CompleteKeyStep(env: Env, s: State, r: nat, req: Request, e: nat, j: nat, view: map<Slot, Record>)
    returns (s1: State)
    requires Stands(s, r, req, Linked(e, j), s.idem) && s.procs[r].pending == map[]
    requires view == Completed(s.idem, ClientSlot(req), Created(e, j))
    ensures Enabled(env, s, CompleteKey(r)) && s1 == Next(env, s, CompleteKey(r))
    ensures Stands(s1, r, req, ClosingKey(e, j), view) && TablesOf(s1) == TablesOf(s)
  {
    s1 := Next(env, s, CompleteKey(r));
    assert s1.idem + s1.procs[r].pending == view;
  }

  lemma {:induction false} CompleteDedupStep(env: Env, s: State, r: nat, req: Request, e: nat, j: nat,
                                             view: map<Slot, Record>, view': map<Slot, Record>)
    returns (s1: State)
    requires Stands(s, r, req, ClosingKey(e, j), view) && view' == Completed(view, DedupSlot(env, req.op), Marker(e))
    ensures Enabled(env, s, CompleteDedup(r)) && s1 == Next(env, s, CompleteDedup(r))
    ensures Stands(s1, r, req, Closing(e, j), view') && TablesOf(s1) == TablesOf(s)
  {
    s1 := Next(env, s, CompleteDedup(r));
    assert s1.idem + s1.procs[r].pending == view';
  }

  /** From the first commit on. */
  lemma {:induction false} DispatchPath(env: Env, s0: State, acts: seq<Action>, s: State, r: nat, req: Request, e: nat, j: nat,
                                        fault: Fault)
    returns (path: seq<Action>, s': State)
    requires Leads(Steps(env), s0, acts, s) && Stands(s, r, req, Persisted(e, j), s.idem) && s.procs[r].pending == map[]
    ensures Leads(Steps(env), s0, path, s')
    ensures Ends(s', r, if !Finishing(fault) then Effect(TablesOf(s), Failure)
                        else Effect(TablesOf(s).(idem := Completed(Completed(s.idem, ClientSlot(req), Created(e, j)),
                                                                   DedupSlot(env, req.op), Marker(e))),
                                    if fault.NoFault? then Reply(Accepted(Created(e, j))) else Failure))
  {
    if fault.BeforeDispatch? || fault.BeforeFirstCommit? {
      path, s' := AbortPath(env, s0, acts, s, r);
    } else {
      path := Then(env, s0, acts, s, Send(r));
      var s1 := Next(env, s, Send(r));
      if fault.BeforeSecondCommit? {
        path, s' := AbortPath(env, s0, path, s1, r);
      } else {
        path := Then(env, s0, path, s1, CommitLinks(r));
        var s2 := Next(env, s1, CommitLinks(r));
        if fault.BeforeThirdCommit? {
          path, s' := AbortPath(env, s0, path, s2, r);
        } else {
          path, s' := FinishPath(env, s0, path, s2, r, req, e, j, fault.NoFault?);
        }
      }
    }
  }

  lemma {:induction false} InsertStep(env: Env, s: State, r: nat, req: Request, view: map<Slot, Record>) returns (s1: State)
    requires Stands(s, r, req, DedupHeld, view)
    ensures Enabled(env, s, InsertExecution(r)) && s1 == Next(env, s, InsertExecution(r))
    ensures var t' := TablesOf(s).(nextExec := s.nextExec + 1, nextJob := s.nextJob + 1);
            if Taken(s.execs, req.key) then Ends(s1, r, Effect(t', Failure))
            else TablesOf(s1) == t' && Stands(s1, r, req, RowAdded(s.nextExec, s.nextJob), view)
  {
    s1 := Next(env, s, InsertExecution(r));
  }

  lemma {:induction false} FirstCommitStep(env: Env, s: State, r: nat, req: Request, view: map<Slot, Record>, e: nat, j: nat)
    returns (s1: State)
    requires Stands(s, r, req, RowAdded(e, j), view)
    ensures Enabled(env, s, CommitExecution(r)) && s1 == Next(env, s, CommitExecution(r))
    ensures TablesOf(s1) == TablesOf(s).(idem := view, execs := s.execs[e := Execution(req.key, req.op, j, r)])
    ensures s1.procs[r].pending == map[] && Stands(s1, r, req, Persisted(e, j), view)
  {
    s1 := Next(env, s, CommitExecution(r));
    assert view + map[] == view;
  }

  lemma {:induction false} CreatingPath(env: Env, s0: State, acts: seq<Action>, s: State, r: nat, req: Request,
                                        view: map<Slot, Record>, fault: Fault)
    returns (path: seq<Action>, s': State)
    requires Leads(Steps(env), s0, acts, s) && Stands(s, r, req, DedupHeld, view)
    ensures Leads(Steps(env), s0, path, s')
    ensures Ends(s', r, Creating(env, TablesOf(s).(nextExec := s.nextExec + 1, nextJob := s.nextJob + 1), req, r, fault,
                                 s.nextExec, s.nextJob, view))
  {
    var s1 := InsertStep(env, s, r, req, view);
    path := Then(env, s0, acts, s, InsertExecution(r));
    if Taken(s.execs, req.key) {
      s' := s1;
    } else {
      var s2 := FirstCommitStep(env, s1, r, req, view, s.nextExec, s.nextJob);
      path := Then(env, s0, path, s1, CommitExecution(r));
      path, s' := DispatchPath(env, s0, path, s2, r, req, s.nextExec, s.nextJob, fault);
    }
  }

  lemma {:induction false} DedupStep(env: Env, s: State, r: nat, req: Request, view: map<Slot, Record>) returns (s1: State)
    requires Stands(s, r, req, DedupAbsent(s.clock), view)
    ensures Enabled(env, s, InsertDedup(r)) && s1 == Next(env, s, InsertDedup(r))
    ensures TablesOf(s1) == TablesOf(s) && s1.clock == s.clock
    ensures var dedup := DedupSlot(env, req.op);
            if dedup in view then Ends(s1, r, Effect(TablesOf(s), Failure))
            else Stands(s1, r, req, DedupHeld, view[dedup := Record(dedup.key, true, None, s.clock + TTL, s.clock, r)])
  {
    var dedup := DedupSlot(env, req.op);
    s1 := Next(env, s, InsertDedup(r));
    assert dedup !in view ==>
        s1.idem + s1.procs[r].pending == view[dedup := Record(dedup.key, true, None, s.clock + TTL, s.clock, r)];
  }

  /** The deduplication layer, when it lets the request proceed. */
  lemma {:induction false} DedupPath(env: Env, s0: State, acts: seq<Action>, s: State, r: nat, req: Request,
                                     view: map<Slot, Record>, fault: Fault)
    returns (path: seq<Action>, s': State)
    requires Leads(Steps(env), s0, acts, s) && Stands(s, r, req, DedupAbsent(s.clock), view) && !fault.BeforeFirstCommit?
    requires !Live(view, DedupSlot(env, req.op), s.clock)
    ensures Leads(Steps(env), s0, path, s') && Ends(s', r, Proceeding(env, TablesOf(s), req, r, s.clock, fault, view))
  {
    var dedup := DedupSlot(env, req.op);
    var s1 := DedupStep(env, s, r, req, view);
    path := Then(env, s0, acts, s, InsertDedup(r));
    if dedup in view {
      s' := s1;
    } else {
      var view' := view[dedup := Record(dedup.key, true, None, s.clock + TTL, s.clock, r)];
      path, s' := CreatingPath(env, s0, path, s1, r, req, view', fault);
    }
  }

  predicate FindsDuplicate(view: map<Slot, Record>, dedup: Slot, now: int) {
    Live(view, dedup, now) && !view[dedup].processing && view[dedup].body.Some?
  }

  lemma {:induction false} DuplicatePath(env: Env, s0: State, acts: seq<Action>, s: State, r: nat, req: Request,
                                         view: map<Slot, Record>, fault: Fault)
    returns (path: seq<Action>, s': State)
    requires !fault.BeforeFirstCommit? && FindsDuplicate(view, DedupSlot(env, req.op), s.clock) && Leads(Steps(env), s0, acts, s)
    requires var body := Deduplicated(ExecutionOf(view[DedupSlot(env, req.op)].body.value));
             Stands(s, r, req, ClosingDup(body), Completed(view, ClientSlot(req), body))
    ensures Leads(Steps(env), s0, path, s') && Ends(s', r, Proceeding(env, TablesOf(s), req, r, s.clock, fault, view))
  {
    path := Then(env, s0, acts, s, CommitAnswer(r, true));
    s' := Next(env, s, CommitAnswer(r, true));
  }

  /** A deduplication record still being processed stops nobody. */
  lemma {:induction false} HeldPath(env: Env, s0: State, acts: seq<Action>, s: State, r: nat, req: Request,
                                    view: map<Slot, Record>, fault: Fault)
    returns (path: seq<Action>, s': State)
    requires !fault.BeforeFirstCommit? && Live(view, DedupSlot(env, req.op), s.clock)
    requires !FindsDuplicate(view, DedupSlot(env, req.op), s.clock)
    requires Leads(Steps(env), s0, acts, s) && Stands(s, r, req, DedupHeld, view)
    ensures Leads(Steps(env), s0, path, s') && Ends(s', r, Proceeding(env, TablesOf(s), req, r, s.clock, fault, view))
  {
    path, s' := CreatingPath(env, s0, acts, s, r, req, view, fault);
  }

  lemma {:induction false} LookupDedupStep(env: Env, s: State, r: nat, req: Request, view: map<Slot, Record>) returns (s1: State)
    requires Stands(s, r, req, Pc.Granted, view) && ClientSlot(req) in s.procs[r].pending
    ensures Enabled(env, s, LookupDedup(r)) && s1 == Next(env, s, LookupDedup(r))
    ensures TablesOf(s1) == TablesOf(s) && s1.clock == s.clock
    ensures var dedup := DedupSlot(env, req.op);
            if !Live(view, dedup, s.clock) then Stands(s1, r, req, DedupAbsent(s.clock), view)
            else if view[dedup].processing || view[dedup].body.None? then Stands(s1, r, req, DedupHeld, view)
            else var body := Deduplicated(ExecutionOf(view[dedup].body.value));
                 Stands(s1, r, req, ClosingDup(body), Completed(view, ClientSlot(req), body))
  {
    var dedup, slot := DedupSlot(env, req.op), ClientSlot(req);
    s1 := Next(env, s, LookupDedup(r));
    if Live(view, dedup, s.clock) && !view[dedup].processing && view[dedup].body.Some? {
      var body := Deduplicated(ExecutionOf(view[dedup].body.value));
      assert s1.idem + s1.procs[r].pending == Completed(view, slot, body);
    }
  }

  lemma {:induction false} ProceedingPath(env: Env, s0: State, acts: seq<Action>, s: State, r: nat, req: Request,
                                          view: map<Slot, Record>, fault: Fault)
    returns (path: seq<Action>, s': State)
    requires Leads(Steps(env), s0, acts, s) && Stands(s, r, req, Pc.Granted, view) && ClientSlot(req) in s.procs[r].pending
    ensures Leads(Steps(env), s0, path, s') && Ends(s', r, Proceeding(env, TablesOf(s), req, r, s.clock, fault, view))
  {
    var dedup := DedupSlot(env, req.op);
    if fault.BeforeFirstCommit? {
      path, s' := AbortPath(env, s0, acts, s, r);
    } else {
      var s1 := LookupDedupStep(env, s, r, req, view);
      path := Then(env, s0, acts, s, LookupDedup(r));
      if !Live(view, dedup, s.clock) {
        path, s' := DedupPath(env, s0, path, s1, r, req, view, fault);
      } else if FindsDuplicate(view, dedup, s.clock) {
        path, s' := DuplicatePath(env, s0, path, s1, r, req, view, fault);
      } else {
        path, s' := HeldPath(env, s0, path, s1, r, req, view, fault);
      }
    }
  }

  /** A request that has found no live record of its key. */
  lemma {:induction false} AbsentPath(env: Env, s0: State, acts: seq<Action>, s: State, r: nat, req: Request, fault: Fault)
    returns (path: seq<Action>, s': State)
    requires Leads(Steps(env), s0, acts, s) && r !in s0.procs && Undisturbed(s0, r) && !Live(s0.idem, ClientSlot(req), s0.clock)
    requires s == s0.(procs := s0.procs[r := Process(req, Absent, map[], s0.clock + TTL)])
    ensures Leads(Steps(env), s0, path, s') && Ends(s', r, RouteEffect(env, TablesOf(s0), req, r, s0.clock, fault))
  {
    var slot := ClientSlot(req);
    path := Then(env, s0, acts, s, InsertKey(r));
    if slot in s0.idem {
      s' := Next(env, s, InsertKey(r));
    } else {
      var s1 := InsertKeyStep(env, s, r, req);
      path, s' := ProceedingPath(env, s0, path, s1, r, req, s0.idem[slot := NewRecord(req, s0.clock, r)], fault);
    }
  }

  lemma {:induction false} InsertKeyStep(env: Env, s: State, r: nat, req: Request) returns (s': State)
    requires r in s.procs && s.procs[r] == Process(req, Absent, map[], s.clock + TTL) && Undisturbed(s, r)
    requires ClientSlot(req) !in s.idem
    ensures Enabled(env, s, InsertKey(r)) && s' == Next(env, s, InsertKey(r))
    ensures Stands(s', r, req, Pc.Granted, s.idem[ClientSlot(req) := NewRecord(req, s.clock, r)])
    ensures ClientSlot(req) in s'.procs[r].pending && TablesOf(s') == TablesOf(s) && s'.clock == s.clock
  {
    s' := Next(env, s, InsertKey(r));
    assert s'.idem + s'.procs[r].pending == s.idem[ClientSlot(req) := NewRecord(req, s.clock, r)];
  }

  /** Every undisturbed request, interrupted or not, is a path of the state machine. */
  lemma {:induction false} RouteIsAPath(env: Env, s: State, r: nat, req: Request, fault: Fault)
    returns (path: seq<Action>, s': State)
    requires r !in s.procs && Undisturbed(s, r)
    ensures Leads(Steps(env), s, path, s') && Ends(s', r, RouteEffect(env, TablesOf(s), req, r, s.clock, fault))
  {
    var slot := ClientSlot(req);
    path := Then(env, s, [], s, Arrive(r, req));
    var s1 := Next(env, s, Arrive(r, req));
    path := Then(env, s, path, s1, LookupKey(r));
    var s2 := Next(env, s1, LookupKey(r));
    if Live(s.idem, slot, s.clock) {
      s' := s2;
    } else {
      path, s' := AbsentPath(env, s, path, s2, r, req, fault);
    }
  }

  // ---- What a request is answered and leaves, by the tables it meets -------------------------------------

  predicate Completes(rec: Record) { !rec.processing && rec.body.Some? }

  /** A request without a record of its own creates an execution: its execution key is not taken, and
      the record of its operation is absent, or live and not completed. */
  predicate Creates(env: Env, t: Tables, req: Request, now: int) {
    var slot, dedup := Slot(req.op.user, req.key), DedupSlot(env, req.op);
    && slot !in t.idem && (forall e :: e in t.execs ==> t.execs[e].key != req.key)
    && (dedup in t.idem ==> now < t.idem[dedup].expires && (t.idem[dedup].processing || t.idem[dedup].body.None?))
  }

  /** ... and is a duplicate when the record of its operation is live and completed. */
  predicate Duplicates(env: Env, t: Tables, req: Request, now: int) {
    var slot, dedup := Slot(req.op.user, req.key), DedupSlot(env, req.op);
    && slot !in t.idem && dedup in t.idem
    && now < t.idem[dedup].expires && !t.idem[dedup].processing && t.idem[dedup].body.Some?
  }

  /** Every answer of an uninterrupted request, with exactly the tables it is given for; it fails for
      all others, which are an expired record that is still there and an execution key that is taken. */
  lemma {:induction false} AnsweredExactlyWhen(env: Env, t: Tables, req: Request, r: nat, now: int)
    ensures var slot, reply := Slot(req.op.user, req.key), RouteEffect(env, t, req, r, now, NoFault).reply;
            var live := slot in t.idem && now < t.idem[slot].expires;
            && (reply == Reply(Accepted(Created(t.nextExec, t.nextJob))) <==> Creates(env, t, req, now))
            && (Duplicates(env, t, req, now) ==>
                  var original := match t.idem[DedupSlot(env, req.op)].body.value
                                  case Created(e, _) => Some(e) case Deduplicated(o) => o case Marker(e) => Some(e);
                  reply == Reply(Accepted(Deduplicated(original))))
            && (reply == Reply(BodyConflict) <==> live && t.idem[slot].hash != req.bodyHash)
            && (reply == Reply(Busy) <==> live && t.idem[slot].hash == req.bodyHash && t.idem[slot].processing)
            && (live && t.idem[slot].hash == req.bodyHash && !t.idem[slot].processing ==>
                  reply == Reply(Replay(t.idem[slot].body)))
            && (reply.Failure? <==> !live && !Creates(env, t, req, now) && !Duplicates(env, t, req, now))
  {
  }

  /** The record of a key or of an operation as it is inserted. */
  function Fresh(hash: string, now: int, r: nat): Record { Record(hash, true, None, now + 86400, now, r) }

  /** The record of the operation before the request, or as the request inserts it. */
  function OperationRecord(env: Env, t: Tables, req: Request, r: nat, now: int): Record {
    var dedup := DedupSlot(env, req.op);
    if dedup in t.idem then t.idem[dedup] else Fresh(if Slot(req.op.user, req.key) == dedup then req.bodyHash else dedup.key, now, r)
  }

  /** A request that creates an execution leaves it in the table at its first commit; its key and its
      operation are completed, with the answer and with the execution, exactly if it gets past its
      third commit, and stay processing if it dies in between. */
  lemma {:induction false} CreationLeaves(env: Env, t: Tables, req: Request, r: nat, now: int, fault: Fault)
    requires Creates(env, t, req, now) && !fault.BeforeFirstCommit?
    ensures var slot, dedup, done := Slot(req.op.user, req.key), DedupSlot(env, req.op), fault.NoFault? || fault.AfterThirdCommit?;
            var eff := RouteEffect(env, t, req, r, now, fault);
            var u, e := eff.tables, t.nextExec;
            && u.execs == t.execs[e := Execution(req.key, req.op, t.nextJob, r)]
            && u.nextExec == e + 1 && u.nextJob == t.nextJob + 1
            && u.idem.Keys == t.idem.Keys + {slot, dedup} && (forall x :: x in t.idem && x != dedup ==> u.idem[x] == t.idem[x])
            && u.idem[dedup] == (var rec := OperationRecord(env, t, req, r, now);
                                 if done then rec.(processing := false, body := Some(Marker(e))) else rec)
            && (slot != dedup ==>
                  u.idem[slot] == (var rec := Fresh(req.bodyHash, now, r);
                                   if done then rec.(processing := false, body := Some(Created(e, t.nextJob))) else rec))
            && eff.reply == if fault.NoFault? then Reply(Accepted(Created(e, t.nextJob))) else Failure
  {
  }

  /** A duplicate leaves only its own record, completed with the answer. */
  lemma {:induction false} DuplicateLeaves(env: Env, t: Tables, req: Request, r: nat, now: int, fault: Fault)
    requires Duplicates(env, t, req, now)
    ensures var slot, dedup := Slot(req.op.user, req.key), DedupSlot(env, req.op);
            var eff := RouteEffect(env, t, req, r, now, fault);
            var original := match t.idem[dedup].body.value
                            case Created(e, _) => Some(e) case Deduplicated(o) => o case Marker(e) => Some(e);
            var body := Deduplicated(original);
            eff == if fault.BeforeFirstCommit? then Effect(t, Failure)
                   else Effect(t.(idem := t.idem[slot := Fresh(req.bodyHash, now, r).(processing := false, body := Some(body))]),
                               Reply(Accepted(body)))
  {
  }

  /** Any other request, and one that dies before its first commit, leaves both tables alone. */
  lemma {:induction false} OthersLeaveNothing(env: Env, t: Tables, req: Request, r: nat, now: int, fault: Fault)
    requires (!Creates(env, t, req, now) && !Duplicates(env, t, req, now)) || fault.BeforeFirstCommit?
    ensures var u := RouteEffect(env, t, req, r, now, fault).tables; u.idem == t.idem && u.execs == t.execs
  {
  }

  // ---- What the exception handler really leaves ----------------------------------------------------------

  /** A request that fails after its first commit has marked its key as failed, but that mark
      is rolled back: the key stays `processing`, and until it expires every further request
      with the same key and body is refused as concurrent. It gets that far whenever its key has
      no record and its execution none, and the operation has no record or one at work. */
  lemma {:induction false} FailureMarkIsLost(env: Env, t: Tables, req: Request, r: nat, now: int, fault: Fault,
                                             later: int, r2: nat, fault2: Fault)
    requires fault.BeforeDispatch? || fault.BeforeSecondCommit? || fault.BeforeThirdCommit?
    requires ClientSlot(req) !in t.idem && !Taken(t.execs, req.key) && now <= later < now + TTL
    requires var dedup := DedupSlot(env, req.op);
             dedup in t.idem ==> Live(t.idem, dedup, now) && (t.idem[dedup].processing || t.idem[dedup].body.None?)
    ensures var t' := RouteEffect(env, t, req, r, now, fault).tables;
            && t'.idem[ClientSlot(req)].processing && Taken(t'.execs, req.key)
            && RouteEffect(env, t', req, r2, later, fault2) == Effect(t', Reply(Busy))
  {
    var t' := RouteEffect(env, t, req, r, now, fault).tables;
    assert t'.execs[t.nextExec].key == req.key;
  }

  /** A request that succeeds is replayed: sent again under the same key it returns the same
      answer and changes nothing, until the key expires. */
  lemma {:induction false} SuccessIsReplayed(env: Env, t: Tables, req: Request, r: nat, now: int, later: int, r2: nat, fault2: Fault)
    requires ClientSlot(req) != DedupSlot(env, req.op) && now <= later < now + TTL && !Live(t.idem, ClientSlot(req), now)
    requires RouteEffect(env, t, req, r, now, NoFault).reply.Reply?
    ensures var first := RouteEffect(env, t, req, r, now, NoFault);
            && first.reply.response.Accepted?
            && RouteEffect(env, first.tables, req, r2, later, fault2)
               == Effect(first.tables, Reply(Replay(Some(first.reply.response.answer))))
  {
  }

  /** The same holds when the client was sent an error although the third commit had succeeded:
      its retry is answered with the execution that was created, and changes nothing. */
  lemma {:induction false} UnheardAnswerIsReplayed(env: Env, t: Tables, req: Request, r: nat, now: int, later: int, r2: nat,
                                                   fault2: Fault)
    requires ClientSlot(req) != DedupSlot(env, req.op) && now <= later < now + TTL && !Live(t.idem, ClientSlot(req), now)
    requires RouteEffect(env, t, req, r, now, NoFault).reply.Reply?
    requires RouteEffect(env, t, req, r, now, AfterThirdCommit).reply.Failure?
    ensures var first := RouteEffect(env, t, req, r, now, AfterThirdCommit).tables;
            && Taken(first.execs, req.key)
            && RouteEffect(env, first, req, r2, later, fault2) == Effect(first, Reply(Replay(Some(Created(t.nextExec, t.nextJob)))))
  {
    var first := RouteEffect(env, t, req, r, now, AfterThirdCommit).tables;
    assert first.execs[t.nextExec].key == req.key;
  }
}
