/** The whole protocol: requests and workers interleaving over shared tables. A request's
    first commit creates the execution row, its dispatch publishes the task message; every
    other step belongs to one side alone. */
module ExactlyOnce {
  import opened Options
  import Executor
  import Keys
  import Front = ExecuteRequests
  import FrontProofs = ExecuteRequestsProofs
  import Back = ExecutionTask
  import BackProofs = ExecutionTaskProofs

  datatype Env = Env(front: Front.Env, back: Back.Env)

  datatype System = System(front: Front.State, back: Back.World)

  const INITIAL := System(Front.INITIAL, Back.EMPTY)

  datatype Action =
    | Request(a: Front.Action)
    | Create(r: nat)
    | Send(r: nat)
    | Work(b: Back.Action)

  /** The task arguments of an execution are those of the operation it was created for. */
  function ArgsOf(x: Front.Execution): Back.Args {
    Back.Args(x.op.user, x.op.dataset, x.job, x.op.steps)
  }

  predicate Enabled(env: Env, s: System, a: Action) {
    match a
    case Request(f) => Front.Enabled(env.front, s.front, f) && !f.CommitExecution? && !f.Send?
    case Create(r) =>
      && Front.Enabled(env.front, s.front, Front.CommitExecution(r))
      && Back.Enabled(env.back, s.back, Back.CreateExecution(s.front.procs[r].pc.e, s.front.procs[r].pc.j))
    case Send(r) =>
      && Front.Enabled(env.front, s.front, Front.Send(r)) && s.front.procs[r].pc.e in s.front.execs
      && Back.Enabled(env.back, s.back, Back.Dispatch(s.front.procs[r].pc.e, ArgsOf(s.front.execs[s.front.procs[r].pc.e])))
    case Work(b) => Back.Enabled(env.back, s.back, b) && !b.CreateExecution? && !b.Dispatch?
  }

  function Next(env: Env, s: System, a: Action): System
    requires Enabled(env, s, a)
  {
    match a
    case Request(f) => s.(front := Front.Next(env.front, s.front, f))
    case Create(r) =>
      var pc := s.front.procs[r].pc;
      System(Front.Next(env.front, s.front, Front.CommitExecution(r)),
             Back.Next(env.back, s.back, Back.CreateExecution(pc.e, pc.j)))
    case Send(r) =>
      var e := s.front.procs[r].pc.e;
      System(Front.Next(env.front, s.front, Front.Send(r)),
             Back.Next(env.back, s.back, Back.Dispatch(e, ArgsOf(s.front.execs[e]))))
    case Work(b) => s.(back := Back.Next(env.back, s.back, b))
  }

  ghost predicate Run(env: Env, tr: seq<System>, acts: seq<Action>) {
    && |tr| == |acts| + 1 && tr[0] == INITIAL
    && forall i :: 0 <= i < |acts| ==> Enabled(env, tr[i], acts[i]) && tr[i + 1] == Next(env, tr[i], acts[i])
  }

  // ---- The invariant -----------------------------------------------------------------------------------

  /** A request between its first commit and its dispatch has not published its message. */
  ghost predicate Unsent(s: System, r: nat)
    requires r in s.front.procs
  {
    s.front.procs[r].pc.Persisted? ==> s.front.procs[r].pc.e !in s.back.messages
  }

  ghost predicate Linked(s: System) {
    && s.back.rows.Keys == s.front.execs.Keys
    && (forall e :: e in s.back.messages ==> e in s.front.execs && s.back.messages[e] == ArgsOf(s.front.execs[e]))
    && (forall r :: r in s.front.procs ==> Unsent(s, r))
  }

  /** Worker steps other than the two shared ones leave the rows' keys and the messages alone. */
  lemma {:induction false} WorkKeepsKeys(env: Back.Env, w: Back.World, b: Back.Action)
    requires BackProofs.Inv(env, w) && Back.Enabled(env, w, b) && !b.CreateExecution? && !b.Dispatch?
    ensures var w' := Back.Next(env, w, b); w'.rows.Keys == w.rows.Keys && w'.messages == w.messages
  {
    if b.Commit? { assert BackProofs.DeliveryOk(env, w, b.d); }
  }

  /** Request steps other than the two shared ones leave the executions alone and bring no
      request to the point between first commit and dispatch. */
  lemma {:induction false} RequestKeepsExecutions(env: Front.Env, s: Front.State, f: Front.Action)
    requires Front.Enabled(env, s, f) && !f.CommitExecution? && !f.Send?
    ensures var s' := Front.Next(env, s, f);
            && s'.execs == s.execs
            && forall r :: r in s'.procs && s'.procs[r].pc.Persisted? ==> r in s.procs && s'.procs[r].pc == s.procs[r].pc
  {
  }

  lemma {:induction false} RequestKeepsLink(env: Env, s: System, f: Front.Action)
    requires Linked(s) && Enabled(env, s, Request(f))
    ensures Linked(Next(env, s, Request(f)))
  {
    RequestKeepsExecutions(env.front, s.front, f);
    var s' := Next(env, s, Request(f));
    forall r | r in s'.front.procs ensures Unsent(s', r) {
      assert s'.front.procs[r].pc.Persisted? ==> Unsent(s, r);
    }
  }

  lemma {:induction false} WorkKeepsLink(env: Env, s: System, b: Back.Action)
    requires Linked(s) && BackProofs.Inv(env.back, s.back) && Enabled(env, s, Work(b))
    ensures Linked(Next(env, s, Work(b)))
  {
    WorkKeepsKeys(env.back, s.back, b);
    var s' := Next(env, s, Work(b));
    forall r | r in s'.front.procs ensures Unsent(s', r) { assert Unsent(s, r); }
  }

  /** What the first commit does to the executions and to the program counters. */
  lemma {:induction false} CommitAddsOne(env: Front.Env, s: Front.State, r: nat)
    requires Front.Enabled(env, s, Front.CommitExecution(r)) && s.procs[r].pc.e !in s.execs
    ensures var s' := Front.Next(env, s, Front.CommitExecution(r));
            var pc := s.procs[r].pc;
            && pc.e in s'.execs && s'.execs.Keys == s.execs.Keys + {pc.e}
            && (forall e :: e in s.execs ==> s'.execs[e] == s.execs[e])
            && s'.procs.Keys == s.procs.Keys && s'.procs[r].pc == Front.Persisted(pc.e, pc.j)
            && forall k :: k in s.procs && k != r ==> s'.procs[k] == s.procs[k]
  {
  }

  lemma {:induction false} CreateKeepsLink(env: Env, s: System, r: nat)
    requires Linked(s) && Enabled(env, s, Create(r)) && s.front.procs[r].pc.e !in s.front.execs
    ensures Linked(Next(env, s, Create(r)))
  {
    var s' := Next(env, s, Create(r));
    CommitAddsOne(env.front, s.front, r);
    CreateAddsRow(env.back, s.back, s.front.procs[r].pc.e, s.front.procs[r].pc.j);
    LinkGrows(s, s', r, s.front.procs[r].pc.e);
  }

  lemma {:induction false} CreateAddsRow(env: Back.Env, w: Back.World, e: nat, j: nat)
    requires Back.Enabled(env, w, Back.CreateExecution(e, j))
    ensures var w' := Back.Next(env, w, Back.CreateExecution(e, j));
            w'.rows.Keys == w.rows.Keys + {e} && w'.messages == w.messages
  {
  }

  lemma {:induction false} LinkGrows(s: System, s': System, r: nat, e: nat)
    requires Linked(s) && s'.back.messages == s.back.messages && s'.back.rows.Keys == s.back.rows.Keys + {e}
    requires e !in s.front.execs && s'.front.execs.Keys == s.front.execs.Keys + {e}
    requires forall k :: k in s.front.execs ==> s'.front.execs[k] == s.front.execs[k]
    requires s'.front.procs.Keys == s.front.procs.Keys && r in s'.front.procs
    requires s'.front.procs[r].pc.Persisted? && s'.front.procs[r].pc.e == e
    requires forall k :: k in s.front.procs && k != r ==> s'.front.procs[k] == s.front.procs[k]
    ensures Linked(s')
  {
    forall k | k in s'.front.procs ensures Unsent(s', k) { assert k != r ==> Unsent(s, k); }
  }

  lemma {:induction false} SendMovesOne(env: Front.Env, s: Front.State, r: nat)
    requires Front.Enabled(env, s, Front.Send(r))
    ensures var s' := Front.Next(env, s, Front.Send(r));
            && s'.execs == s.execs && s'.procs.Keys == s.procs.Keys && s'.procs[r].pc.Sent?
            && forall k :: k in s.procs && k != r ==> s'.procs[k] == s.procs[k]
  {
  }

  /** Two requests between commit and dispatch hold different executions. */
  lemma {:induction false} OwnExecutions(env: Front.Env, s: Front.State, r: nat, k: nat)
    requires r in s.procs && k in s.procs && k != r && FrontProofs.ProcOk(env, s, r) && FrontProofs.ProcOk(env, s, k)
    requires s.procs[r].pc.Persisted? && s.procs[k].pc.Persisted?
    ensures s.procs[r].pc.e != s.procs[k].pc.e
  {
  }

  lemma {:induction false} SendKeepsLink(env: Env, s: System, r: nat)
    requires Linked(s) && Enabled(env, s, Send(r))
    requires forall k :: k in s.front.procs ==> FrontProofs.ProcOk(env.front, s.front, k)
    ensures Linked(Next(env, s, Send(r)))
  {
    var s' := Next(env, s, Send(r));
    SendMovesOne(env.front, s.front, r);
    forall k | k in s'.front.procs ensures Unsent(s', k) {
      if k != r && s.front.procs[k].pc.Persisted? {
        assert Unsent(s, k);
        OwnExecutions(env.front, s.front, r, k);
      }
    }
  }

  ghost predicate Inv(env: Env, s: System) {
    FrontProofs.Inv(env.front, s.front) && BackProofs.Inv(env.back, s.back) && Linked(s)
  }

  lemma {:induction false} FrontStepKeepsInv(env: Env, s: System, a: Action)
    requires Inv(env, s) && Enabled(env, s, a)
    ensures FrontProofs.Inv(env.front, Next(env, s, a).front)
  {
    match a
    case Request(f) => FrontProofs.StepKeepsInv(env.front, s.front, f);
    case Create(r) => FrontProofs.StepKeepsInv(env.front, s.front, Front.CommitExecution(r));
    case Send(r) => FrontProofs.StepKeepsInv(env.front, s.front, Front.Send(r));
    case Work(_) =>
  }

  /** The worker side's part of a step. */
  function BackPart(s: System, a: Action): Back.Action
    requires a.Create? || a.Send? ==> a.r in s.front.procs
    requires a.Create? ==> s.front.procs[a.r].pc.RowAdded?
    requires a.Send? ==> s.front.procs[a.r].pc.Persisted? && s.front.procs[a.r].pc.e in s.front.execs
  {
    match a
    case Request(_) => Back.Idle
    case Create(r) => Back.CreateExecution(s.front.procs[r].pc.e, s.front.procs[r].pc.j)
    case Send(r) => Back.Dispatch(s.front.procs[r].pc.e, ArgsOf(s.front.execs[s.front.procs[r].pc.e]))
    case Work(b) => b
  }

  lemma {:induction false} BackPartOfStep(env: Env, s: System, a: Action)
    requires Enabled(env, s, a)
    ensures Back.Enabled(env.back, s.back, BackPart(s, a))
    ensures Next(env, s, a).back == Back.Next(env.back, s.back, BackPart(s, a))
  {
  }

  lemma {:induction false} BackStepKeepsInv(env: Env, s: System, a: Action)
    requires BackProofs.Inv(env.back, s.back) && Enabled(env, s, a)
    ensures BackProofs.Inv(env.back, Next(env, s, a).back)
  {
    BackPartOfStep(env, s, a);
    BackProofs.StepKeepsInv(env.back, s.back, BackPart(s, a));
  }

  lemma {:induction false} StepKeepsLink(env: Env, s: System, a: Action)
    requires Inv(env, s) && Enabled(env, s, a)
    ensures Linked(Next(env, s, a))
  {
    match a
    case Request(f) => RequestKeepsLink(env, s, f);
    case Create(r) =>
      assert FrontProofs.ProcOk(env.front, s.front, r);
      CreateKeepsLink(env, s, r);
    case Send(r) => SendKeepsLink(env, s, r);
    case Work(b) => WorkKeepsLink(env, s, b);
  }

  lemma {:induction false} StepKeepsInv(env: Env, s: System, a: Action)
    requires Inv(env, s) && Enabled(env, s, a)
    ensures Inv(env, Next(env, s, a))
  {
    FrontStepKeepsInv(env, s, a);
    BackStepKeepsInv(env, s, a);
    StepKeepsLink(env, s, a);
  }

  lemma {:induction false} RunKeepsInv(env: Env, tr: seq<System>, acts: seq<Action>, i: nat)
    requires Run(env, tr, acts) && i < |tr|
    ensures Inv(env, tr[i])
  {
    if i > 0 {
      RunKeepsInv(env, tr, acts, i - 1);
      StepKeepsInv(env, tr[i - 1], acts[i - 1]);
    }
  }

  // ---- Main results --------------------------------------------------------------------------------------

  /** The shared steps are never held back by the other side: a request that is ready to
      commit its execution, or to dispatch it, can do so. */
  lemma {:induction false} SharedStepsAreNeverBlocked(env: Env, tr: seq<System>, acts: seq<Action>, i: nat, r: nat)
    requires Run(env, tr, acts) && i < |tr|
    ensures Front.Enabled(env.front, tr[i].front, Front.CommitExecution(r)) ==> Enabled(env, tr[i], Create(r))
    ensures Front.Enabled(env.front, tr[i].front, Front.Send(r)) ==> Enabled(env, tr[i], Send(r))
  {
    RunKeepsInv(env, tr, acts, i);
    if r in tr[i].front.procs {
      assert FrontProofs.ProcOk(env.front, tr[i].front, r) && Unsent(tr[i], r);
      NotBlocked(env, tr[i], r);
    }
  }

  lemma {:induction false} NotBlocked(env: Env, s: System, r: nat)
    requires r in s.front.procs && FrontProofs.ProcOk(env.front, s.front, r) && Unsent(s, r) && Linked(s)
    ensures Front.Enabled(env.front, s.front, Front.CommitExecution(r)) ==> Enabled(env, s, Create(r))
    ensures Front.Enabled(env.front, s.front, Front.Send(r)) ==> Enabled(env, s, Send(r))
  {
  }

  /** What the pipeline of an operation computes on its raw data. */
  function OutputOf(env: Env, op: Front.Op): Executor.Outcome
    requires Back.DatasetFound(env.back, Back.Args(op.user, op.dataset, 0, op.steps))
  {
    Back.OutcomeOf(env.back, Back.Args(op.user, op.dataset, 0, op.steps))
  }

  /** End to end, over every run of requests and workers with rollbacks, crashes, retries,
      redeliveries and both sweepers: an Idempotency-Key has at most one execution; its claim
      is committed at most once; and it owns at most one object of the bucket, under its own
      key, holding exactly what the pipeline of the operation it was created for computes. */
  lemma {:induction false} ExactlyOncePerKey(env: Env, tr: seq<System>, acts: seq<Action>, i: nat, e: nat, e': nat, key: string)
    requires Run(env, tr, acts) && i < |tr| && e in tr[i].front.execs
    ensures e' in tr[i].front.execs && tr[i].front.execs[e'].key == tr[i].front.execs[e].key ==> e' == e
    ensures tr[i].back.claims[e] <= 1
    ensures BackProofs.Owns(env.back, tr[i].back, key, e) ==>
              var op := tr[i].front.execs[e].op;
              && Back.DatasetFound(env.back, Back.Args(op.user, op.dataset, 0, op.steps))
              && key == Keys.OutputKey(op.user, e) && tr[i].back.objects[key] == OutputOf(env, op).output
    ensures e in tr[i].back.rows && (tr[i].back.rows[e].outputKey == Some(key) ==> BackProofs.Owns(env.back, tr[i].back, key, e))
  {
    RunKeepsInv(env, tr, acts, i);
    OneExecution(env, tr[i], e, e');
    OneOutput(env, tr[i], e, key);
  }

  lemma {:induction false} OneExecution(env: Env, s: System, e: nat, e': nat)
    requires FrontProofs.Inv(env.front, s.front) && e in s.front.execs
    ensures e' in s.front.execs && s.front.execs[e'].key == s.front.execs[e].key ==> e' == e
  {
    assert e' in s.front.execs ==> FrontProofs.SameKeySameExecution(s.front, e, e');
  }

  lemma {:induction false} OneOutput(env: Env, s: System, e: nat, key: string)
    requires BackProofs.Inv(env.back, s.back) && Linked(s) && e in s.front.execs
    ensures s.back.claims[e] <= 1
    ensures BackProofs.Owns(env.back, s.back, key, e) ==>
              var op := s.front.execs[e].op;
              && Back.DatasetFound(env.back, Back.Args(op.user, op.dataset, 0, op.steps))
              && key == Keys.OutputKey(op.user, e) && s.back.objects[key] == OutputOf(env, op).output
    ensures e in s.back.rows && (s.back.rows[e].outputKey == Some(key) ==> BackProofs.Owns(env.back, s.back, key, e))
  {
    assert BackProofs.RowOk(env.back, s.back, e);
  }

  /** Every object of the bucket belongs to an execution that some request created. */
  lemma {:induction false} EveryObjectHasARequest(env: Env, tr: seq<System>, acts: seq<Action>, i: nat, key: string)
    returns (e: nat)
    requires Run(env, tr, acts) && i < |tr| && key in tr[i].back.objects
    ensures BackProofs.Owns(env.back, tr[i].back, key, e) && e in tr[i].front.execs
    ensures var x := tr[i].front.execs[e];
            x.creator in tr[i].front.procs && tr[i].front.procs[x.creator].req.op == x.op
            && tr[i].front.procs[x.creator].req.key == x.key && x.creator in tr[i].front.grants
  {
    RunKeepsInv(env, tr, acts, i);
    e :| BackProofs.Owns(env.back, tr[i].back, key, e);
    assert FrontProofs.ExecOk(tr[i].front, e);
  }
}
