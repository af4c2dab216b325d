/** The task code itself, run by one worker without interference: statement by statement
    over the tables it updates in place, with an exception injected at any of its await
    points. The method is proved equal to `TaskEffect`, and `TaskEffect` to be a path of the
    state machine of ExecutionTask, so the results about every run are about this code. */
module ExecutionWorker {
  import opened Options
  import opened Tables
  import Executor
  import Keys
  import opened ExecutionTask
  import opened ExecutionTaskProofs
  import opened Paths

  /** Where an exception (a lost connection, the soft time limit) interrupts the task. */
  datatype Fault = NoFault | BeforeClaim | AfterClaim | AfterUpload | AfterCommit

  datatype Effect = Effect(rows: map<nat, ExecutionRow>, jobs: map<nat, JobStatus>, objects: map<string, Table>,
                           result: TaskResult)

  predicate Runnable(env: Env, a: Args) {
    DatasetFound(env, a) && env.valid(a.steps, env.datasets[a.datasetId].raw)
  }

  /** What the failure handler leaves behind, in a transaction of its own. */
  function Handled(rows: map<nat, ExecutionRow>, jobs: map<nat, JobStatus>, objects: map<string, Table>,
                   e: nat, job: nat): Effect
  {
    Effect(if e in rows && RowFailable(Some(rows[e].status)) then rows[e := FailRow(rows[e])] else rows,
           if job in jobs && JobFailable(Some(jobs[job])) then jobs[job := JobFailed] else jobs,
           objects, Reraised)
  }

  /** What one undisturbed delivery leaves behind. */
  function TaskEffect(env: Env, rows: map<nat, ExecutionRow>, jobs: map<nat, JobStatus>, objects: map<string, Table>,
                      e: nat, a: Args, worker: string, fault: Fault): Effect
  {
    if fault.BeforeClaim? then Handled(rows, jobs, objects, e, a.jobId)
    else if e in rows && rows[e].status.Completed? then Effect(rows, jobs, objects, Cached)
    else if e in rows && rows[e].status.Running? && rows[e].lockedBy.Some? && rows[e].lockedBy.value != worker then
      Effect(rows, jobs, objects, LockedByOther)
    else if e !in rows || !rows[e].status.Pending? then Effect(rows, jobs, objects, LockFailed)
    else if fault.AfterClaim? || !Runnable(env, a) then Handled(rows, jobs, objects, e, a.jobId)
    else
      var o := OutcomeOf(env, a);
      var objects' := if HasOutput(o) then objects[Keys.OutputKey(a.userId, e) := o.output] else objects;
      var rows' := rows[e := FinishedRow(env, a, e)];
      var jobs' := if a.jobId in jobs then jobs[a.jobId := JobCompleted] else jobs;
      if fault.AfterUpload? then Handled(rows, jobs, objects', e, a.jobId)
      else if fault.AfterCommit? then Handled(rows', jobs', objects', e, a.jobId)
      else Effect(rows', jobs', objects', Finished(o.report.status))
  }

  class Backend {
    var rows: map<nat, ExecutionRow>
    var jobs: map<nat, JobStatus>
    var objects: map<string, Table>

    method ExecutePipelineTask(env: Env, e: nat, a: Args, worker: string, now: int, fault: Fault)
      returns (result: TaskResult)
      modifies this
      ensures Effect(rows, jobs, objects, result) ==
              TaskEffect(env, old(rows), old(jobs), old(objects), e, a, worker, fault)
    {
      if fault.BeforeClaim? { result := Fail(e, a.jobId); return; }
      var ex := Lookup(rows, e);
      if ex.Some? && ex.value.status.Completed? { return Cached; }
      if ex.Some? && ex.value.status.Running? && ex.value.lockedBy.Some? && ex.value.lockedBy.value != worker {
        return LockedByOther;
      }
      // UPDATE ... WHERE status = 'pending', inside the transaction: `session` is its view
      var session, sessionJobs := rows, jobs;
      if e !in session || !session[e].status.Pending? { return LockFailed; }
      session := session[e := session[e].(status := Running, lockedBy := Some(worker), lockedAt := Some(now))];
      if fault.AfterClaim? { result := Fail(e, a.jobId); return; }
      var job := Lookup(sessionJobs, a.jobId);
      if job.Some? { sessionJobs := sessionJobs[a.jobId := JobRunning]; }
      if !DatasetFound(env, a) { result := Fail(e, a.jobId); return; }
      if !env.valid(a.steps, env.datasets[a.datasetId].raw) { result := Fail(e, a.jobId); return; }
      var report, outputRows, outputKey := RunAndUpload(env, e, a);
      if fault.AfterUpload? { result := Fail(e, a.jobId); return; }
      session := session[e := session[e].(status := StatusOf(report.status), report := Some(report),
                                          outputKey := outputKey, outputRows := Some(outputRows),
                                          lockedBy := None, lockedAt := None)];
      assert session == rows[e := FinishedRow(env, a, e)];
      if job.Some? { sessionJobs := sessionJobs[a.jobId := JobCompleted]; }
      rows, jobs := session, sessionJobs;
      if fault.AfterCommit? { result := Fail(e, a.jobId); return; }
      result := Finished(report.status);
    }

    /** The pipeline and its upload, which is visible at once whatever the transaction does. */
    method RunAndUpload(env: Env, e: nat, a: Args)
      returns (report: Executor.Report, outputRows: nat, outputKey: Option<string>)
      requires DatasetFound(env, a)
      modifies this`objects
      ensures var o := OutcomeOf(env, a);
              && report == o.report && outputRows == |o.output.rows|
              && outputKey == (if HasOutput(o) then Some(Keys.OutputKey(a.userId, e)) else None)
              && objects == (if HasOutput(o) then old(objects)[Keys.OutputKey(a.userId, e) := o.output] else old(objects))
    {
      var df := env.datasets[a.datasetId].raw;
      var output;
      report, output := Executor.ExecutePipeline(env.registry, a.steps, df, env.converts(df));
      assert Executor.Outcome(report, output) == OutcomeOf(env, a);
      outputRows, outputKey := |output.rows|, None;
      if (report.status.Success? || report.status.Partial?) && |output.rows| > 0 {
        outputKey := Some(Keys.OutputKey(a.userId, e));
        objects := objects[outputKey.value := output];
      }
    }

    /** The exception handler: the open transaction is gone, a new one records the failure. */
    method Fail(e: nat, job: nat) returns (result: TaskResult)
      modifies this`rows, this`jobs
      ensures Effect(rows, jobs, objects, result) == Handled(old(rows), old(jobs), old(objects), e, job)
    {
      if e in rows && rows[e].status != Completed && rows[e].status != Failed {
        rows := rows[e := rows[e].(status := Failed, lockedBy := None, lockedAt := None)];
      }
      if job in jobs && jobs[job] != JobCompleted && jobs[job] != JobFailed {
        jobs := jobs[job := JobFailed];
      }
      result := Reraised;
    }

    /** The sweeper: fail every execution that has been running past the hard time limit. */
    method RecoverStaleExecutions(now: int)
      modifies this`rows
      ensures rows == RecoverStale(old(rows), now)
    {
      var stale := set e | e in rows && IsStale(rows[e], now);
      var todo := stale;
      while todo != {}
        invariant todo <= stale && rows.Keys == old(rows).Keys
        invariant forall e :: e in rows ==>
                    rows[e] == if e in stale - todo then FailRow(old(rows)[e]) else old(rows)[e]
        decreases todo
      {
        var e :| e in todo;
        rows := rows[e := rows[e].(status := Failed, lockedBy := None, lockedAt := None)];
        todo := todo - {e};
      }
      assert rows == RecoverStale(old(rows), now);
    }
  }

  // ---- What a delivery answers and leaves, by what it meets ------------------------------------------------------

  /** A delivery that finds no pending execution touches nothing and says why. */
  lemma {:induction false} SkippedExactlyWhen(env: Env, rows: map<nat, ExecutionRow>, jobs: map<nat, JobStatus>,
                                   objects: map<string, Table>, e: nat, a: Args, worker: string, fault: Fault)
    requires !fault.BeforeClaim?
    ensures var eff := TaskEffect(env, rows, jobs, objects, e, a, worker, fault);
            var other := e in rows && rows[e].status == Running && rows[e].lockedBy.Some? && rows[e].lockedBy != Some(worker);
            && (eff.result.Cached? <==> e in rows && rows[e].status == Completed)
            && (eff.result.LockedByOther? <==> other)
            && (eff.result.LockFailed? <==> !other && !(e in rows && rows[e].status in {Pending, Completed}))
            && (!(e in rows && rows[e].status == Pending) ==> eff.rows == rows && eff.jobs == jobs && eff.objects == objects)
  {
  }

  predicate InOrder(env: Env, a: Args) {
    && a.datasetId in env.datasets && env.datasets[a.datasetId].owner == a.userId
    && env.valid(a.steps, env.datasets[a.datasetId].raw)
  }

  /** The row of an execution that ended with this outcome; it has an output key exactly if it
      succeeded at least in part and left a row. */
  predicate EndedWith(row: ExecutionRow, o: Executor.Outcome, key: string) {
    && row.report == Some(o.report) && row.outputRows == Some(|o.output.rows|) && row.lockedBy.None? && row.lockedAt.None?
    && row.outputKey == (if !o.report.status.Failed? && |o.output.rows| > 0 then Some(key) else None)
    && match o.report.status
       case Success => row.status.Success?
       case Partial => row.status.Partial?
       case Failed => row.status.Failed?
  }

  /** A delivery that finds the execution pending and its data in order runs its steps on that data
      and leaves the outcome in the row, the job and the bucket; with an exception after the upload
      only the object stays, and after the commit a success is marked as failed. */
  lemma {:induction false} PendingIsRun(env: Env, rows: map<nat, ExecutionRow>, jobs: map<nat, JobStatus>,
                             objects: map<string, Table>, e: nat, a: Args, worker: string, fault: Fault)
    requires e in rows && rows[e].status == Pending && InOrder(env, a)
    requires fault.NoFault? || fault.AfterUpload? || fault.AfterCommit?
    ensures var raw, key := env.datasets[a.datasetId].raw, Keys.OutputKey(a.userId, e);
            var o := Executor.Execute(env.registry, a.steps, raw, env.converts(raw));
            var eff := TaskEffect(env, rows, jobs, objects, e, a, worker, fault);
            var ended := if a.jobId !in jobs || fault.AfterUpload? then jobs else jobs[a.jobId := JobCompleted];
            && eff.objects == (if !o.report.status.Failed? && |o.output.rows| > 0 then objects[key := o.output] else objects)
            && eff.rows.Keys == rows.Keys && (forall k :: k in rows && k != e ==> eff.rows[k] == rows[k])
            && (fault.NoFault? ==> EndedWith(eff.rows[e], o, key) && eff.jobs == ended && eff.result == Finished(o.report.status))
            && (fault.AfterCommit? ==>
                  && eff.rows[e].status == Failed && eff.jobs == ended && eff.result == Reraised
                  && exists row :: EndedWith(row, o, key) && eff.rows[e] == row.(status := Failed))
            && (fault.AfterUpload? ==> Failure(rows, jobs, e, a.jobId, eff.rows, eff.jobs) && eff.result == Reraised)
  {
    if fault.AfterCommit? {
      var row := FinishedRow(env, a, e);
      var raw := env.datasets[a.datasetId].raw;
      assert EndedWith(row, Executor.Execute(env.registry, a.steps, raw, env.converts(raw)), Keys.OutputKey(a.userId, e));
    }
  }

  /** What the failure handler makes of the tables: the row and the job, if they are there and not in
      a final state, are failed, the row also unlocked; nothing else changes. */
  ghost predicate Failure(rows: map<nat, ExecutionRow>, jobs: map<nat, JobStatus>, e: nat, job: nat,
                          rows': map<nat, ExecutionRow>, jobs': map<nat, JobStatus>)
  {
    && rows'.Keys == rows.Keys && jobs'.Keys == jobs.Keys
    && (forall k :: k in rows ==>
          rows'[k] == if k == e && rows[k].status !in {Completed, Failed}
                      then rows[k].(status := Failed, lockedBy := None, lockedAt := None) else rows[k])
    && (forall k :: k in jobs ==> jobs'[k] == if k == job && jobs[k] !in {JobCompleted, JobFailed} then JobFailed else jobs[k])
  }

  /** A delivery that raises before it has run its steps ends in the handler: at once, or with the
      execution pending after its claim, without its data, or with invalid steps. */
  lemma {:induction false} EarlyFailure(env: Env, rows: map<nat, ExecutionRow>, jobs: map<nat, JobStatus>,
                             objects: map<string, Table>, e: nat, a: Args, worker: string, fault: Fault)
    requires fault.BeforeClaim? || (e in rows && rows[e].status == Pending && (fault.AfterClaim? || !InOrder(env, a)))
    ensures var eff := TaskEffect(env, rows, jobs, objects, e, a, worker, fault);
            Failure(rows, jobs, e, a.jobId, eff.rows, eff.jobs) && eff.objects == objects && eff.result == Reraised
  {
  }

  /** The sweeper fails exactly the executions that are running, locked, and have been for more than
      ten minutes. */
  lemma {:induction false} SweptExactlyWhen(rows: map<nat, ExecutionRow>, now: int)
    ensures var u := RecoverStale(rows, now);
            && u.Keys == rows.Keys
            && forall e :: e in rows ==>
                 var row := rows[e];
                 u[e] == if row.status == Running && row.lockedBy.Some? && row.lockedAt.Some? && now - row.lockedAt.value > 600
                         then row.(status := Failed, lockedBy := None, lockedAt := None) else row
  {
  }

  // ---- The code is a path of the state machine ------------------------------------------------

  /** The steps of the machine. */
  function Steps(env: Env): (World, Action) -> Option<World> {
    (w: World, a: Action) => if Enabled(env, w, a) then Some(Next(env, w, a)) else None
  }

  /** The tables of a world after a delivery of e has had this effect and ended. */
  ghost predicate Shows(w: World, d: nat, eff: Effect) {
    && w.rows == eff.rows && w.jobs == eff.jobs && w.objects == eff.objects
    && d in w.deliveries && w.deliveries[d].pc == Done(eff.result)
  }

  ghost predicate AllBy(acts: seq<Action>, d: nat) {
    forall i :: 0 <= i < |acts| ==> Actor(acts[i]) == Some(d)
  }

  /** The handler of delivery d reads the row and the job. */
  lemma {:induction false} HandlerReads(env: Env, w: World, d: nat, seen: Option<Status>)
    requires Enabled(env, w, Raise(d))
    requires var e := w.deliveries[d].exec; seen == if e in w.rows then Some(w.rows[e].status) else None
    ensures var w1, w2 := Move(w, d, Raising), Move(w, d, SawRow(seen));
            && Next(env, w, Raise(d)) == w1
            && Enabled(env, w1, HandlerReadRow(d)) && Next(env, w1, HandlerReadRow(d)) == w2
            && Enabled(env, w2, HandlerReadJob(d))
            && Next(env, w2, HandlerReadJob(d))
               == Move(w, d, SawJob(seen, Lookup(w.jobs, w.messages[w.deliveries[d].exec].jobId)))
  {
  }

  /** ... and writes what it decided. */
  lemma {:induction false} HandlerWrites(env: Env, w: World, d: nat, seen: Option<Status>, w3: World)
    requires At(w, d)
    requires forall k :: k in w.deliveries && k != d ==>
               !(w.deliveries[k].exec == w.deliveries[d].exec && w.deliveries[k].pc.Holding())
    requires var e := w.deliveries[d].exec; seen == if e in w.rows then Some(w.rows[e].status) else None
    requires w3 == Move(w, d, SawJob(seen, Lookup(w.jobs, w.messages[w.deliveries[d].exec].jobId)))
    ensures Enabled(env, w3, HandlerCommit(d))
    ensures var e := w.deliveries[d].exec;
            Shows(Next(env, w3, HandlerCommit(d)), d, Handled(w.rows, w.jobs, w.objects, e, w.messages[e].jobId))
  {
    assert !Held(w3, w.deliveries[d].exec);
  }

  /** From any point where delivery d can raise, its handler runs to the end. */
  lemma {:induction false} FailurePath(env: Env, w0: World, acts: seq<Action>, w: World, d: nat)
    returns (path: seq<Action>, w': World)
    requires Leads(Steps(env), w0, acts, w) && AllBy(acts, d) && Enabled(env, w, Raise(d))
    requires forall k :: k in w.deliveries && k != d ==>
               !(w.deliveries[k].exec == w.deliveries[d].exec && w.deliveries[k].pc.Holding())
    ensures Leads(Steps(env), w0, path, w') && AllBy(path, d)
    ensures var e := w.deliveries[d].exec;
            Shows(w', d, Handled(w.rows, w.jobs, w.objects, e, w.messages[e].jobId))
  {
    var e := w.deliveries[d].exec;
    var seen := if e in w.rows then Some(w.rows[e].status) else None;
    var w1, w2 := Move(w, d, Raising), Move(w, d, SawRow(seen));
    var w3 := Move(w, d, SawJob(seen, Lookup(w.jobs, w.messages[e].jobId)));
    HandlerReads(env, w, d, seen);
    HandlerWrites(env, w, d, seen, w3);
    path := Then(env, w0, acts, w, Raise(d), d);
    path := Then(env, w0, path, w1, HandlerReadRow(d), d);
    path := Then(env, w0, path, w2, HandlerReadJob(d), d);
    path := Then(env, w0, path, w3, HandlerCommit(d), d);
    w' := Next(env, w3, HandlerCommit(d));
  }

  /** One more step of delivery d on a path. */
  lemma {:induction false} Then(env: Env, w0: World, acts: seq<Action>, w: World, a: Action, d: nat)
    returns (path: seq<Action>)
    requires Leads(Steps(env), w0, acts, w) && AllBy(acts, d) && Enabled(env, w, a) && Actor(a) == Some(d)
    ensures Leads(Steps(env), w0, path, Next(env, w, a)) && AllBy(path, d)
  {
    LeadsOneMore(Steps(env), w0, acts, w, a);
    path := acts + [a];
  }

  /** The delivery up to its claim attempt. */
  lemma {:induction false} ClaimPath(env: Env, w0: World, d: nat, e: nat, worker: string, now: int)
    returns (path: seq<Action>, w: World)
    requires d !in w0.deliveries && e in w0.messages && !Held(w0, e)
    requires e in w0.rows && !w0.rows[e].status.Running? && !w0.rows[e].status.Completed?
    ensures Leads(Steps(env), w0, path, w) && AllBy(path, d)
    ensures w == w0.(deliveries := w0.deliveries[d := Delivery(e, worker, ExecutionTask.AfterClaim(w0, Delivery(e, worker, Ready), now))])
  {
    var w1, w2 := ReadySteps(env, w0, d, e, worker);
    path := Then(env, w0, [], w0, Deliver(d, e, worker), d);
    path := Then(env, w0, path, w1, ReadRow(d), d);
    w := ClaimStep(env, w0, w2, d, e, worker, now);
    path := Then(env, w0, path, w2, Claim(d, now), d);
  }

  lemma {:induction false} ReadySteps(env: Env, w0: World, d: nat, e: nat, worker: string) returns (w1: World, w2: World)
    requires d !in w0.deliveries && e in w0.messages
    requires e in w0.rows && !w0.rows[e].status.Running? && !w0.rows[e].status.Completed?
    ensures Enabled(env, w0, Deliver(d, e, worker)) && w1 == Next(env, w0, Deliver(d, e, worker))
    ensures Enabled(env, w1, ReadRow(d)) && w2 == Next(env, w1, ReadRow(d))
    ensures w2 == w0.(deliveries := w0.deliveries[d := Delivery(e, worker, Ready)])
  {
    w1 := Next(env, w0, Deliver(d, e, worker));
    w2 := Next(env, w1, ReadRow(d));
    assert w2.deliveries == w0.deliveries[d := Delivery(e, worker, Ready)];
  }

  lemma {:induction false} ClaimStep(env: Env, w0: World, w2: World, d: nat, e: nat, worker: string, now: int)
    returns (w: World)
    requires d !in w0.deliveries && e in w0.messages && e in w0.rows && !Held(w0, e)
    requires w2 == w0.(deliveries := w0.deliveries[d := Delivery(e, worker, Ready)])
    ensures Enabled(env, w2, Claim(d, now)) && w == Next(env, w2, Claim(d, now))
    ensures w == w0.(deliveries := w0.deliveries[d := Delivery(e, worker, ExecutionTask.AfterClaim(w0, Delivery(e, worker, Ready), now))])
  {
    assert !Held(w2, e);
    w := Next(env, w2, Claim(d, now));
    assert w.deliveries == w0.deliveries[d := Delivery(e, worker, ExecutionTask.AfterClaim(w0, Delivery(e, worker, Ready), now))];
  }

  lemma {:induction false} NobodyElseHolds(env: Env, w0: World, w: World, d: nat, e: nat)
    requires !Held(w0, e) && d in w.deliveries && w.deliveries[d].exec == e
    requires forall k :: k in w.deliveries && k != d ==> k in w0.deliveries && w.deliveries[k] == w0.deliveries[k]
    ensures forall k :: k in w.deliveries && k != d ==> !(w.deliveries[k].exec == e && w.deliveries[k].pc.Holding())
  {
  }

  /** Every undisturbed delivery, interrupted or not, is a path of the state machine. */
  lemma {:induction false} TaskIsAPath(env: Env, w0: World, d: nat, e: nat, worker: string, now: int, fault: Fault)
    returns (path: seq<Action>, w': World)
    requires Inv(env, w0) && d !in w0.deliveries && e in w0.messages && !Held(w0, e)
    ensures Leads(Steps(env), w0, path, w') && AllBy(path, d)
    ensures Shows(w', d, TaskEffect(env, w0.rows, w0.jobs, w0.objects, e, w0.messages[e], worker, fault))
  {
    var a := w0.messages[e];
    assert RowOk(env, w0, e);
    if fault.BeforeClaim? {
      var w1 := Next(env, w0, Deliver(d, e, worker));
      LeadsOneMore(Steps(env), w0, [], w0, Deliver(d, e, worker));
      NobodyElseHolds(env, w0, w1, d, e);
      path, w' := FailurePath(env, w0, [] + [Deliver(d, e, worker)], w1, d);
    } else {
      var p, w := ClaimPath(env, w0, d, e, worker, now);
      NobodyElseHolds(env, w0, w, d, e);
      if !w0.rows[e].status.Pending? {
        path, w' := p, w;
      } else if fault.AfterClaim? || !Runnable(env, a) {
        path, w' := FailurePath(env, w0, p, w, d);
      } else {
        path, w' := WorkPath(env, w0, p, w, d, fault);
      }
    }
  }

  /** The steps of delivery d from its claim to its upload. */
  lemma {:induction false} StoreSteps(env: Env, w: World, d: nat) returns (w1: World, w2: World)
    requires At(w, d) && w.deliveries[d].pc.Claimed? && Runnable(env, w.messages[w.deliveries[d].exec])
    ensures Enabled(env, w, StartJob(d)) && w1 == Next(env, w, StartJob(d))
    ensures Enabled(env, w1, Store(d)) && w2 == Next(env, w1, Store(d))
    ensures w2 == Move(Upload(env, w, w.deliveries[d].exec), d, w2.deliveries[d].pc)
    ensures var e := w.deliveries[d].exec;
            w2.deliveries[d].pc == Stored(FinishedRow(env, w.messages[e], e),
                                          if w.messages[e].jobId in w.jobs then Some(JobCompleted) else None)
  {
    w1 := Next(env, w, StartJob(d));
    w2 := Next(env, w1, Store(d));
  }

  /** A fault changes which of the intermediate tables the handler works on. */
  lemma {:induction false} FaultEffects(env: Env, rows: map<nat, ExecutionRow>, jobs: map<nat, JobStatus>,
                       objects: map<string, Table>, e: nat, a: Args, worker: string)
    requires e in rows && rows[e].status.Pending? && Runnable(env, a)
    ensures var eff := TaskEffect(env, rows, jobs, objects, e, a, worker, NoFault);
            && TaskEffect(env, rows, jobs, objects, e, a, worker, AfterUpload)
               == Handled(rows, jobs, eff.objects, e, a.jobId)
            && TaskEffect(env, rows, jobs, objects, e, a, worker, AfterCommit)
               == Handled(eff.rows, eff.jobs, eff.objects, e, a.jobId)
  {
  }

  /** The delivery from its claim to its end, when the data is there and the steps are valid. */
  lemma {:induction false} WorkPath(env: Env, w0: World, p: seq<Action>, w: World, d: nat, fault: Fault)
    returns (path: seq<Action>, w': World)
    requires Leads(Steps(env), w0, p, w) && AllBy(p, d) && At(w, d) && w.deliveries[d].pc.Claimed?
    requires Runnable(env, w.messages[w.deliveries[d].exec]) && !fault.BeforeClaim? && !fault.AfterClaim?
    requires w.deliveries[d].exec in w.rows && w.rows[w.deliveries[d].exec] == FRESH
    requires forall k :: k in w.deliveries && k != d ==>
               !(w.deliveries[k].exec == w.deliveries[d].exec && w.deliveries[k].pc.Holding())
    ensures Leads(Steps(env), w0, path, w') && AllBy(path, d)
    ensures var e := w.deliveries[d].exec;
            Shows(w', d, TaskEffect(env, w.rows, w.jobs, w.objects, e, w.messages[e], w.deliveries[d].worker, fault))
  {
    var e := w.deliveries[d].exec;
    FaultEffects(env, w.rows, w.jobs, w.objects, e, w.messages[e], w.deliveries[d].worker);
    var w1, w2 := StoreSteps(env, w, d);
    path := Then(env, w0, p, w, StartJob(d), d);
    path := Then(env, w0, path, w1, Store(d), d);
    if fault.AfterUpload? {
      path, w' := FailurePath(env, w0, path, w2, d);
    } else {
      path, w' := CommitPath(env, w0, path, w2, d, fault);
    }
  }

  /** The delivery after its upload, when it reaches its commit. */
  lemma {:induction false} CommitPath(env: Env, w0: World, p: seq<Action>, w: World, d: nat, fault: Fault)
    returns (path: seq<Action>, w': World)
    requires Leads(Steps(env), w0, p, w) && AllBy(p, d) && At(w, d) && w.deliveries[d].pc.Stored?
    requires w.deliveries[d].pc.row.report.Some?
    requires forall k :: k in w.deliveries && k != d ==>
               !(w.deliveries[k].exec == w.deliveries[d].exec && w.deliveries[k].pc.Holding())
    ensures Leads(Steps(env), w0, path, w') && AllBy(path, d)
    ensures var e, pc := w.deliveries[d].exec, w.deliveries[d].pc;
            var rows := w.rows[e := pc.row];
            var jobs := if pc.job.Some? then w.jobs[w.messages[e].jobId := pc.job.value] else w.jobs;
            Shows(w', d, if fault.AfterCommit? then Handled(rows, jobs, w.objects, e, w.messages[e].jobId)
                         else Effect(rows, jobs, w.objects, Finished(pc.row.report.value.status)))
  {
    var w1 := Next(env, w, Commit(d));
    path := Then(env, w0, p, w, Commit(d), d);
    path, w' := EndPath(env, w0, path, w1, d, fault);
  }

  /** The delivery after its commit. */
  lemma {:induction false} EndPath(env: Env, w0: World, p: seq<Action>, w: World, d: nat, fault: Fault)
    returns (path: seq<Action>, w': World)
    requires Leads(Steps(env), w0, p, w) && AllBy(p, d) && At(w, d) && w.deliveries[d].pc.Committed?
    requires forall k :: k in w.deliveries && k != d ==>
               !(w.deliveries[k].exec == w.deliveries[d].exec && w.deliveries[k].pc.Holding())
    ensures Leads(Steps(env), w0, path, w') && AllBy(path, d)
    ensures var e := w.deliveries[d].exec;
            Shows(w', d, if fault.AfterCommit? then Handled(w.rows, w.jobs, w.objects, e, w.messages[e].jobId)
                         else Effect(w.rows, w.jobs, w.objects, Finished(w.deliveries[d].pc.status)))
  {
    if fault.AfterCommit? {
      path, w' := FailurePath(env, w0, p, w, d);
    } else {
      path := Then(env, w0, p, w, Return(d), d);
      w' := Next(env, w, Return(d));
    }
  }

  /** An execution that ended in success can still turn into a failure: a later delivery of
      the same message that raises before it looks at the row overwrites the status. The
      output stays in place. */
  lemma {:induction false} RedeliveryCanFailASuccess(env: Env, rows: map<nat, ExecutionRow>, jobs: map<nat, JobStatus>,
                                  objects: map<string, Table>, e: nat, a: Args, worker: string)
    requires e in rows && rows[e].status.Pending? && Runnable(env, a)
    requires OutcomeOf(env, a).report.status.Success?
    ensures var first := TaskEffect(env, rows, jobs, objects, e, a, worker, NoFault);
            var second := TaskEffect(env, first.rows, first.jobs, first.objects, e, a, worker, BeforeClaim);
            && first.rows[e].status.Success? && second.rows[e] == first.rows[e].(status := Failed)
            && (TaskEffect(env, first.rows, first.jobs, first.objects, e, a, worker, NoFault)
                == first.(result := LockFailed))
  {
  }
}
