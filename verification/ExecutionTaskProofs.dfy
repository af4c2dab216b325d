/** What every run of the worker-side state machine keeps. */
module ExecutionTaskProofs {
  import opened Options
  import Executor
  import Keys
  import opened ExecutionTask

  // ---- The invariant ------------------------------------------------------------------------

  /** Execution e's output is stored under its own key. */
  ghost predicate OutputStored(env: Env, w: World, e: nat) {
    && e in w.messages && DatasetFound(env, w.messages[e])
    && var key := Keys.OutputKey(w.messages[e].userId, e);
       var o := OutcomeOf(env, w.messages[e]);
       && key in w.objects && w.objects[key] == o.output
       && (o.report.status.Success? || o.report.status.Partial?) && |o.output.rows| > 0
  }

  ghost predicate RowOk(env: Env, w: World, e: nat)
    requires e in w.rows
  {
    var row := w.rows[e];
    && !row.status.Running? && !row.status.Completed? && row.lockedBy.None? && row.lockedAt.None?
    && (row.status.Pending? ==> row == FRESH)
    && (row.report.None? ==> row.outputKey.None? && row.outputRows.None? && (row.status.Pending? || row.status.Failed?))
    && (row.report.Some? ==>
          && e in w.messages && DatasetFound(env, w.messages[e])
          && (row == FinishedRow(env, w.messages[e], e) || row == FailRow(FinishedRow(env, w.messages[e], e)))
          && (row.outputKey.Some? ==> OutputStored(env, w, e)))
    && (row.report.Some? <==> w.claims[e] == 1)
  }

  ghost predicate DeliveryOk(env: Env, w: World, d: nat)
    requires d in w.deliveries
  {
    var x := w.deliveries[d];
    && x.exec in w.messages
    && (x.pc.Holding() ==> x.exec in w.rows && w.rows[x.exec] == FRESH)
    && (x.pc.Claimed? || x.pc.Working? ==>
          x.pc.row.status.Running? && x.pc.row.lockedBy == Some(x.worker) && x.pc.row.lockedAt.Some?)
    && (x.pc.Stored? ==>
          && DatasetFound(env, w.messages[x.exec])
          && x.pc.row == FinishedRow(env, w.messages[x.exec], x.exec)
          && (x.pc.row.outputKey.Some? ==> OutputStored(env, w, x.exec)))
  }

  ghost predicate OneHolder(w: World, d1: nat, d2: nat)
    requires d1 in w.deliveries && d2 in w.deliveries
  {
    (w.deliveries[d1].pc.Holding() && w.deliveries[d2].pc.Holding()
     && w.deliveries[d1].exec == w.deliveries[d2].exec) ==> d1 == d2
  }

  /** An object of the bucket is the output of some dispatched execution. */
  ghost predicate Owns(env: Env, w: World, key: string, e: nat) {
    && OutputStored(env, w, e) && key == Keys.OutputKey(w.messages[e].userId, e)
  }

  ghost predicate Inv(env: Env, w: World) {
    && (forall e :: e in w.rows ==> RowOk(env, w, e))
    && (forall d :: d in w.deliveries ==> DeliveryOk(env, w, d))
    && (forall d1, d2 :: d1 in w.deliveries && d2 in w.deliveries ==> OneHolder(w, d1, d2))
    && (forall key :: key in w.objects ==> exists e :: Owns(env, w, key, e))
    && (forall e :: e in w.messages ==> e in w.rows)
    && (forall e :: w.claims[e] <= 1 && (w.claims[e] == 1 ==> e in w.rows))
  }

  /** Steps that only move one delivery and leave what it holds alone or give it up. */
  lemma {:induction false} MoveKeepsInv(env: Env, w: World, d: nat, pc: Pc)
    requires Inv(env, w) && d in w.deliveries
    requires pc.Holding() ==> w.deliveries[d].pc.Holding() || !Held(w, w.deliveries[d].exec)
    requires DeliveryOk(env, Move(w, d, pc), d)
    ensures Inv(env, Move(w, d, pc))
  {
    var w' := Move(w, d, pc);
    forall e | e in w'.rows ensures RowOk(env, w', e) { assert RowOk(env, w, e); }
    forall k | k in w'.deliveries ensures DeliveryOk(env, w', k) {
      assert k != d ==> DeliveryOk(env, w, k);
    }
    forall d1, d2 | d1 in w'.deliveries && d2 in w'.deliveries ensures OneHolder(w', d1, d2) {
      assert OneHolder(w, d1, d2);
    }
    forall key | key in w'.objects ensures exists e :: Owns(env, w', key, e) {
      var e :| Owns(env, w, key, e);
      assert Owns(env, w', key, e);
    }
  }

  lemma {:induction false} CreateKeepsInv(env: Env, w: World, e: nat, j: nat)
    requires Inv(env, w) && Enabled(env, w, CreateExecution(e, j))
    ensures Inv(env, Next(env, w, CreateExecution(e, j)))
  {
    var w' := Next(env, w, CreateExecution(e, j));
    forall k | k in w'.rows ensures RowOk(env, w', k) { assert k != e ==> RowOk(env, w, k); }
    forall d | d in w'.deliveries ensures DeliveryOk(env, w', d) { assert DeliveryOk(env, w, d); }
    forall d1, d2 | d1 in w'.deliveries && d2 in w'.deliveries ensures OneHolder(w', d1, d2) {
      assert OneHolder(w, d1, d2);
    }
    forall key | key in w'.objects ensures exists k :: Owns(env, w', key, k) {
      var k :| Owns(env, w, key, k);
      assert Owns(env, w', key, k);
    }
  }

  lemma {:induction false} DispatchKeepsInv(env: Env, w: World, e: nat, args: Args)
    requires Inv(env, w) && Enabled(env, w, Dispatch(e, args))
    ensures Inv(env, Next(env, w, Dispatch(e, args)))
  {
    var w' := Next(env, w, Dispatch(e, args));
    forall k | k in w'.rows ensures RowOk(env, w', k) { assert RowOk(env, w, k); }
    forall d | d in w'.deliveries ensures DeliveryOk(env, w', d) { assert DeliveryOk(env, w, d); }
    forall d1, d2 | d1 in w'.deliveries && d2 in w'.deliveries ensures OneHolder(w', d1, d2) {
      assert OneHolder(w, d1, d2);
    }
    forall key | key in w'.objects ensures exists k :: Owns(env, w', key, k) {
      var k :| Owns(env, w, key, k);
      assert Owns(env, w', key, k);
    }
  }

  lemma {:induction false} DeliverKeepsInv(env: Env, w: World, d: nat, e: nat, worker: string)
    requires Inv(env, w) && Enabled(env, w, Deliver(d, e, worker))
    ensures Inv(env, Next(env, w, Deliver(d, e, worker)))
  {
    var w' := Next(env, w, Deliver(d, e, worker));
    forall k | k in w'.rows ensures RowOk(env, w', k) { assert RowOk(env, w, k); }
    forall k | k in w'.deliveries ensures DeliveryOk(env, w', k) { assert k != d ==> DeliveryOk(env, w, k); }
    forall d1, d2 | d1 in w'.deliveries && d2 in w'.deliveries ensures OneHolder(w', d1, d2) {
      assert d1 != d && d2 != d ==> OneHolder(w, d1, d2);
    }
    forall key | key in w'.objects ensures exists k :: Owns(env, w', key, k) {
      var k :| Owns(env, w, key, k);
      assert Owns(env, w', key, k);
    }
  }

  /** The bucket after the upload of execution e. */
  function Upload(env: Env, w: World, e: nat): World
    requires e in w.messages && DatasetFound(env, w.messages[e])
  {
    var o := OutcomeOf(env, w.messages[e]);
    w.(objects := if HasOutput(o) then w.objects[Keys.OutputKey(w.messages[e].userId, e) := o.output] else w.objects)
  }

  /** An upload never disturbs the object of another execution, and repeating one changes
      nothing at all. */
  lemma {:induction false} UploadKeepsOutputs(env: Env, w: World, e: nat, k: nat)
    requires e in w.messages && DatasetFound(env, w.messages[e])
    requires OutputStored(env, w, k)
    ensures OutputStored(env, Upload(env, w, e), k)
    ensures k == e ==> Upload(env, w, e) == w
  {
    if Keys.OutputKey(w.messages[e].userId, e) == Keys.OutputKey(w.messages[k].userId, k) {
      Keys.OutputKeyInjective(w.messages[e].userId, e, w.messages[k].userId, k);
    }
  }

  lemma {:induction false} UploadKeepsInv(env: Env, w: World, e: nat)
    requires Inv(env, w) && e in w.messages && DatasetFound(env, w.messages[e])
    ensures Inv(env, Upload(env, w, e))
    ensures HasOutput(OutcomeOf(env, w.messages[e])) ==> OutputStored(env, Upload(env, w, e), e)
  {
    var w' := Upload(env, w, e);
    forall k | k in w'.rows ensures RowOk(env, w', k) {
      assert RowOk(env, w, k);
      if w.rows[k].outputKey.Some? { UploadKeepsOutputs(env, w, e, k); }
    }
    forall d | d in w'.deliveries ensures DeliveryOk(env, w', d) {
      assert DeliveryOk(env, w, d);
      var x := w.deliveries[d];
      if x.pc.Stored? && x.pc.row.outputKey.Some? { UploadKeepsOutputs(env, w, e, x.exec); }
    }
    forall d1, d2 | d1 in w'.deliveries && d2 in w'.deliveries ensures OneHolder(w', d1, d2) {
      assert OneHolder(w, d1, d2);
    }
    forall key | key in w'.objects ensures exists k :: Owns(env, w', key, k) {
      if key in w.objects {
        var k :| Owns(env, w, key, k);
        UploadKeepsOutputs(env, w, e, k);
        assert Owns(env, w', key, k);
      } else {
        assert Owns(env, w', key, e);
      }
    }
  }

  lemma {:induction false} StoreKeepsInv(env: Env, w: World, d: nat)
    requires Inv(env, w) && Enabled(env, w, Store(d))
    ensures Inv(env, Next(env, w, Store(d)))
  {
    var x := w.deliveries[d];
    var args := w.messages[x.exec];
    assert DeliveryOk(env, w, d);
    UploadKeepsInv(env, w, x.exec);
    var up := Upload(env, w, x.exec);
    var pc := Stored(FinishedRow(env, args, x.exec), if x.pc.job.Some? then Some(JobCompleted) else None);
    assert Next(env, w, Store(d)) == Move(up, d, pc);
    assert FinishedRow(env, args, x.exec).outputKey.Some? ==> OutputStored(env, Move(up, d, pc), x.exec);
    MoveKeepsInv(env, up, d, pc);
  }

  /** Writing the final row of an execution on which nobody else holds the lock. */
  lemma {:induction false} WriteKeepsInv(env: Env, w: World, w': World, e: nat)
    requires Inv(env, w) && e in w.rows
    requires w'.rows.Keys == w.rows.Keys && (forall k :: k in w.rows && k != e ==> w'.rows[k] == w.rows[k])
    requires w'.objects == w.objects && w'.messages == w.messages && w'.deliveries == w.deliveries
    requires !Held(w, e) && (forall k :: k != e ==> w'.claims[k] == w.claims[k])
    requires RowOk(env, w', e) && w'.claims[e] <= 1
    ensures Inv(env, w')
  {
    forall k | k in w'.rows ensures RowOk(env, w', k) { assert k != e ==> RowOk(env, w, k); }
    forall d | d in w'.deliveries ensures DeliveryOk(env, w', d) { assert DeliveryOk(env, w, d); }
    forall d1, d2 | d1 in w'.deliveries && d2 in w'.deliveries ensures OneHolder(w', d1, d2) {
      assert OneHolder(w, d1, d2);
    }
    forall key | key in w'.objects ensures exists k :: Owns(env, w', key, k) {
      var k :| Owns(env, w, key, k);
      assert Owns(env, w', key, k);
    }
  }

  lemma {:induction false} CommitKeepsInv(env: Env, w: World, d: nat)
    requires Inv(env, w) && Enabled(env, w, Commit(d))
    ensures Inv(env, Next(env, w, Commit(d)))
  {
    var x := w.deliveries[d];
    assert DeliveryOk(env, w, d);
    assert RowOk(env, w, x.exec);
    var pc := Committed(x.pc.row.report.value.status);
    MoveKeepsInv(env, w, d, pc);
    CommitFrees(env, w, d, pc);
    CommitWrites(env, w, d, Move(w, d, pc), Next(env, w, Commit(d)));
    WriteKeepsInv(env, Move(w, d, pc), Next(env, w, Commit(d)), x.exec);
  }

  /** The lock is free once its only holder has moved on. */
  lemma {:induction false} CommitFrees(env: Env, w: World, d: nat, pc: Pc)
    requires d in w.deliveries && w.deliveries[d].pc.Holding() && !pc.Holding()
    requires forall d1, d2 :: d1 in w.deliveries && d2 in w.deliveries ==> OneHolder(w, d1, d2)
    ensures !Held(Move(w, d, pc), w.deliveries[d].exec)
  {
    var e := w.deliveries[d].exec;
    forall k | k in w.deliveries && k != d ensures !(w.deliveries[k].exec == e && w.deliveries[k].pc.Holding()) {
      assert OneHolder(w, d, k);
    }
  }

  lemma {:induction false} CommitWrites(env: Env, w: World, d: nat, freed: World, w': World)
    requires Enabled(env, w, Commit(d)) && DeliveryOk(env, w, d) && w' == Next(env, w, Commit(d))
    requires RowOk(env, w, w.deliveries[d].exec) && w.claims[w.deliveries[d].exec] <= 1
    requires freed == Move(w, d, Committed(w.deliveries[d].pc.row.report.value.status))
    ensures var e := w.deliveries[d].exec;
            && w'.rows == freed.rows[e := w.deliveries[d].pc.row]
            && w'.objects == freed.objects && w'.messages == freed.messages && w'.deliveries == freed.deliveries
            && (forall k :: k != e ==> w'.claims[k] == freed.claims[k])
            && RowOk(env, w', e) && w'.claims[e] <= 1
  {
  }

  lemma {:induction false} HandlerKeepsInv(env: Env, w: World, d: nat)
    requires Inv(env, w) && Enabled(env, w, HandlerCommit(d))
    ensures Inv(env, Next(env, w, HandlerCommit(d)))
  {
    var e, seen := w.deliveries[d].exec, w.deliveries[d].pc.seen;
    var freed := Move(w, d, Done(Reraised));
    assert DeliveryOk(env, w, d);
    MoveKeepsInv(env, w, d, Done(Reraised));
    var rows := if RowFailable(seen) then freed.rows[e := FailRow(freed.rows[e])] else freed.rows;
    var failed := freed.(rows := rows);
    if RowFailable(seen) {
      FreedIsNotHeld(w, d, Done(Reraised), e);
      FailKeepsInv(env, freed, failed, e);
    }
    SameRowsKeepInv(env, failed, Next(env, w, HandlerCommit(d)));
  }

  lemma {:induction false} FreedIsNotHeld(w: World, d: nat, pc: Pc, e: nat)
    requires d in w.deliveries && !Held(w, e) && !pc.Holding()
    ensures !Held(Move(w, d, pc), e)
  {
  }

  /** A failure mark on an execution nobody holds. */
  lemma {:induction false} FailKeepsInv(env: Env, w: World, w': World, e: nat)
    requires Inv(env, w) && e in w.rows && !Held(w, e)
    requires w' == w.(rows := w.rows[e := FailRow(w.rows[e])])
    ensures Inv(env, w')
  {
    assert RowOk(env, w, e);
    assert RowOk(env, w', e);
    WriteKeepsInv(env, w, w', e);
  }

  /** The jobs table plays no part in the invariant. */
  lemma {:induction false} SameRowsKeepInv(env: Env, w: World, w': World)
    requires Inv(env, w) && w' == w.(jobs := w'.jobs)
    ensures Inv(env, w')
  {
    forall k | k in w'.rows ensures RowOk(env, w', k) { assert RowOk(env, w, k); }
    forall d | d in w'.deliveries ensures DeliveryOk(env, w', d) { assert DeliveryOk(env, w, d); }
    forall d1, d2 | d1 in w'.deliveries && d2 in w'.deliveries ensures OneHolder(w', d1, d2) {
      assert OneHolder(w, d1, d2);
    }
    forall key | key in w'.objects ensures exists k :: Owns(env, w', key, k) {
      var k :| Owns(env, w, key, k);
      assert Owns(env, w', key, k);
    }
  }

  /** The claim and the final write share one transaction, so no committed row is ever
      `running` and the stale sweeper has nothing to recover. */
  lemma {:induction false} SweepIsNoOp(env: Env, w: World, now: int)
    requires Inv(env, w)
    ensures Next(env, w, SweepStale(now)) == w
  {
    forall e | e in w.rows ensures !IsStale(w.rows[e], now) { assert RowOk(env, w, e); }
    assert RecoverStale(w.rows, now) == w.rows;
  }

  lemma {:induction false} ClaimKeepsInv(env: Env, w: World, d: nat, now: int)
    requires Inv(env, w) && Enabled(env, w, Claim(d, now))
    ensures Inv(env, Next(env, w, Claim(d, now)))
  {
    var x := w.deliveries[d];
    assert DeliveryOk(env, w, d) && RowOk(env, w, x.exec);
    MoveKeepsInv(env, w, d, AfterClaim(w, x, now));
  }

  lemma {:induction false} ReadKeepsInv(env: Env, w: World, d: nat)
    requires Inv(env, w) && Enabled(env, w, ReadRow(d))
    ensures Inv(env, Next(env, w, ReadRow(d)))
  {
    assert DeliveryOk(env, w, d);
    MoveKeepsInv(env, w, d, AfterRead(w, w.deliveries[d]));
  }

  lemma {:induction false} StartJobKeepsInv(env: Env, w: World, d: nat)
    requires Inv(env, w) && Enabled(env, w, StartJob(d))
    ensures Inv(env, Next(env, w, StartJob(d)))
  {
    assert DeliveryOk(env, w, d);
    MoveKeepsInv(env, w, d, AfterStartJob(w, w.deliveries[d]));
  }

  /** A step of a delivery that neither takes nor uses the lock. */
  lemma {:induction false} ReleaseKeepsInv(env: Env, w: World, d: nat, pc: Pc)
    requires Inv(env, w) && d in w.deliveries && !pc.Holding()
    ensures Inv(env, Move(w, d, pc))
  {
    assert DeliveryOk(env, w, d);
    MoveKeepsInv(env, w, d, pc);
  }

  /** The steps that write no committed row. */
  predicate IsMove(a: Action) {
    a.ReadRow? || a.Claim? || a.StartJob? || a.Return? || a.Raise? || a.Crash? || a.HandlerReadRow? || a.HandlerReadJob?
  }

  lemma {:induction false} MoveStepKeepsInv(env: Env, w: World, a: Action)
    requires Inv(env, w) && Enabled(env, w, a) && IsMove(a)
    ensures Inv(env, Next(env, w, a))
  {
    if a.ReadRow? { ReadKeepsInv(env, w, a.d); }
    else if a.Claim? { ClaimKeepsInv(env, w, a.d, a.now); }
    else if a.StartJob? { StartJobKeepsInv(env, w, a.d); }
    else { ReleaseKeepsInv(env, w, a.d, Next(env, w, a).deliveries[a.d].pc); }
  }

  lemma {:induction false} WriteStepKeepsInv(env: Env, w: World, a: Action)
    requires Inv(env, w) && Enabled(env, w, a) && !IsMove(a)
    ensures Inv(env, Next(env, w, a))
  {
    match a
    case Idle =>
    case CreateExecution(e, j) => CreateKeepsInv(env, w, e, j);
    case Dispatch(e, args) => DispatchKeepsInv(env, w, e, args);
    case Deliver(d, e, worker) => DeliverKeepsInv(env, w, d, e, worker);
    case Store(d) => StoreKeepsInv(env, w, d);
    case Commit(d) => CommitKeepsInv(env, w, d);
    case HandlerCommit(d) => HandlerKeepsInv(env, w, d);
    case SweepStale(now) => SweepIsNoOp(env, w, now);
  }

  lemma {:induction false} StepKeepsInv(env: Env, w: World, a: Action)
    requires Inv(env, w) && Enabled(env, w, a)
    ensures Inv(env, Next(env, w, a))
  {
    if IsMove(a) { MoveStepKeepsInv(env, w, a); } else { WriteStepKeepsInv(env, w, a); }
  }

  lemma {:induction false} RunKeepsInv(env: Env, tr: seq<World>, acts: seq<Action>, i: nat)
    requires Run(env, tr, acts) && i < |tr|
    ensures Inv(env, tr[i])
  {
    if i > 0 {
      RunKeepsInv(env, tr, acts, i - 1);
      StepKeepsInv(env, tr[i - 1], acts[i - 1]);
    }
  }

  // ---- Main results over every run --------------------------------------------------------

  /** In every reachable state, an execution row with an output key has an object at exactly
      that key, holding what the pipeline computes from its own steps and its raw data, and
      its report is the report of that very computation. */
  lemma {:induction false} OutputsAreFaithful(env: Env, tr: seq<World>, acts: seq<Action>, i: nat, e: nat)
    requires Run(env, tr, acts) && i < |tr|
    requires e in tr[i].rows && tr[i].rows[e].outputKey.Some?
    ensures e in tr[i].messages && DatasetFound(env, tr[i].messages[e])
    ensures var w, args := tr[i], tr[i].messages[e];
            var key := Keys.OutputKey(args.userId, e);
            var o := OutcomeOf(env, args);
            && w.rows[e].outputKey == Some(key) && key in w.objects && w.objects[key] == o.output
            && w.rows[e].report == Some(o.report) && w.rows[e].outputRows == Some(|o.output.rows|) && HasOutput(o)
  {
    RunKeepsInv(env, tr, acts, i);
    assert RowOk(env, tr[i], e);
  }

  /** A row with a report carries that of its own steps on its own dataset, its owner's, and the
      number of rows they left. It has an output key, and the bucket the output under it, exactly when
      the run succeeded at least in part and left a row; otherwise it has neither. Its status is that
      of the report, or `failed` after a late failure. */
  lemma {:induction false} ReportDecidesOutput(env: Env, tr: seq<World>, acts: seq<Action>, i: nat, e: nat)
    requires Run(env, tr, acts) && i < |tr| && e in tr[i].rows && tr[i].rows[e].report.Some?
    ensures e in tr[i].messages
    ensures var a := tr[i].messages[e]; a.datasetId in env.datasets && env.datasets[a.datasetId].owner == a.userId
    ensures var w, row, a := tr[i], tr[i].rows[e], tr[i].messages[e];
            var raw, key := env.datasets[a.datasetId].raw, Keys.OutputKey(a.userId, e);
            var o := Executor.Execute(env.registry, a.steps, raw, env.converts(raw));
            && row.report == Some(o.report) && row.outputRows == Some(|o.output.rows|)
            && (if (o.report.status.Success? || o.report.status.Partial?) && |o.output.rows| > 0
                then row.outputKey == Some(key) && key in w.objects && w.objects[key] == o.output
                else row.outputKey.None? && key !in w.objects)
            && match o.report.status
               case Success => row.status.Success? || row.status.Failed?
               case Partial => row.status.Partial? || row.status.Failed?
               case Failed => row.status.Failed?
  {
    var w := tr[i];
    RunKeepsInv(env, tr, acts, i);
    assert RowOk(env, w, e);
    var key := Keys.OutputKey(w.messages[e].userId, e);
    if key in w.objects { StoredUnderOwnKey(env, w, e, key); }
  }

  /** The commit writes the report's own status. */
  lemma {:induction false} CommitWritesTheReport(env: Env, tr: seq<World>, acts: seq<Action>, i: nat, e: nat)
    requires Run(env, tr, acts) && CommitAt(tr, acts, e, i)
    ensures e in tr[i + 1].rows && tr[i + 1].rows[e].report.Some?
    ensures var row := tr[i + 1].rows[e];
            match row.report.value.status
            case Success => row.status.Success?
            case Partial => row.status.Partial?
            case Failed => row.status.Failed?
  {
    RunKeepsInv(env, tr, acts, i);
    assert DeliveryOk(env, tr[i], acts[i].d);
  }

  /** Every object of the bucket sits at the one key of some dispatched execution and holds
      that execution's output: a rerun never leaves a second or a stale object. */
  lemma {:induction false} OneObjectPerExecution(env: Env, tr: seq<World>, acts: seq<Action>, i: nat, key: string)
    requires Run(env, tr, acts) && i < |tr| && key in tr[i].objects
    ensures exists e :: Owns(env, tr[i], key, e) && forall e' :: Owns(env, tr[i], key, e') ==> e' == e
  {
    RunKeepsInv(env, tr, acts, i);
    var e :| Owns(env, tr[i], key, e);
    forall e' | Owns(env, tr[i], key, e') ensures e' == e {
      Keys.OutputKeyInjective(tr[i].messages[e].userId, e, tr[i].messages[e'].userId, e');
    }
  }

  /** Repeating the upload of an execution leaves the whole bucket as it was. */
  lemma {:induction false} SecondUploadChangesNothing(env: Env, tr: seq<World>, acts: seq<Action>, i: nat, d: nat)
    requires Run(env, tr, acts) && i < |acts| && acts[i] == Store(d)
    requires Keys.OutputKey(tr[i].messages[tr[i].deliveries[d].exec].userId, tr[i].deliveries[d].exec) in tr[i].objects
    ensures tr[i + 1].objects == tr[i].objects
  {
    RunKeepsInv(env, tr, acts, i);
    var w := tr[i];
    var e := w.deliveries[d].exec;
    var key := Keys.OutputKey(w.messages[e].userId, e);
    StoredUnderOwnKey(env, w, e, key);
    StoreAgain(env, w, d);
  }

  lemma {:induction false} StoreAgain(env: Env, w: World, d: nat)
    requires Enabled(env, w, Store(d)) && OutputStored(env, w, w.deliveries[d].exec)
    ensures Next(env, w, Store(d)).objects == w.objects
  {
    var e := w.deliveries[d].exec;
    UploadKeepsOutputs(env, w, e, e);
    assert Next(env, w, Store(d)).objects == Upload(env, w, e).objects;
  }

  lemma {:induction false} StoredUnderOwnKey(env: Env, w: World, e: nat, key: string)
    requires (exists k :: Owns(env, w, key, k)) && e in w.messages && key == Keys.OutputKey(w.messages[e].userId, e)
    ensures OutputStored(env, w, e)
  {
    var k :| Owns(env, w, key, k);
    Keys.OutputKeyInjective(w.messages[e].userId, e, w.messages[k].userId, k);
  }

  lemma {:induction false} StepKeepsSettled(env: Env, w: World, a: Action, e: nat)
    requires Inv(env, w) && Enabled(env, w, a) && e in w.rows
    ensures var w' := Next(env, w, a);
            e in w'.rows && (w'.rows[e].status.Pending? ==> w.rows[e].status.Pending?)
  {
    if a.Commit? { assert DeliveryOk(env, w, a.d); }
  }

  /** No step returns an execution to `pending`, and none forgets an execution. */
  lemma {:induction false} NeverBackToPending(env: Env, tr: seq<World>, acts: seq<Action>, i: nat, j: nat, e: nat)
    requires Run(env, tr, acts) && i <= j < |tr|
    requires e in tr[i].rows
    ensures e in tr[j].rows
    ensures tr[j].rows[e].status.Pending? ==> tr[i].rows[e].status.Pending?
    decreases j
  {
    if i < j {
      NeverBackToPending(env, tr, acts, i, j - 1, e);
      RunKeepsInv(env, tr, acts, j - 1);
      StepKeepsSettled(env, tr[j - 1], acts[j - 1], e);
    }
  }

  /** Over any run the claim of an execution is committed at most once, and exactly for the
      executions that carry a report. */
  lemma {:induction false} ClaimCommitsAtMostOnce(env: Env, tr: seq<World>, acts: seq<Action>, i: nat, e: nat)
    requires Run(env, tr, acts) && i < |tr|
    ensures tr[i].claims[e] <= 1
    ensures tr[i].claims[e] == 1 <==> e in tr[i].rows && tr[i].rows[e].report.Some?
    ensures tr[i].claims[e] == 1 ==> !tr[i].rows[e].status.Pending?
  {
    RunKeepsInv(env, tr, acts, i);
    assert e in tr[i].rows ==> RowOk(env, tr[i], e);
  }

  ghost predicate CommitAt(tr: seq<World>, acts: seq<Action>, e: nat, i: nat)
    requires |tr| == |acts| + 1
  {
    i < |acts| && acts[i].Commit? && acts[i].d in tr[i].deliveries && tr[i].deliveries[acts[i].d].exec == e
  }

  /** The same, said of the steps of the run: no two of them commit the same execution. */
  lemma {:induction false} CommitsAreUnique(env: Env, tr: seq<World>, acts: seq<Action>, e: nat, i: nat, j: nat)
    requires Run(env, tr, acts) && CommitAt(tr, acts, e, i) && CommitAt(tr, acts, e, j)
    ensures i == j
  {
    if i != j {
      var lo, hi := if i < j then i else j, if i < j then j else i;
      CommitEndsPending(env, tr, acts, e, lo);
      CommitEndsPending(env, tr, acts, e, hi);
      NeverBackToPending(env, tr, acts, lo + 1, hi, e);
      assert false;
    }
  }

  lemma {:induction false} CommitEndsPending(env: Env, tr: seq<World>, acts: seq<Action>, e: nat, i: nat)
    requires Run(env, tr, acts) && CommitAt(tr, acts, e, i)
    ensures e in tr[i].rows && tr[i].rows[e].status.Pending?
    ensures e in tr[i + 1].rows && !tr[i + 1].rows[e].status.Pending?
  {
    RunKeepsInv(env, tr, acts, i);
    assert DeliveryOk(env, tr[i], acts[i].d);
  }

  /** A lock holder is recorded exactly when the status is `running`, in the committed tables
      as well as in the view of every open transaction; and in the committed tables that is
      never, so over any run the sweeper changes nothing. */
  lemma {:induction false} LockedExactlyWhenRunning(env: Env, tr: seq<World>, acts: seq<Action>, i: nat)
    requires Run(env, tr, acts) && i < |tr|
    ensures forall e :: e in tr[i].rows ==> tr[i].rows[e].lockedBy.None? && !tr[i].rows[e].status.Running?
    ensures forall d :: d in tr[i].deliveries && tr[i].deliveries[d].pc.Holding() ==>
              (var row := tr[i].deliveries[d].pc.row; row.lockedBy.Some? <==> row.status.Running?)
    ensures forall now :: Next(env, tr[i], SweepStale(now)) == tr[i]
  {
    var w := tr[i];
    RunKeepsInv(env, tr, acts, i);
    forall e | e in w.rows ensures w.rows[e].lockedBy.None? && !w.rows[e].status.Running? { assert RowOk(env, w, e); }
    forall d | d in w.deliveries && w.deliveries[d].pc.Holding()
      ensures w.deliveries[d].pc.row.lockedBy.Some? <==> w.deliveries[d].pc.row.status.Running?
    {
      assert DeliveryOk(env, w, d);
    }
    forall now ensures Next(env, w, SweepStale(now)) == w { SweepIsNoOp(env, w, now); }
  }

  /** A delivery that starts when its row is no longer pending, and does not raise, changes
      no row, no job and no object, however the rest of the system interleaves with it. */
  lemma {:induction false} LateDeliveryIsNoOp(env: Env, tr: seq<World>, acts: seq<Action>, i: nat, k: nat, d: nat)
    requires Run(env, tr, acts) && i < k < |acts|
    requires acts[i].Deliver? && acts[i].d == d
    requires acts[i].e in tr[i].rows && !tr[i].rows[acts[i].e].status.Pending?
    requires forall m :: i < m <= k ==> acts[m] != Raise(d)
    requires Actor(acts[k]) == Some(d)
    ensures tr[k + 1].rows == tr[k].rows && tr[k + 1].jobs == tr[k].jobs && tr[k + 1].objects == tr[k].objects
  {
    LateDeliveryStaysOut(env, tr, acts, i, k, d);
  }

  lemma {:induction false} LateDeliveryStaysOut(env: Env, tr: seq<World>, acts: seq<Action>, i: nat, k: nat, d: nat)
    requires Run(env, tr, acts) && i < k < |tr|
    requires acts[i].Deliver? && acts[i].d == d
    requires acts[i].e in tr[i].rows && !tr[i].rows[acts[i].e].status.Pending?
    requires forall m :: i < m < k ==> acts[m] != Raise(d)
    ensures d in tr[k].deliveries && tr[k].deliveries[d].exec == acts[i].e
    ensures var pc := tr[k].deliveries[d].pc; pc.Begun? || pc.Ready? || pc.Done?
    decreases k
  {
    if i + 1 < k {
      LateDeliveryStaysOut(env, tr, acts, i, k - 1, d);
      NeverBackToPending(env, tr, acts, i, k - 1, acts[i].e);
      OtherDeliveriesStay(env, tr[k - 1], acts[k - 1], d);
    }
  }

  /** A step of one delivery does not touch another one. */
  lemma {:induction false} OtherDeliveriesStay(env: Env, w: World, a: Action, d: nat)
    requires Enabled(env, w, a) && d in w.deliveries
    ensures var w' := Next(env, w, a);
            d in w'.deliveries && w'.deliveries[d].exec == w.deliveries[d].exec &&
            (Actor(a) != Some(d) ==> w'.deliveries[d] == w.deliveries[d])
  {
  }

  /** The only step that takes an execution out of `success` or `partial` is the commit of a
      failure handler which saw it in a status it may overwrite; the output stays. */
  lemma {:induction false} OnlyALateFailureUndoesSuccess(env: Env, tr: seq<World>, acts: seq<Action>, i: nat, e: nat)
    requires Run(env, tr, acts) && i < |acts| && e in tr[i].rows
    requires tr[i].rows[e].status.Success? || tr[i].rows[e].status.Partial?
    ensures e in tr[i + 1].rows
    ensures tr[i + 1].rows[e] != tr[i].rows[e] <==>
            && acts[i].HandlerCommit? && tr[i].deliveries[acts[i].d].exec == e
            && RowFailable(tr[i].deliveries[acts[i].d].pc.seen)
    ensures tr[i + 1].rows[e] != tr[i].rows[e] ==> tr[i + 1].rows[e] == tr[i].rows[e].(status := Failed)
  {
    RunKeepsInv(env, tr, acts, i);
    if acts[i].SweepStale? { SweepIsNoOp(env, tr[i], acts[i].now); }
    StepUndoesSuccess(env, tr[i], acts[i], e);
  }

  lemma {:induction false} StepUndoesSuccess(env: Env, w: World, a: Action, e: nat)
    requires Enabled(env, w, a) && e in w.rows && RowOk(env, w, e)
    requires w.rows[e].status.Success? || w.rows[e].status.Partial?
    requires a.Commit? ==> DeliveryOk(env, w, a.d)
    requires a.SweepStale? ==> Next(env, w, a) == w
    ensures var w' := Next(env, w, a);
            && e in w'.rows
            && (w'.rows[e] != w.rows[e] <==>
                a.HandlerCommit? && w.deliveries[a.d].exec == e && RowFailable(w.deliveries[a.d].pc.seen))
            && (w'.rows[e] != w.rows[e] ==> w'.rows[e] == w.rows[e].(status := Failed))
  {
  }
}
