/** The worker side of exactly-once execution as a state machine: the deliveries of
    `execute_pipeline_task` interleave with each other, with crashes and exceptions at any
    point, with celery retries and with the stale-execution sweeper.

    A delivery runs one database transaction. What it writes before its commit is private to
    it (the row carried by its program counter); the claim takes the row's lock, so no other
    delivery can claim or write that row until the transaction ends. The upload is not
    transactional: it is visible at once and survives a rollback. */
module ExecutionTask {
  import opened Options
  import opened Tables
  import Executor
  import Keys

  // ---- Data ------------------------------------------------------------------------------

  /** `Completed` is tested for by the code, but only jobs ever get it. */
  datatype Status = Pending | Running | Completed | Success | Partial | Failed

  datatype ExecutionRow = ExecutionRow(status: Status, lockedBy: Option<string>, lockedAt: Option<int>,
                     outputKey: Option<string>, outputRows: Option<nat>, report: Option<Executor.Report>)

  const FRESH := ExecutionRow(Pending, None, None, None, None, None)

  datatype JobStatus = JobPending | JobRunning | JobCompleted | JobFailed

  /** The arguments of a dispatched task, the same at every redelivery. */
  datatype Args = Args(userId: nat, datasetId: nat, jobId: nat, steps: seq<Step>)

  datatype Dataset = Dataset(owner: nat, raw: Table)

  /** What the tasks read but never write. */
  datatype Env = Env(registry: Executor.Registry, datasets: map<nat, Dataset>,
                     valid: (seq<Step>, Table) -> bool, converts: Table -> bool)

  datatype TaskResult = Cached | LockedByOther | LockFailed | Finished(status: Executor.ReportStatus)
                      | Reraised | Crashed

  /** Where a delivery stands. From Claimed to Stored it holds the row's lock, and `row` and
      `job` are what its transaction sees of the two rows it is changing. */
  datatype Pc =
    | Begun
    | Ready
    | Claimed(row: ExecutionRow)
    | Working(row: ExecutionRow, job: Option<JobStatus>)
    | Stored(row: ExecutionRow, job: Option<JobStatus>)
    | Committed(status: Executor.ReportStatus)
    | Raising
    | SawRow(seen: Option<Status>)
    | SawJob(seen: Option<Status>, seenJob: Option<JobStatus>)
    | Done(result: TaskResult)
  {
    predicate Holding() { Claimed? || Working? || Stored? }
  }

  datatype Delivery = Delivery(exec: nat, worker: string, pc: Pc)

  /** The committed tables, the output bucket, the messages of the broker (never forgotten,
      so any of them can be delivered again at any time), the deliveries, and how often a
      claim of each execution has been committed. */
  datatype World = World(rows: map<nat, ExecutionRow>, jobs: map<nat, JobStatus>, objects: map<string, Table>,
                         messages: map<nat, Args>, deliveries: map<nat, Delivery>, claims: multiset<nat>)

  const EMPTY := World(map[], map[], map[], map[], map[], multiset{})

  datatype Action =
    | Idle
    | CreateExecution(e: nat, j: nat)
    | Dispatch(e: nat, args: Args)
    | Deliver(d: nat, e: nat, worker: string)
    | ReadRow(d: nat)
    | Claim(d: nat, now: int)
    | StartJob(d: nat)
    | Store(d: nat)
    | Commit(d: nat)
    | Return(d: nat)
    | Raise(d: nat)
    | Crash(d: nat)
    | HandlerReadRow(d: nat)
    | HandlerReadJob(d: nat)
    | HandlerCommit(d: nat)
    | SweepStale(now: int)

  // ---- The pipeline a task runs ------------------------------------------------------------

  predicate DatasetFound(env: Env, a: Args) {
    a.datasetId in env.datasets && env.datasets[a.datasetId].owner == a.userId
  }

  function OutcomeOf(env: Env, a: Args): Executor.Outcome
    requires DatasetFound(env, a)
  {
    var raw := env.datasets[a.datasetId].raw;
    Executor.Execute(env.registry, a.steps, raw, env.converts(raw))
  }

  predicate HasOutput(o: Executor.Outcome) {
    (o.report.status.Success? || o.report.status.Partial?) && |o.output.rows| > 0
  }

  function StatusOf(s: Executor.ReportStatus): Status {
    match s case Success => Success case Partial => Partial case Failed => Failed
  }

  /** The row as the task writes it before its commit. */
  function FinishedRow(env: Env, a: Args, e: nat): ExecutionRow
    requires DatasetFound(env, a)
  {
    var o := OutcomeOf(env, a);
    ExecutionRow(StatusOf(o.report.status), None, None,
        if HasOutput(o) then Some(Keys.OutputKey(a.userId, e)) else None,
        Some(|o.output.rows|), Some(o.report))
  }

  // ---- Steps -----------------------------------------------------------------------------

  predicate Held(w: World, e: nat) {
    exists d :: d in w.deliveries && w.deliveries[d].exec == e && w.deliveries[d].pc.Holding()
  }

  predicate At(w: World, d: nat) {
    d in w.deliveries && w.deliveries[d].exec in w.messages
  }

  function Move(w: World, d: nat, pc: Pc): World
    requires d in w.deliveries
  {
    w.(deliveries := w.deliveries[d := w.deliveries[d].(pc := pc)])
  }

  /** The handler gives up on a row or job that it saw in a final state. */
  predicate RowFailable(s: Option<Status>) {
    s.Some? && !s.value.Completed? && !s.value.Failed?
  }

  predicate JobFailable(s: Option<JobStatus>) {
    s.Some? && !s.value.JobCompleted? && !s.value.JobFailed?
  }

  const HARD_TIME_LIMIT := 600

  predicate IsStale(row: ExecutionRow, now: int) {
    row.status.Running? && row.lockedBy.Some? && row.lockedAt.Some? &&
    row.lockedAt.value < now - HARD_TIME_LIMIT
  }

  function FailRow(row: ExecutionRow): ExecutionRow {
    row.(status := Failed, lockedBy := None, lockedAt := None)
  }

  function RecoverStale(rows: map<nat, ExecutionRow>, now: int): map<nat, ExecutionRow> {
    map e | e in rows :: if IsStale(rows[e], now) then FailRow(rows[e]) else rows[e]
  }

  predicate Enabled(env: Env, w: World, a: Action) {
    match a
    case Idle => true
    case CreateExecution(e, _) => e !in w.rows
    case Dispatch(e, args) => e in w.rows && e !in w.messages
    case Deliver(d, e, worker) => d !in w.deliveries && e in w.messages
    case ReadRow(d) => At(w, d) && w.deliveries[d].pc.Begun?
    case Claim(d, _) => At(w, d) && w.deliveries[d].pc.Ready? && !Held(w, w.deliveries[d].exec)
    case StartJob(d) => At(w, d) && w.deliveries[d].pc.Claimed?
    case Store(d) =>
      && At(w, d) && w.deliveries[d].pc.Working?
      && var args := w.messages[w.deliveries[d].exec];
         DatasetFound(env, args) && env.valid(args.steps, env.datasets[args.datasetId].raw)
    case Commit(d) => At(w, d) && w.deliveries[d].pc.Stored? && w.deliveries[d].pc.row.report.Some?
    case Return(d) => At(w, d) && w.deliveries[d].pc.Committed?
    case Raise(d) =>
      At(w, d) && (var pc := w.deliveries[d].pc; pc.Begun? || pc.Ready? || pc.Holding() || pc.Committed?)
    case Crash(d) => At(w, d) && !w.deliveries[d].pc.Done?
    case HandlerReadRow(d) => At(w, d) && w.deliveries[d].pc.Raising?
    case HandlerReadJob(d) => At(w, d) && w.deliveries[d].pc.SawRow?
    case HandlerCommit(d) =>
      At(w, d) && w.deliveries[d].pc.SawJob? &&
      (RowFailable(w.deliveries[d].pc.seen) ==> w.deliveries[d].exec in w.rows && !Held(w, w.deliveries[d].exec))
    case SweepStale(_) => true
  }

  function Next(env: Env, w: World, a: Action): World
    requires Enabled(env, w, a)
  {
    match a
    case Idle => w
    case CreateExecution(e, j) => w.(rows := w.rows[e := FRESH], jobs := w.jobs[j := JobPending])
    case Dispatch(e, args) => w.(messages := w.messages[e := args])
    case Deliver(d, e, worker) => w.(deliveries := w.deliveries[d := Delivery(e, worker, Begun)])
    case ReadRow(d) => Move(w, d, AfterRead(w, w.deliveries[d]))
    case Claim(d, now) => Move(w, d, AfterClaim(w, w.deliveries[d], now))
    case StartJob(d) => Move(w, d, AfterStartJob(w, w.deliveries[d]))
    case Store(d) => AfterStore(env, w, d)
    case Commit(d) => AfterCommit(w, d)
    case Return(d) => Move(w, d, Done(Finished(w.deliveries[d].pc.status)))
    case Raise(d) => Move(w, d, Raising)
    case Crash(d) => Move(w, d, Done(Crashed))
    case HandlerReadRow(d) =>
      var row := Lookup(w.rows, w.deliveries[d].exec);
      Move(w, d, SawRow(if row.Some? then Some(row.value.status) else None))
    case HandlerReadJob(d) =>
      Move(w, d, SawJob(w.deliveries[d].pc.seen, Lookup(w.jobs, w.messages[w.deliveries[d].exec].jobId)))
    case HandlerCommit(d) => AfterHandler(w, d)
    case SweepStale(now) => w.(rows := RecoverStale(w.rows, now))
  }

  function AfterRead(w: World, x: Delivery): Pc {
    if x.exec !in w.rows then Ready
    else
      var row := w.rows[x.exec];
      if row.status.Completed? then Done(Cached)
      else if row.status.Running? && row.lockedBy.Some? && row.lockedBy.value != x.worker then Done(LockedByOther)
      else Ready
  }

  function AfterClaim(w: World, x: Delivery, now: int): Pc {
    if x.exec in w.rows && w.rows[x.exec].status.Pending?
    then Claimed(w.rows[x.exec].(status := Running, lockedBy := Some(x.worker), lockedAt := Some(now)))
    else Done(LockFailed)
  }

  function AfterStartJob(w: World, x: Delivery): Pc
    requires x.exec in w.messages && x.pc.Claimed?
  {
    Working(x.pc.row, if w.messages[x.exec].jobId in w.jobs then Some(JobRunning) else None)
  }

  function AfterStore(env: Env, w: World, d: nat): World
    requires Enabled(env, w, Store(d))
  {
    var x := w.deliveries[d];
    var args := w.messages[x.exec];
    var o := OutcomeOf(env, args);
    var key := Keys.OutputKey(args.userId, x.exec);
    Move(w.(objects := if HasOutput(o) then w.objects[key := o.output] else w.objects), d,
         Stored(FinishedRow(env, args, x.exec), if x.pc.job.Some? then Some(JobCompleted) else None))
  }

  function AfterCommit(w: World, d: nat): World
    requires At(w, d) && w.deliveries[d].pc.Stored? && w.deliveries[d].pc.row.report.Some?
  {
    var x := w.deliveries[d];
    var job := w.messages[x.exec].jobId;
    Move(w.(rows := w.rows[x.exec := x.pc.row],
            jobs := if x.pc.job.Some? then w.jobs[job := x.pc.job.value] else w.jobs,
            claims := w.claims[x.exec := w.claims[x.exec] + 1]), d,
         Committed(x.pc.row.report.value.status))
  }

  function AfterHandler(w: World, d: nat): World
    requires At(w, d) && w.deliveries[d].pc.SawJob?
    requires RowFailable(w.deliveries[d].pc.seen) ==> w.deliveries[d].exec in w.rows
  {
    var x := w.deliveries[d];
    var job := w.messages[x.exec].jobId;
    Move(w.(rows := if RowFailable(x.pc.seen) then w.rows[x.exec := FailRow(w.rows[x.exec])] else w.rows,
            jobs := if JobFailable(x.pc.seenJob) then w.jobs[job := JobFailed] else w.jobs), d,
         Done(Reraised))
  }

  /** The delivery that takes a step, if it is a delivery's step. */
  function Actor(a: Action): Option<nat> {
    match a
    case Idle => None
    case CreateExecution(_, _) => None
    case Dispatch(_, _) => None
    case SweepStale(_) => None
    case Deliver(d, _, _) => Some(d)
    case ReadRow(d) => Some(d)
    case Claim(d, _) => Some(d)
    case StartJob(d) => Some(d)
    case Store(d) => Some(d)
    case Commit(d) => Some(d)
    case Return(d) => Some(d)
    case Raise(d) => Some(d)
    case Crash(d) => Some(d)
    case HandlerReadRow(d) => Some(d)
    case HandlerReadJob(d) => Some(d)
    case HandlerCommit(d) => Some(d)
  }

  /** A run from the empty system: `tr` holds its states and `acts` its steps. */
  ghost predicate Run(env: Env, tr: seq<World>, acts: seq<Action>) {
    && |tr| == |acts| + 1 && tr[0] == EMPTY
    && forall i :: 0 <= i < |acts| ==> Enabled(env, tr[i], acts[i]) && tr[i + 1] == Next(env, tr[i], acts[i])
  }
}
