/** Replaying an entry of the dead-letter queue: a bounded number of times, spaced by a backoff,
    and never again once the entry is suppressed. */
module DeadLetter {
  import opened Options

  /** DLQ_MAX_REPLAYS and DLQ_REPLAY_BACKOFF_SECONDS. */
  datatype Settings = Settings(maxReplays: nat, backoff: nat)

  datatype Entry = Entry(replayCount: nat, lastReplayedAt: Option<int>, suppressed: bool, replayed: bool)

  const FRESH := Entry(0, None, false, false)

  /** One call: the times of the throttle check and of the dispatch, whether the broker takes the
      task, and whether the commit that ends the call succeeds. */
  datatype Attempt = Attempt(check: int, sent: int, brokerOk: bool, commits: bool)

  datatype Outcome = Dispatched | RefusedSuppressed | Exhausted | Throttled | BrokerFailed

  function Decide(cfg: Settings, e: Entry, a: Attempt): Outcome {
    if e.suppressed then RefusedSuppressed
    else if e.replayCount >= cfg.maxReplays then Exhausted
    else if e.lastReplayedAt.Some? && a.check < e.lastReplayedAt.value + cfg.backoff then Throttled
    else if !a.brokerOk then BrokerFailed
    else Dispatched
  }

  function Replayed(cfg: Settings, e: Entry, a: Attempt): Entry {
    if !a.commits then e
    else match Decide(cfg, e, a)
         case Exhausted => e.(suppressed := true)
         case Dispatched => Entry(e.replayCount + 1, Some(a.sent), false, true)
         case _ => e
  }

  class DeadLetterEntry {
    var replayCount: nat
    var lastReplayedAt: Option<int>
    var suppressed: bool
    var replayed: bool

    constructor ()
      ensures Row() == FRESH
    {
      replayCount, lastReplayedAt, suppressed, replayed := 0, None, false, false;
    }

    function Row(): Entry reads this { Entry(replayCount, lastReplayedAt, suppressed, replayed) }

    method Replay(cfg: Settings, a: Attempt) returns (r: Outcome)
      modifies this
      ensures r == Decide(cfg, old(Row()), a) && Row() == Replayed(cfg, old(Row()), a)
    {
      if suppressed { return RefusedSuppressed; }
      if replayCount >= cfg.maxReplays {
        if a.commits { suppressed := true; }
        return Exhausted;
      }
      if lastReplayedAt.Some? {
        if a.check < lastReplayedAt.value + cfg.backoff { return Throttled; }
      }
      if !a.brokerOk { return BrokerFailed; }
      if a.commits {
        replayCount := replayCount + 1;
        lastReplayedAt := Some(a.sent);
        replayed := true;
      }
      r := Dispatched;
    }
  }

  /** Each outcome exactly when it is due: a suppressed entry is refused, one that has been replayed
      often enough is not replayed again, one that was replayed less than the backoff ago has to
      wait, and otherwise the task is dispatched if the broker takes it. */
  lemma {:induction false} DecidedExactlyWhen(cfg: Settings, e: Entry, a: Attempt)
    ensures var left, waited := !e.suppressed && e.replayCount < cfg.maxReplays,
                                (match e.lastReplayedAt case None => true case Some(t) => a.check - t >= cfg.backoff);
            && (Decide(cfg, e, a) == RefusedSuppressed <==> e.suppressed)
            && (Decide(cfg, e, a) == Exhausted <==> !e.suppressed && e.replayCount >= cfg.maxReplays)
            && (Decide(cfg, e, a) == Throttled <==> left && !waited)
            && (Decide(cfg, e, a) == BrokerFailed <==> left && waited && !a.brokerOk)
            && (Decide(cfg, e, a) == Dispatched <==> left && waited && a.brokerOk)
  {
  }

  /** A dispatch whose commit succeeds is counted and dated; an exhausted entry is suppressed; nothing
      else changes. */
  lemma {:induction false} ReplayLeaves(cfg: Settings, e: Entry, a: Attempt)
    ensures var u, left := Replayed(cfg, e, a), !e.suppressed && e.replayCount < cfg.maxReplays;
            && (a.commits && Decide(cfg, e, a) == Dispatched ==>
                  u == Entry(e.replayCount + 1, Some(a.sent), false, true) && u.suppressed == e.suppressed)
            && (a.commits && !e.suppressed && !left ==> u == e.(suppressed := true))
            && (!a.commits || e.suppressed || (left && Decide(cfg, e, a) != Dispatched) ==> u == e)
  {
  }

  // ---- Runs -----------------------------------------------------------------------------------------------

  function Run(cfg: Settings, e: Entry, run: seq<Attempt>): Entry
    decreases |run|
  {
    if run == [] then e else Run(cfg, Replayed(cfg, e, run[0]), run[1..])
  }

  /** The times at which tasks were dispatched, whether or not the commit succeeded. */
  function Dispatches(cfg: Settings, e: Entry, run: seq<Attempt>): seq<int>
    decreases |run|
  {
    if run == [] then []
    else if Decide(cfg, e, run[0]).Dispatched? then [run[0].sent] + Dispatches(cfg, Replayed(cfg, e, run[0]), run[1..])
    else Dispatches(cfg, Replayed(cfg, e, run[0]), run[1..])
  }

  /** Dispatches whose commit failed: the task is out, but the entry does not know. */
  function Lost(cfg: Settings, e: Entry, run: seq<Attempt>): nat
    decreases |run|
  {
    if run == [] then 0
    else (if Decide(cfg, e, run[0]).Dispatched? && !run[0].commits then 1 else 0) + Lost(cfg, Replayed(cfg, e, run[0]), run[1..])
  }

  /** Calls do not overlap and the clock does not go back. */
  predicate Timed(run: seq<Attempt>) {
    forall i :: 0 <= i < |run| ==> run[i].check <= run[i].sent && (i > 0 ==> run[i - 1].sent <= run[i].check)
  }

  predicate AllCommit(run: seq<Attempt>) { forall a :: a in run ==> a.commits }

  /** What every call keeps. */
  predicate Inv(cfg: Settings, e: Entry) {
    && e.replayCount <= cfg.maxReplays
    && (e.suppressed ==> e.replayCount == cfg.maxReplays)
    && (e.replayCount > 0 <==> e.lastReplayedAt.Some?)
    && (e.replayed <==> e.replayCount > 0)
  }

  lemma {:induction false} RunKeepsInv(cfg: Settings, e: Entry, run: seq<Attempt>)
    requires Inv(cfg, e)
    ensures Inv(cfg, Run(cfg, e, run)) && Run(cfg, e, run).replayCount >= e.replayCount
    ensures e.suppressed ==> Run(cfg, e, run) == e && Dispatches(cfg, e, run) == []
    decreases |run|
  {
    if run != [] { RunKeepsInv(cfg, Replayed(cfg, e, run[0]), run[1..]); }
  }

  lemma {:induction false} CountDispatches(cfg: Settings, e: Entry, run: seq<Attempt>)
    ensures e.replayCount + |Dispatches(cfg, e, run)| == Run(cfg, e, run).replayCount + Lost(cfg, e, run)
    decreases |run|
  {
    if run != [] { CountDispatches(cfg, Replayed(cfg, e, run[0]), run[1..]); }
  }

  /** Over any run the number of dispatches is the replay count plus the dispatches whose commit
      failed; the count never exceeds the maximum, and an entry is suppressed only at it. */
  lemma DispatchesAreCounted(cfg: Settings, run: seq<Attempt>)
    ensures var e := Run(cfg, FRESH, run);
            && |Dispatches(cfg, FRESH, run)| == e.replayCount + Lost(cfg, FRESH, run)
            && e.replayCount <= cfg.maxReplays
            && (e.suppressed ==> e.replayCount == cfg.maxReplays)
  {
    CountDispatches(cfg, FRESH, run);
    RunKeepsInv(cfg, FRESH, run);
  }

  /** When every commit succeeds, the entry knows exactly how often it was dispatched. */
  lemma {:induction false} NothingLost(cfg: Settings, e: Entry, run: seq<Attempt>)
    requires AllCommit(run)
    ensures Lost(cfg, e, run) == 0
    decreases |run|
  {
    if run != [] {
      assert run[0] in run;
      NothingLost(cfg, Replayed(cfg, e, run[0]), run[1..]);
    }
  }

  /** Suppression is permanent and follows only the last allowed replay. */
  lemma {:induction false} SuppressionIsFinal(cfg: Settings, run: seq<Attempt>, later: seq<Attempt>)
    requires Run(cfg, FRESH, run).suppressed
    ensures Run(cfg, Run(cfg, FRESH, run), later) == Run(cfg, FRESH, run) && Dispatches(cfg, Run(cfg, FRESH, run), later) == []
    ensures Run(cfg, FRESH, run).replayCount == cfg.maxReplays
  {
    RunKeepsInv(cfg, FRESH, run);
    RunKeepsInv(cfg, Run(cfg, FRESH, run), later);
  }

  // ---- Spacing ------------------------------------------------------------------------------------------------

  predicate Spaced(cfg: Settings, times: seq<int>) {
    forall i :: 0 < i < |times| ==> times[i] >= times[i - 1] + cfg.backoff
  }

  lemma {:induction false} TimedTail(run: seq<Attempt>)
    requires Timed(run) && run != []
    ensures Timed(run[1..])
  {
    assert forall i :: 0 <= i < |run[1..]| ==> run[1..][i] == run[i + 1];
  }

  lemma {:induction false} SpacedFrom(cfg: Settings, e: Entry, run: seq<Attempt>)
    requires Timed(run) && AllCommit(run)
    ensures var d := Dispatches(cfg, e, run);
            Spaced(cfg, d) && (d != [] && e.lastReplayedAt.Some? ==> d[0] >= e.lastReplayedAt.value + cfg.backoff)
    decreases |run|
  {
    if run != [] {
      assert run[0] in run;
      TimedTail(run);
      SpacedFrom(cfg, Replayed(cfg, e, run[0]), run[1..]);
      var rest := Dispatches(cfg, Replayed(cfg, e, run[0]), run[1..]);
      if Decide(cfg, e, run[0]).Dispatched? {
        var d := [run[0].sent] + rest;
        forall i | 0 < i < |d| ensures d[i] >= d[i - 1] + cfg.backoff {
          if i > 1 { assert d[i] == rest[i - 1] && d[i - 1] == rest[i - 2]; }
        }
      }
    }
  }

  /** Consecutive dispatches are at least the backoff apart, as long as commits succeed. */
  lemma DispatchesAreSpaced(cfg: Settings, run: seq<Attempt>)
    requires Timed(run) && AllCommit(run)
    ensures Spaced(cfg, Dispatches(cfg, FRESH, run))
  {
    SpacedFrom(cfg, FRESH, run);
  }

  lemma {:induction false} SpacedLast(cfg: Settings, d: seq<int>)
    requires Spaced(cfg, d) && d != []
    ensures d[|d| - 1] >= d[0] + (|d| - 1) * cfg.backoff
  {
    if |d| > 1 {
      var n := |d| - 1;
      assert Spaced(cfg, d[..n]) by { assert forall i :: 0 <= i < n ==> d[..n][i] == d[i]; }
      SpacedLast(cfg, d[..n]);
      assert d[n] >= d[n - 1] + cfg.backoff;
      assert n * cfg.backoff == (n - 1) * cfg.backoff + cfg.backoff;
    }
  }

  lemma {:induction false} ProductGrows(m: int, n: int, k: int)
    requires k > 0
    ensures m <= n ==> m * k <= n * k
  {
    if m <= n { assert (n - m) * k >= 0; }
  }

  lemma {:induction false} AtLeastQuotient(n: int, backoff: int, span: int)
    requires backoff > 0 && n * backoff <= span
    ensures n <= span / backoff
  {
    var q := span / backoff;
    assert span < (q + 1) * backoff;
    ProductGrows(q + 1, n, backoff);
  }

  /** By a time t after the first dispatch there were at most min(max, 1 + (t - first) / backoff). */
  lemma {:induction false} RateIsBounded(cfg: Settings, run: seq<Attempt>, t: int)
    requires Timed(run) && AllCommit(run)
    requires Dispatches(cfg, FRESH, run) != [] && forall x :: x in Dispatches(cfg, FRESH, run) ==> x <= t
    ensures var d := Dispatches(cfg, FRESH, run);
            && |d| <= cfg.maxReplays && (|d| - 1) * cfg.backoff <= t - d[0]
            && (cfg.backoff > 0 ==> |d| <= 1 + (t - d[0]) / cfg.backoff)
  {
    var d := Dispatches(cfg, FRESH, run);
    DispatchesAreCounted(cfg, run);
    NothingLost(cfg, FRESH, run);
    DispatchesAreSpaced(cfg, run);
    SpacedLast(cfg, d);
    assert d[|d| - 1] in d;
    if cfg.backoff > 0 { AtLeastQuotient(|d| - 1, cfg.backoff, t - d[0]); }
  }

  /** With failing commits neither bound holds, unless no replay is allowed at all: each such call
      dispatches the task again at once, as often as the caller likes. */
  lemma {:induction false} FailedCommitsAreUnbounded(cfg: Settings, n: nat, now: int) returns (run: seq<Attempt>)
    ensures Timed(run) && |run| == n && Run(cfg, FRESH, run) == FRESH
    ensures Dispatches(cfg, FRESH, run) == if cfg.maxReplays == 0 then [] else seq(n, _ => now)
  {
    run := seq(n, _ => Attempt(now, now, true, false));
    Repeated(cfg, n, now);
  }

  lemma {:induction false} Repeated(cfg: Settings, n: nat, now: int)
    ensures var run := seq(n, _ => Attempt(now, now, true, false));
            && Run(cfg, FRESH, run) == FRESH
            && Dispatches(cfg, FRESH, run) == if cfg.maxReplays == 0 then [] else seq(n, _ => now)
  {
    var run := seq(n, _ => Attempt(now, now, true, false));
    if n > 0 {
      assert Replayed(cfg, FRESH, run[0]) == FRESH;
      Repeated(cfg, n - 1, now);
      assert run[1..] == seq(n - 1, _ => Attempt(now, now, true, false));
      assert seq(n, _ => now) == [now] + seq(n - 1, _ => now);
    }
  }
}
