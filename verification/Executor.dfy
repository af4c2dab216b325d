/** The pipeline executor: a fold of the steps over the table that falls back to the last
    good table when a step fails, and a report of what happened. */
module Executor {
  import opened Options
  import opened Tables

  /** A transform either produces a table or raises. */
  type Action = (Table, Params) -> Option<Table>

  type Registry = map<string, Action>

  datatype StepStatus = Ok | UnknownAction | Raised

  datatype LogEntry = LogEntry(index: nat, action: string, rowsBefore: nat, rowsAfter: nat,
                               delta: int, status: StepStatus)

  datatype ReportStatus = Success | Partial | Failed

  datatype Report = Report(status: ReportStatus, stepsTotal: nat, stepsOk: nat, stepsFailed: nat,
                           inputCount: nat, outputCount: nat, log: seq<LogEntry>)

  datatype Outcome = Outcome(report: Report, output: Table)

  datatype FoldResult = FoldResult(log: seq<LogEntry>, table: Table)

  /** What one step does to the last good table: a new table, or None when it fails. */
  function Try(reg: Registry, step: Step, t: Table): Option<Table> {
    if step.action in reg then reg[step.action](t, step.params) else None
  }

  function Entry(reg: Registry, step: Step, index: nat, t: Table): LogEntry {
    match Try(reg, step, t)
    case Some(u) => LogEntry(index, step.action, |t.rows|, |u.rows|, |u.rows| - |t.rows|, Ok)
    case None =>
      LogEntry(index, step.action, |t.rows|, |t.rows|, 0, if step.action in reg then Raised else UnknownAction)
  }

  function After(reg: Registry, step: Step, t: Table): Table {
    match Try(reg, step, t)
    case Some(u) => u
    case None => t
  }

  /** The specification of the loop: the steps from the left, numbered from `index`. */
  function Fold(reg: Registry, steps: seq<Step>, index: nat, t: Table): FoldResult {
    if steps == [] then FoldResult([], t)
    else
      var rest := Fold(reg, steps[1..], index + 1, After(reg, steps[0], t));
      FoldResult([Entry(reg, steps[0], index, t)] + rest.log, rest.table)
  }

  function CountOk(log: seq<LogEntry>): nat {
    if log == [] then 0 else (if log[0].status.Ok? then 1 else 0) + CountOk(log[1..])
  }

  function CountFailed(log: seq<LogEntry>): nat {
    if log == [] then 0 else (if log[0].status.Ok? then 0 else 1) + CountFailed(log[1..])
  }

  function StatusOf(ok: nat, failed: nat): ReportStatus {
    if failed == 0 then Success else if ok == 0 then Failed else Partial
  }

  /** The result of a whole run; `converts` says whether the input frame can be converted. */
  function Execute(reg: Registry, steps: seq<Step>, df: Table, converts: bool): Outcome {
    if !converts then
      Outcome(Report(Failed, |steps|, 0, |steps|, |df.rows|, 0, []), df)
    else
      var r := Fold(reg, steps, 0, df);
      var ok, failed := CountOk(r.log), CountFailed(r.log);
      Outcome(Report(StatusOf(ok, failed), |steps|, ok, failed, |df.rows|, |r.table.rows|, r.log), r.table)
  }

  method ExecutePipeline(reg: Registry, steps: seq<Step>, df: Table, converts: bool)
    returns (report: Report, output: Table)
    ensures Outcome(report, output) == Execute(reg, steps, df, converts)
  {
    var inputCount := |df.rows|;
    if !converts {
      return Report(Failed, |steps|, 0, |steps|, inputCount, 0, []), df;
    }
    var log: seq<LogEntry> := [];
    var current, lastGood, lastGoodCount := df, df, inputCount;
    for i := 0 to |steps|
      invariant current == lastGood && lastGoodCount == |lastGood.rows|
      invariant Fold(reg, steps[..i], 0, df) == FoldResult(log, lastGood) && |log| == i
    {
      var step := steps[i];
      var rowsBefore := lastGoodCount;
      FoldOneMore(reg, steps[..i], step, df);
      assert steps[..i + 1] == steps[..i] + [step];
      if step.action !in reg {
        log := log + [LogEntry(i, step.action, rowsBefore, rowsBefore, 0, UnknownAction)];
      } else {
        var result := reg[step.action](current, step.params);
        if result.Some? {
          var rowsAfter := |result.value.rows|;
          log := log + [LogEntry(i, step.action, rowsBefore, rowsAfter, rowsAfter - rowsBefore, Ok)];
          current := result.value;
          lastGood := current;
          lastGoodCount := rowsAfter;
        } else {
          log := log + [LogEntry(i, step.action, rowsBefore, rowsBefore, 0, Raised)];
          current := lastGood;
        }
      }
    }
    assert steps[..|steps|] == steps;
    output := lastGood;
    var ok, failed := CountOk(log), CountFailed(log);
    report := Report(StatusOf(ok, failed), |steps|, ok, failed, inputCount, |output.rows|, log);
  }

  lemma FoldOneMore(reg: Registry, steps: seq<Step>, last: Step, df: Table)
    ensures var r := Fold(reg, steps, 0, df);
            Fold(reg, steps + [last], 0, df) ==
            FoldResult(r.log + [Entry(reg, last, |steps|, r.table)], After(reg, last, r.table))
  {
    FoldSplits(reg, steps, [last], 0, df);
    var t := Fold(reg, steps, 0, df).table;
    assert Fold(reg, [], |steps| + 1, After(reg, last, t)) == FoldResult([], After(reg, last, t));
  }

  // ---- Splitting a pipeline -------------------------------------------------------------

  /** Running s1 + s2 is running s2 on the output of s1: the tables agree and the logs are
      concatenated, the second one numbered on from the first. */
  lemma {:induction false} FoldSplits(reg: Registry, s1: seq<Step>, s2: seq<Step>, index: nat, t: Table)
    ensures var first := Fold(reg, s1, index, t);
            var second := Fold(reg, s2, index + |s1|, first.table);
            Fold(reg, s1 + s2, index, t) == FoldResult(first.log + second.log, second.table)
  {
    if s1 == [] {
      assert s1 + s2 == s2;
    } else {
      assert (s1 + s2)[1..] == s1[1..] + s2;
      FoldSplits(reg, s1[1..], s2, index + 1, After(reg, s1[0], t));
    }
  }

  function Renumber(log: seq<LogEntry>, shift: nat): (r: seq<LogEntry>)
    ensures |r| == |log|
    ensures forall i :: 0 <= i < |log| ==> r[i] == log[i].(index := log[i].index + shift)
  {
    if log == [] then [] else [log[0].(index := log[0].index + shift)] + Renumber(log[1..], shift)
  }

  lemma {:induction false} EntryRenumbers(reg: Registry, step: Step, index: nat, shift: nat, t: Table, rest: seq<LogEntry>)
    ensures Renumber([Entry(reg, step, index, t)] + rest, shift) ==
            [Entry(reg, step, index + shift, t)] + Renumber(rest, shift)
  {
    var log := [Entry(reg, step, index, t)] + rest;
    assert log[1..] == rest && log[0].(index := index + shift) == Entry(reg, step, index + shift, t);
  }

  lemma {:induction false} FoldRenumbers(reg: Registry, steps: seq<Step>, index: nat, shift: nat, t: Table)
    ensures Fold(reg, steps, index + shift, t) ==
            FoldResult(Renumber(Fold(reg, steps, index, t).log, shift), Fold(reg, steps, index, t).table)
  {
    if steps != [] {
      var u := After(reg, steps[0], t);
      FoldRenumbers(reg, steps[1..], index + 1, shift, u);
      EntryRenumbers(reg, steps[0], index, shift, t, Fold(reg, steps[1..], index + 1, u).log);
      assert index + 1 + shift == index + shift + 1;
    }
  }

  lemma {:induction false} CountsAdd(a: seq<LogEntry>, b: seq<LogEntry>)
    ensures CountOk(a + b) == CountOk(a) + CountOk(b)
    ensures CountFailed(a + b) == CountFailed(a) + CountFailed(b)
  {
    if a == [] {
      assert a + b == b;
    } else {
      assert (a + b)[1..] == a[1..] + b;
      CountsAdd(a[1..], b);
    }
  }

  lemma {:induction false} RenumberKeepsCounts(log: seq<LogEntry>, shift: nat)
    ensures CountOk(Renumber(log, shift)) == CountOk(log) && CountFailed(Renumber(log, shift)) == CountFailed(log)
  {
    if log != [] { RenumberKeepsCounts(log[1..], shift); }
  }

  /** Executing s1 + s2 is executing s2 on the output of s1. */
  lemma {:induction false} ExecuteSplits(reg: Registry, s1: seq<Step>, s2: seq<Step>, df: Table,
                      a: Outcome, b: Outcome, whole: Outcome)
    requires a == Execute(reg, s1, df, true) && b == Execute(reg, s2, a.output, true)
    requires whole == Execute(reg, s1 + s2, df, true)
    ensures && whole.output == b.output
            && whole.report.log == a.report.log + Renumber(b.report.log, |s1|)
            && whole.report.stepsOk == a.report.stepsOk + b.report.stepsOk
            && whole.report.stepsFailed == a.report.stepsFailed + b.report.stepsFailed
            && whole.report.inputCount == a.report.inputCount
            && whole.report.outputCount == b.report.outputCount
  {
    FoldSplits(reg, s1, s2, 0, df);
    FoldRenumbers(reg, s2, 0, |s1|, a.output);
    CountsAdd(a.report.log, Renumber(b.report.log, |s1|));
    RenumberKeepsCounts(b.report.log, |s1|);
  }

  // ---- What each step does --------------------------------------------------------------

  /** A step that the registry knows and that does not raise turns the table before it into the
      registry's result for its own parameters; any other step leaves the table alone. */
  ghost predicate Does(reg: Registry, step: Step, index: nat, before: Table, after: Table, entry: LogEntry) {
    var name, n := step.action, |before.rows|;
    if name in reg && reg[name](before, step.params).Some? then
      && Some(after) == reg[name](before, step.params)
      && entry == LogEntry(index, name, n, |after.rows|, |after.rows| - n, Ok)
    else
      && after == before
      && entry == LogEntry(index, name, n, n, 0, if name in reg then Raised else UnknownAction)
  }

  /** The tables a run goes through, from the input to the output. */
  ghost predicate GoesThrough(reg: Registry, steps: seq<Step>, index: nat, ts: seq<Table>, log: seq<LogEntry>) {
    && |ts| == |steps| + 1 && |log| == |steps|
    && forall i :: 0 <= i < |steps| ==> Does(reg, steps[i], index + i, ts[i], ts[i + 1], log[i])
  }

  lemma {:induction false} FoldGoesThrough(reg: Registry, steps: seq<Step>, index: nat, t: Table) returns (ts: seq<Table>)
    ensures var r := Fold(reg, steps, index, t);
            GoesThrough(reg, steps, index, ts, r.log) && ts[0] == t && ts[|steps|] == r.table
  {
    ts := [t];
    if steps != [] {
      var u := After(reg, steps[0], t);
      var rest := FoldGoesThrough(reg, steps[1..], index + 1, u);
      ts := [t] + rest;
      var log := Fold(reg, steps, index, t).log;
      forall i | 0 <= i < |steps| ensures Does(reg, steps[i], index + i, ts[i], ts[i + 1], log[i]) {
        if i > 0 {
          assert log[i] == Fold(reg, steps[1..], index + 1, u).log[i - 1];
          assert Does(reg, steps[1..][i - 1], index + 1 + (i - 1), rest[i - 1], rest[i], log[i]);
        }
      }
    }
  }

  /** Every run goes through one table per step: each step works on what the last one left, with
      its own parameters, and the last table is the output. */
  lemma {:induction false} StepByStep(reg: Registry, steps: seq<Step>, df: Table) returns (ts: seq<Table>)
    ensures var o := Execute(reg, steps, df, true);
            && GoesThrough(reg, steps, 0, ts, o.report.log) && ts[0] == df && ts[|steps|] == o.output
            && o.report.inputCount == |df.rows| && o.report.outputCount == |ts[|steps|].rows|
  {
    ts := FoldGoesThrough(reg, steps, 0, df);
  }

  /** A pipeline of one step. With ExecuteSplits this fixes the report of every pipeline. */
  lemma {:induction false} OneStep(reg: Registry, step: Step, df: Table)
    ensures var o, n := Execute(reg, [step], df, true), |df.rows|;
            if step.action !in reg then
              o == Outcome(Report(Failed, 1, 0, 1, n, n, [LogEntry(0, step.action, n, n, 0, UnknownAction)]), df)
            else match reg[step.action](df, step.params)
                 case None => o == Outcome(Report(Failed, 1, 0, 1, n, n, [LogEntry(0, step.action, n, n, 0, Raised)]), df)
                 case Some(u) =>
                   o == Outcome(Report(Success, 1, 1, 0, n, |u.rows|,
                                       [LogEntry(0, step.action, n, |u.rows|, |u.rows| - n, Ok)]), u)
  {
    var t := After(reg, step, df);
    assert [step][1..] == [] && Fold(reg, [], 1, t) == FoldResult([], t);
    var log := Fold(reg, [step], 0, df).log;
    assert log == [Entry(reg, step, 0, df)] && log[1..] == [];
    assert CountOk([]) == 0 && CountFailed([]) == 0;
    assert CountOk(log) == (if log[0].status.Ok? then 1 else 0) && CountFailed(log) == 1 - CountOk(log);
  }

  /** A frame that cannot be converted comes back as it is, with every step counted as failed; an
      empty pipeline succeeds. */
  lemma {:induction false} NoStep(reg: Registry, steps: seq<Step>, df: Table)
    ensures Execute(reg, steps, df, false) == Outcome(Report(Failed, |steps|, 0, |steps|, |df.rows|, 0, []), df)
    ensures Execute(reg, [], df, true) == Outcome(Report(Success, 0, 0, 0, |df.rows|, |df.rows|, []), df)
  {
  }

  // ---- Erasing the failed steps -----------------------------------------------------------

  /** The steps whose log entry says `ok`. */
  function OkSteps(steps: seq<Step>, log: seq<LogEntry>): seq<Step>
    requires |steps| == |log|
  {
    if steps == [] then []
    else (if log[0].status.Ok? then [steps[0]] else []) + OkSteps(steps[1..], log[1..])
  }

  lemma {:induction false} OneEntryPerStep(reg: Registry, steps: seq<Step>, index: nat, t: Table)
    ensures var log := Fold(reg, steps, index, t).log;
            && |log| == |steps|
            && forall i :: 0 <= i < |steps| ==> log[i].index == index + i && log[i].action == steps[i].action
  {
    if steps != [] { OneEntryPerStep(reg, steps[1..], index + 1, After(reg, steps[0], t)); }
  }

  lemma {:induction false} FailedStepsErase(reg: Registry, steps: seq<Step>, index: nat, index': nat, t: Table)
    ensures |Fold(reg, steps, index, t).log| == |steps|
    ensures var full := Fold(reg, steps, index, t);
            var lean := Fold(reg, OkSteps(steps, full.log), index', t);
            lean.table == full.table && CountFailed(lean.log) == 0 && CountOk(lean.log) == CountOk(full.log)
  {
    OneEntryPerStep(reg, steps, index, t);
    if steps != [] {
      var full := Fold(reg, steps, index, t);
      var t' := After(reg, steps[0], t);
      var tail := Fold(reg, steps[1..], index + 1, t');
      assert full.log[1..] == tail.log;
      OneEntryPerStep(reg, steps[1..], index + 1, t');
      var kept := OkSteps(steps[1..], tail.log);
      if full.log[0].status.Ok? {
        FailedStepsErase(reg, steps[1..], index + 1, index' + 1, t');
        var lean := OkSteps(steps, full.log);
        assert lean == [steps[0]] + kept && lean[1..] == kept;
        var rest := Fold(reg, kept, index' + 1, t');
        assert Fold(reg, lean, index', t).log[1..] == rest.log;
      } else {
        FailedStepsErase(reg, steps[1..], index + 1, index', t');
        assert OkSteps(steps, full.log) == kept;
      }
    }
  }

  /** Running only the steps logged ok succeeds throughout and gives the same table. */
  lemma ErasingFailedSteps(reg: Registry, steps: seq<Step>, df: Table)
    ensures |Execute(reg, steps, df, true).report.log| == |steps|
    ensures var full := Execute(reg, steps, df, true);
            var lean := Execute(reg, OkSteps(steps, full.report.log), df, true);
            && lean.output == full.output
            && lean.report.status == Success && lean.report.stepsFailed == 0
            && lean.report.stepsOk == full.report.stepsOk
  {
    FailedStepsErase(reg, steps, 0, 0, df);
  }

  // ---- The report adds up ----------------------------------------------------------------

  function SumDeltas(log: seq<LogEntry>): int {
    if log == [] then 0 else log[0].delta + SumDeltas(log[1..])
  }

  /** Each entry starts from the row count the previous one ended with. */
  ghost predicate Chained(log: seq<LogEntry>, first: nat, last: nat) {
    if log == [] then first == last
    else log[0].rowsBefore == first && log[0].delta == log[0].rowsAfter - first &&
         (!log[0].status.Ok? ==> log[0].delta == 0) && Chained(log[1..], log[0].rowsAfter, last)
  }

  lemma {:induction false} FoldChains(reg: Registry, steps: seq<Step>, index: nat, t: Table)
    ensures Chained(Fold(reg, steps, index, t).log, |t.rows|, |Fold(reg, steps, index, t).table.rows|)
  {
    if steps != [] {
      FoldChains(reg, steps[1..], index + 1, After(reg, steps[0], t));
      var log := Fold(reg, steps, index, t).log;
      assert log[1..] == Fold(reg, steps[1..], index + 1, After(reg, steps[0], t)).log;
    }
  }

  lemma {:induction false} ChainedAddsUp(log: seq<LogEntry>, first: nat, last: nat)
    requires Chained(log, first, last)
    ensures first + SumDeltas(log) == last
    ensures log != [] ==> log[0].rowsBefore == first && log[|log| - 1].rowsAfter == last
    ensures forall i :: 1 <= i < |log| ==> log[i].rowsBefore == log[i - 1].rowsAfter
    ensures forall i :: 0 <= i < |log| ==> log[i].delta == log[i].rowsAfter - log[i].rowsBefore
    ensures forall i :: 0 <= i < |log| && !log[i].status.Ok? ==> log[i].delta == 0
  {
    if log != [] {
      ChainedAddsUp(log[1..], log[0].rowsAfter, last);
      assert forall i :: 1 <= i < |log| ==> log[i] == log[1..][i - 1];
    }
  }

  lemma {:induction false} CountsCover(log: seq<LogEntry>)
    ensures CountOk(log) + CountFailed(log) == |log|
  {
    if log != [] { CountsCover(log[1..]); }
  }

  /** The report of a run whose input converted accounts for every step and every row, and
      its status is decided by the counts of the two kinds of entries. */
  lemma ReportAddsUp(reg: Registry, steps: seq<Step>, df: Table)
    ensures var o := Execute(reg, steps, df, true);
            var log := o.report.log;
            && |log| == |steps| == o.report.stepsTotal
            && (forall i :: 0 <= i < |steps| ==> log[i].index == i && log[i].action == steps[i].action)
            && o.report.stepsOk + o.report.stepsFailed == o.report.stepsTotal
            && o.report.inputCount == |df.rows| && o.report.outputCount == |o.output.rows|
            && o.report.inputCount + SumDeltas(log) == o.report.outputCount
            && (steps != [] ==> log[0].rowsBefore == |df.rows| && log[|steps| - 1].rowsAfter == |o.output.rows|)
            && (forall i :: 1 <= i < |steps| ==> log[i].rowsBefore == log[i - 1].rowsAfter)
            && (o.report.status == Success <==> forall i :: 0 <= i < |steps| ==> log[i].status.Ok?)
            && (o.report.status == Failed <==> steps != [] && forall i :: 0 <= i < |steps| ==> !log[i].status.Ok?)
  {
    var r := Fold(reg, steps, 0, df);
    OneEntryPerStep(reg, steps, 0, df);
    FoldChains(reg, steps, 0, df);
    ChainedAddsUp(r.log, |df.rows|, |r.table.rows|);
    CountsCover(r.log);
    CountsDecide(r.log);
  }

  lemma {:induction false} CountsDecide(log: seq<LogEntry>)
    ensures CountFailed(log) == 0 <==> forall i :: 0 <= i < |log| ==> log[i].status.Ok?
    ensures CountOk(log) == 0 <==> forall i :: 0 <= i < |log| ==> !log[i].status.Ok?
  {
    if log != [] {
      CountsDecide(log[1..]);
      assert forall i :: 1 <= i < |log| ==> log[i] == log[1..][i - 1];
      assert forall i :: 0 <= i < |log[1..]| ==> log[1..][i] == log[i + 1];
    }
  }

  /** A pipeline in which every step fails hands back the input table itself. */
  lemma AllFailedReturnsInput(reg: Registry, steps: seq<Step>, df: Table, converts: bool)
    requires Execute(reg, steps, df, converts).report.status == Failed
    ensures Execute(reg, steps, df, converts).output == df
  {
    if converts {
      ErasingFailedSteps(reg, steps, df);
      var full := Execute(reg, steps, df, true);
      var kept := OkSteps(steps, full.report.log);
      OneEntryPerStep(reg, kept, 0, df);
      CountsCover(Fold(reg, kept, 0, df).log);
      assert |kept| == full.report.stepsOk == 0;
    }
  }
}
