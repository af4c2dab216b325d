/** What the table laws mean for whole pipelines: steps that filter rows can be moved to the
    front of a pipeline of filters and sorts, in any order, without changing its output or report
    status; sorts keep their own order. */
module PipelineRewrites {
  import opened Options
  import opened Tables
  import opened Executor
  import opened RowFilters
  import opened Sequences

  /** The registry's entries for the row filters and the sort are the transforms modelled here;
      the other actions are arbitrary. */
  ghost predicate Modelled(reg: Registry) {
    && "filter_rows" in reg && "drop_nulls" in reg && "sort_values" in reg
    && forall t, p :: && reg["filter_rows"](t, p) == Some(FilterRows(t, p))
                      && reg["drop_nulls"](t, p) == Some(DropNulls(t, p))
                      && reg["sort_values"](t, p) == Some(SortValues(t, p))
  }

  predicate IsFilter(step: Step) { step.action == "filter_rows" || step.action == "drop_nulls" }

  predicate IsSort(step: Step) { step.action == "sort_values" }

  predicate FiltersAndSorts(steps: seq<Step>) { forall s :: s in steps ==> IsFilter(s) || IsSort(s) }

  function Filters(steps: seq<Step>): (r: seq<Step>)
    ensures forall s :: s in r ==> IsFilter(s)
  {
    if steps == [] then [] else if IsFilter(steps[0]) then [steps[0]] + Filters(steps[1..]) else Filters(steps[1..])
  }

  function Sorts(steps: seq<Step>): seq<Step> {
    if steps == [] then [] else if IsSort(steps[0]) then [steps[0]] + Sorts(steps[1..]) else Sorts(steps[1..])
  }

  /** The table a run leaves. */
  function Output(reg: Registry, steps: seq<Step>, t: Table): Table
    decreases |steps|
  {
    if steps == [] then t else Output(reg, steps[1..], After(reg, steps[0], t))
  }

  lemma {:induction false} FoldLeavesOutput(reg: Registry, steps: seq<Step>, index: nat, t: Table)
    ensures Fold(reg, steps, index, t).table == Output(reg, steps, t)
    decreases |steps|
  {
    if steps != [] { FoldLeavesOutput(reg, steps[1..], index + 1, After(reg, steps[0], t)); }
  }

  lemma {:induction false} OutputAppend(reg: Registry, a: seq<Step>, b: seq<Step>, t: Table)
    ensures Output(reg, a + b, t) == Output(reg, b, Output(reg, a, t))
    decreases |a|
  {
    if a == [] {
      assert a + b == b;
    } else {
      assert (a + b)[1..] == a[1..] + b;
      OutputAppend(reg, a[1..], b, After(reg, a[0], t));
    }
  }

  function KindOf(step: Step): RowFilter { if step.action == "filter_rows" then Filter else Drop }

  /** A filter step commutes with a filter step and with a sort step. */
  lemma {:induction false} StepsCommute(reg: Registry, x: Step, f: Step, t: Table)
    requires Modelled(reg) && (IsFilter(x) || IsSort(x)) && IsFilter(f)
    ensures After(reg, f, After(reg, x, t)) == After(reg, x, After(reg, f, t))
  {
    if IsSort(x) {
      FilterPassesSort(KindOf(f), f.params, x.params, t);
    } else {
      RowFiltersCommute(KindOf(f), f.params, KindOf(x), x.params, t);
    }
  }

  /** A step moves past filters. */
  lemma {:induction false} PassesFilters(reg: Registry, x: Step, filters: seq<Step>, t: Table)
    requires Modelled(reg) && (IsFilter(x) || IsSort(x)) && forall f :: f in filters ==> IsFilter(f)
    ensures Output(reg, filters, After(reg, x, t)) == After(reg, x, Output(reg, filters, t))
    decreases |filters|
  {
    if filters != [] {
      StepsCommute(reg, x, filters[0], t);
      PassesFilters(reg, x, filters[1..], After(reg, filters[0], t));
    }
  }

  lemma {:induction false} FiltersGoFirst(reg: Registry, steps: seq<Step>, t: Table)
    requires Modelled(reg) && FiltersAndSorts(steps)
    ensures Output(reg, steps, t) == Output(reg, Filters(steps) + Sorts(steps), t)
    decreases |steps|
  {
    if steps != [] {
      var x, fs, ss := steps[0], Filters(steps[1..]), Sorts(steps[1..]);
      FiltersGoFirst(reg, steps[1..], After(reg, x, t));
      OutputAppend(reg, fs, ss, After(reg, x, t));
      PassesFilters(reg, x, fs, t);
      OutputAppend(reg, Filters(steps), Sorts(steps), t);
      if IsFilter(x) {
        assert ([x] + fs)[1..] == fs;
      } else {
        assert ([x] + ss)[1..] == ss;
      }
    }
  }

  /** Filters can be reordered at will. */
  lemma {:induction false} FiltersPermute(reg: Registry, a: seq<Step>, b: seq<Step>, t: Table)
    requires Modelled(reg) && multiset(a) == multiset(b)
    requires (forall f :: f in a ==> IsFilter(f)) && (forall f :: f in b ==> IsFilter(f))
    ensures Output(reg, a, t) == Output(reg, b, t)
    decreases |a|
  {
    if a == [] {
      assert b == [] by { assert |multiset(b)| == |b|; }
    } else {
      var l, r := TakeOut(a, b);
      var u := After(reg, a[0], t);
      FiltersPermute(reg, a[1..], l + r, u);
      OutputAppend(reg, l, r, u);
      PassesFilters(reg, a[0], l, t);
      OutputAppend(reg, l, [a[0]] + r, t);
      assert ([a[0]] + r)[1..] == r;
    }
  }

  lemma {:induction false} NothingFails(reg: Registry, steps: seq<Step>, index: nat, t: Table)
    requires Modelled(reg) && FiltersAndSorts(steps)
    ensures CountFailed(Fold(reg, steps, index, t).log) == 0
    decreases |steps|
  {
    if steps != [] {
      NothingFails(reg, steps[1..], index + 1, After(reg, steps[0], t));
      assert steps[0] in steps && Try(reg, steps[0], t).Some?;
      var log := Fold(reg, steps, index, t).log;
      assert log[1..] == Fold(reg, steps[1..], index + 1, After(reg, steps[0], t)).log;
    }
  }

  /** Two pipelines of filters and sorts with the same filters, in any order and anywhere, and the
      same sorts in the same order: same output, and both succeed. */
  lemma ReorderedPipelinesAgree(reg: Registry, a: seq<Step>, b: seq<Step>, df: Table)
    requires Modelled(reg) && FiltersAndSorts(a) && FiltersAndSorts(b)
    requires multiset(Filters(a)) == multiset(Filters(b)) && Sorts(a) == Sorts(b)
    ensures Execute(reg, a, df, true).output == Execute(reg, b, df, true).output
    ensures Execute(reg, a, df, true).report.status == Execute(reg, b, df, true).report.status == Success
  {
    FoldLeavesOutput(reg, a, 0, df);
    FoldLeavesOutput(reg, b, 0, df);
    FiltersGoFirst(reg, a, df);
    FiltersGoFirst(reg, b, df);
    OutputAppend(reg, Filters(a), Sorts(a), df);
    OutputAppend(reg, Filters(b), Sorts(b), df);
    FiltersPermute(reg, Filters(a), Filters(b), df);
    NothingFails(reg, a, 0, df);
    NothingFails(reg, b, 0, df);
  }
}
