/** The transforms that keep some of the rows: `filter_rows`, `drop_nulls`, `remove_duplicates`,
    and `sort_values`, which reorders them. What they promise together: filters commute with one
    another and with the sort, and a filter on several columns is a chain of filters on one. */
module RowFilters {
  import opened Options
  import opened Tables
  import opened RowOrder

  // ---- Filter expressions ------------------------------------------------------------------------------

  datatype Comparison = Gt | Lt | Gte | Lte

  /** The column test of a filter: a comparison with a threshold, or being present. */
  datatype Test = Compare(op: Comparison, threshold: real) | NotNull

  predicate Accepts(test: Test, v: Value) {
    match test
    case NotNull => !v.Null?
    case Compare(op, threshold) =>
      v.Num? && match op
                case Gt => v.x > threshold
                case Lt => v.x < threshold
                case Gte => v.x >= threshold
                case Lte => v.x <= threshold
  }

  predicate RowPasses(test: Test, cols: seq<string>, r: Row) {
    forall c :: c in cols ==> Accepts(test, Get(r, c))
  }

  function Keep(test: Test, cols: seq<string>, rows: seq<Row>): seq<Row> {
    if rows == [] then []
    else if RowPasses(test, cols, rows[0]) then [rows[0]] + Keep(test, cols, rows[1..])
    else Keep(test, cols, rows[1..])
  }

  /** A filter expression and its value on a row, in the logic with an unknown: a comparison
      with a missing value is unknown, and only rows for which the expression is true stay. */
  datatype Expr = Test(test: Test, column: string) | And(left: Expr, right: Expr)

  datatype Truth = No | Unknown | Yes

  function Eval(e: Expr, r: Row): Truth {
    match e
    case Test(test, c) =>
      var v := Get(r, c);
      if Accepts(test, v) then Yes else if v.Null? && test.Compare? then Unknown else No
    case And(a, b) =>
      var x, y := Eval(a, r), Eval(b, r);
      if x.No? || y.No? then No else if x.Yes? && y.Yes? then Yes else Unknown
  }

  function Where(e: Expr, rows: seq<Row>): seq<Row> {
    if rows == [] then []
    else if Eval(e, rows[0]).Yes? then [rows[0]] + Where(e, rows[1..])
    else Where(e, rows[1..])
  }

  lemma {:induction false} WhereKeeps(e: Expr, test: Test, cols: seq<string>, rows: seq<Row>)
    requires forall r :: Eval(e, r).Yes? <==> RowPasses(test, cols, r)
    ensures Where(e, rows) == Keep(test, cols, rows)
  {
    if rows != [] { WhereKeeps(e, test, cols, rows[1..]); }
  }

  // ---- The transforms ------------------------------------------------------------------------------------

  /** A missing or unknown method means "gte". */
  function ComparisonOf(mode: Option<string>): Comparison {
    match mode
    case Some("gt") => Gt
    case Some("lt") => Lt
    case Some("lte") => Lte
    case _ => Gte
  }

  function TestOf(p: Params): Test {
    Compare(ComparisonOf(p.mode), if p.threshold.Some? then p.threshold.value else 0.0)
  }

  /** filter_rows: the tests on the requested numeric columns all hold; without such a column
      the table is unchanged. */
  function FilterRows(t: Table, p: Params): Table {
    t.(rows := Keep(TestOf(p), Numeric(t, ColumnsOf(p)), t.rows))
  }

  method FilterRowsTransform(t: Table, p: Params) returns (r: Table)
    ensures r == FilterRows(t, p)
  {
    var cols, test := ColumnsOf(p), TestOf(p);
    if cols == [] { KeepAll(test, [], t.rows); return t; }
    var exprs: seq<Expr> := [];
    for i := 0 to |cols|
      invariant |exprs| == |Numeric(t, cols[..i])|
      invariant forall k :: 0 <= k < |exprs| ==> exprs[k] == Test(test, Numeric(t, cols[..i])[k])
    {
      ListedInOrder(t, cols[..i], [cols[i]]);
      ListedAlone(t, cols[i]);
      assert cols[..i + 1] == cols[..i] + [cols[i]];
      if IsNumeric(t, cols[i]) { exprs := exprs + [Expr.Test(test, cols[i])]; }
    }
    assert cols[..|cols|] == cols;
    ghost var tested := Numeric(t, cols);
    if exprs == [] { KeepAll(test, tested, t.rows); return t; }
    var combined := exprs[0];
    for i := 1 to |exprs|
      invariant forall r :: Eval(combined, r).Yes? <==> RowPasses(test, tested[..i], r)
    {
      assert forall c :: c in tested[..i + 1] <==> c in tested[..i] || c == tested[i];
      combined := And(combined, exprs[i]);
    }
    assert tested[..|exprs|] == tested;
    WhereKeeps(combined, test, tested, t.rows);
    r := t.(rows := Where(combined, t.rows));
  }

  lemma {:induction false} KeepAll(test: Test, cols: seq<string>, rows: seq<Row>)
    requires cols == []
    ensures Keep(test, cols, rows) == rows
  {
    if rows != [] { KeepAll(test, cols, rows[1..]); }
  }

  /** The columns `drop_nulls` and `remove_duplicates` look at: when none of the requested
      columns exists they fall back to all of them. */
  function Subset(t: Table, p: Params): (cols: seq<string>)
    ensures forall c :: c in cols ==> HasColumn(t, c)
  {
    var cols := AllColumns(t, p);
    if cols == [] then Names(t.schema) else cols
  }

  function DropNulls(t: Table, p: Params): Table {
    t.(rows := Keep(NotNull, Subset(t, p), t.rows))
  }

  /** The rows whose keys are not in `seen` and do not occur earlier. */
  function Firsts(cols: seq<string>, seen: set<seq<Value>>, rows: seq<Row>): seq<Row>
    decreases |rows|
  {
    if rows == [] then []
    else
      var k := KeysOf(cols, rows[0]);
      if k in seen then Firsts(cols, seen, rows[1..]) else [rows[0]] + Firsts(cols, seen + {k}, rows[1..])
  }

  function RemoveDuplicates(t: Table, p: Params): Table {
    t.(rows := Firsts(Subset(t, p), {}, t.rows))
  }

  predicate Descending(p: Params) { p.order == Some("desc") }

  /** One direction for all the columns; rows with equal keys keep their order. */
  function SortValues(t: Table, p: Params): Table {
    var cols := Existing(t, ColumnsOf(p));
    if cols == [] then t else t.(rows := SortRows(cols, Descending(p), t.rows))
  }

  // ---- The transforms row by row ----------------------------------------------------------------------------

  /** How a number compares with the threshold under a method; a missing or unknown one means "gte". */
  predicate Meets(mode: Option<string>, x: real, threshold: real) {
    if mode == Some("gt") then x > threshold
    else if mode == Some("lt") then x < threshold
    else if mode == Some("lte") then x <= threshold
    else x >= threshold
  }

  /** A row that a filter keeps: in every requested numeric column it has a number that meets the
      threshold, which is 0 if none is given. */
  ghost predicate Kept(t: Table, p: Params, r: Row) {
    forall c :: p.columns.Some? && c in p.columns.value && IsNumeric(t, c) ==>
      Get(r, c).Num? && Meets(p.mode, Get(r, c).x, match p.threshold case None => 0.0 case Some(k) => k)
  }

  lemma {:induction false} KeepOneMore(test: Test, cols: seq<string>, rows: seq<Row>, r: Row)
    ensures Keep(test, cols, rows + [r]) == Keep(test, cols, rows) + if RowPasses(test, cols, r) then [r] else []
  {
    if rows == [] {
      assert [r][1..] == [];
    } else {
      assert (rows + [r])[1..] == rows[1..] + [r];
      KeepOneMore(test, cols, rows[1..], r);
    }
  }

  /** `filter_rows` looks at each row by itself, keeps exactly those, and leaves their order. */
  lemma {:induction false} FiltersRowByRow(t: Table, p: Params, r: Row)
    ensures FilterRows(t.(rows := []), p) == t.(rows := [])
    ensures var u := FilterRows(t, p);
            FilterRows(t.(rows := t.rows + [r]), p) == u.(rows := u.rows + if Kept(t, p, r) then [r] else [])
  {
    SameSchema(t, t.(rows := t.rows + [r]), ColumnsOf(p));
    KeepOneMore(TestOf(p), Numeric(t, ColumnsOf(p)), t.rows, r);
    KeptPasses(t, p, r);
  }

  lemma {:induction false} MeetsIsAccepted(p: Params, v: Value)
    ensures Accepts(TestOf(p), v) <==>
            v.Num? && Meets(p.mode, v.x, match p.threshold case None => 0.0 case Some(k) => k)
  {
  }

  lemma {:induction false} KeptPasses(t: Table, p: Params, r: Row)
    ensures RowPasses(TestOf(p), Numeric(t, ColumnsOf(p)), r) <==> Kept(t, p, r)
  {
    forall c ensures Accepts(TestOf(p), Get(r, c)) <==>
        Get(r, c).Num? && Meets(p.mode, Get(r, c).x, match p.threshold case None => 0.0 case Some(k) => k)
    {
      MeetsIsAccepted(p, Get(r, c));
    }
  }

  ghost predicate InSchema(t: Table, c: string) { exists k :: k in t.schema && k.name == c }

  /** A column that `drop_nulls` and `remove_duplicates` look at: a requested one, or any if none of
      the requested ones exists. */
  ghost predicate LookedAt(t: Table, p: Params, c: string) {
    InSchema(t, c) && (p.columns.Some? && (exists d :: d in p.columns.value && InSchema(t, d)) ==> c in p.columns.value)
  }

  lemma {:induction false} SubsetIsLookedAt(t: Table, p: Params)
    ensures forall c :: c in Subset(t, p) <==> LookedAt(t, p, c)
  {
    forall c ensures c in Names(t.schema) <==> InSchema(t, c) { InNames(t, c); }
    var cols := AllColumns(t, p);
    if cols != [] { assert cols[0] in cols; }
    if p.columns.Some? {
      forall d | d in p.columns.value && InSchema(t, d) ensures d in cols { }
    }
  }

  /** `drop_nulls` keeps the rows without a null in those columns. */
  lemma {:induction false} DropsRowByRow(t: Table, p: Params, r: Row)
    ensures DropNulls(t.(rows := []), p) == t.(rows := [])
    ensures var u := DropNulls(t, p);
            DropNulls(t.(rows := t.rows + [r]), p) ==
            u.(rows := u.rows + if forall c :: LookedAt(t, p, c) ==> !Get(r, c).Null? then [r] else [])
  {
    SameSchema(t, t.(rows := t.rows + [r]), ColumnsOf(p));
    SubsetIsLookedAt(t, p);
    KeepOneMore(NotNull, Subset(t, p), t.rows, r);
  }

  lemma {:induction false} SameKeys(cols: seq<string>, r: Row, s: Row)
    ensures KeysOf(cols, r) == KeysOf(cols, s) <==> forall c :: c in cols ==> Get(r, c) == Get(s, c)
  {
    var x, y := KeysOf(cols, r), KeysOf(cols, s);
    if x == y {
      forall c | c in cols ensures Get(r, c) == Get(s, c) {
        var i :| 0 <= i < |cols| && cols[i] == c;
        assert x[i] == Get(r, c) && y[i] == Get(s, c);
      }
    } else {
      assert (forall i :: 0 <= i < |cols| ==> x[i] == y[i]) ==> x == y;
    }
  }

  ghost predicate Seen(cols: seq<string>, rows: seq<Row>, r: Row) { exists s :: s in rows && KeysOf(cols, s) == KeysOf(cols, r) }

  lemma {:induction false} FirstsOneMore(cols: seq<string>, seen: set<seq<Value>>, rows: seq<Row>, r: Row)
    ensures Firsts(cols, seen, rows + [r]) ==
            Firsts(cols, seen, rows) + if KeysOf(cols, r) in seen || Seen(cols, rows, r) then [] else [r]
    decreases |rows|
  {
    if rows == [] {
      assert [r][1..] == [];
    } else {
      var k := KeysOf(cols, rows[0]);
      assert (rows + [r])[1..] == rows[1..] + [r];
      FirstsOneMore(cols, if k in seen then seen else seen + {k}, rows[1..], r);
      assert Seen(cols, rows, r) <==> k == KeysOf(cols, r) || Seen(cols, rows[1..], r) by {
        assert forall s :: s in rows <==> s == rows[0] || s in rows[1..];
      }
    }
  }

  /** `remove_duplicates` keeps a row if and only if no row before it agrees with it in those columns,
      so the first of each kind stays, in order. */
  lemma {:induction false} FirstOfEachKindStays(t: Table, p: Params, r: Row)
    ensures RemoveDuplicates(t.(rows := []), p) == t.(rows := [])
    ensures var u := RemoveDuplicates(t, p);
            RemoveDuplicates(t.(rows := t.rows + [r]), p) ==
            u.(rows := u.rows + if exists s :: s in t.rows && (forall c :: LookedAt(t, p, c) ==> Get(s, c) == Get(r, c)) then [] else [r])
  {
    SameSchema(t, t.(rows := t.rows + [r]), ColumnsOf(p));
    SubsetIsLookedAt(t, p);
    var cols := Subset(t, p);
    FirstsOneMore(cols, {}, t.rows, r);
    forall s | s in t.rows
      ensures KeysOf(cols, s) == KeysOf(cols, r) <==> forall c :: LookedAt(t, p, c) ==> Get(s, c) == Get(r, c)
    {
      SameKeys(cols, s, r);
    }
  }

  /** Two values in the order of a sort: nulls first, then descending for "desc" and ascending
      for anything else. */
  predicate InOrder(p: Params, a: Value, b: Value) {
    || a.Null?
    || (a.Num? && b.Num? && if p.order == Some("desc") then a.x >= b.x else a.x <= b.x)
    || (a.Str? && b.Str? && if p.order == Some("desc") then TextLeq(b.s, a.s) else TextLeq(a.s, b.s))
  }

  /** `sort_values` puts the first requested column that exists in order; without one it leaves the
      table as it is. SortByTwo says what the others do, SortRowsStable what happens to ties. */
  lemma {:induction false} SortsByTheFirst(t: Table, p: Params, i: nat, j: nat, c: string)
    requires p.columns.Some? && Existing(t, p.columns.value) != [] && c == Existing(t, p.columns.value)[0]
    requires i < j < |SortValues(t, p).rows|
    ensures var a, b := Get(SortValues(t, p).rows[i], c), Get(SortValues(t, p).rows[j], c);
            InOrder(p, a, b) || (a.Num? && b.Str?) || (a.Str? && b.Num?)
    ensures SortValues(t, p).schema == t.schema && multiset(SortValues(t, p).rows) == multiset(t.rows)
  {
    var cols := Existing(t, p.columns.value);
    SortRowsSorts(cols, Descending(p), t.rows);
    var r, s := SortValues(t, p).rows[i], SortValues(t, p).rows[j];
    assert RowLeq(cols, Descending(p), r, s);
    KeyTotal(Get(r, c), Get(s, c), Descending(p));
  }

  lemma {:induction false} SortsNothing(t: Table, p: Params)
    requires p.columns.None? || forall c :: c in p.columns.value ==> !InSchema(t, c)
    ensures SortValues(t, p) == t
  {
    var cols := Existing(t, ColumnsOf(p));
    forall c ensures c !in cols { InNames(t, c); }
    FirstIsMember(cols);
  }

  lemma {:induction false} FirstIsMember(cols: seq<string>)
    ensures cols == [] || cols[0] in cols
  {
  }

  lemma {:induction false} InNames(t: Table, c: string)
    ensures c in Names(t.schema) <==> InSchema(t, c)
  {
    assert c in Names(t.schema) <==> exists i :: 0 <= i < |t.schema| && t.schema[i].name == c;
  }

  // ---- Filters --------------------------------------------------------------------------------------------

  /** Filters commute, whatever they test. */
  lemma {:induction false} KeepCommutes(f: Test, a: seq<string>, g: Test, b: seq<string>, rows: seq<Row>)
    ensures Keep(f, a, Keep(g, b, rows)) == Keep(g, b, Keep(f, a, rows))
  {
    if rows != [] {
      KeepCommutes(f, a, g, b, rows[1..]);
      KeepCons(f, a, rows[0], Keep(g, b, rows[1..]));
      KeepCons(g, b, rows[0], Keep(f, a, rows[1..]));
    }
  }

  lemma {:induction false} KeepCons(f: Test, a: seq<string>, r: Row, rows: seq<Row>)
    ensures Keep(f, a, [r] + rows) == if RowPasses(f, a, r) then [r] + Keep(f, a, rows) else Keep(f, a, rows)
  {
    assert ([r] + rows)[1..] == rows;
  }

  /** Testing the columns a and b at once is testing a and then b. */
  lemma {:induction false} KeepChains(f: Test, a: seq<string>, b: seq<string>, ab: seq<string>, rows: seq<Row>)
    requires forall c :: c in ab <==> c in a || c in b
    ensures Keep(f, b, Keep(f, a, rows)) == Keep(f, ab, rows)
  {
    if rows != [] {
      KeepChains(f, a, b, ab, rows[1..]);
      KeepCons(f, b, rows[0], Keep(f, a, rows[1..]));
    }
  }

  /** Only the set of tested columns matters. */
  lemma {:induction false} KeepSameColumns(f: Test, a: seq<string>, b: seq<string>, rows: seq<Row>)
    requires forall c :: c in a <==> c in b
    ensures Keep(f, a, rows) == Keep(f, b, rows)
  {
    if rows != [] { KeepSameColumns(f, a, b, rows[1..]); }
  }

  /** Filtering after inserting into sorted rows is inserting, or not, after filtering. */
  lemma {:induction false} KeepInsert(f: Test, a: seq<string>, cols: seq<string>, desc: bool, r: Row, rows: seq<Row>)
    requires Sorted(cols, desc, rows)
    ensures Keep(f, a, Insert(cols, desc, r, rows)) ==
            if RowPasses(f, a, r) then Insert(cols, desc, r, Keep(f, a, rows)) else Keep(f, a, rows)
  {
    if rows == [] || RowLeq(cols, desc, r, rows[0]) {
      KeepCons(f, a, r, rows);
      var kept := Keep(f, a, rows);
      if kept != [] {
        KeepIsPart(f, a, rows);
        assert kept[0] in rows;
        var i :| 0 <= i < |rows| && rows[i] == kept[0];
        if i > 0 { RowTransitive(cols, desc, r, rows[0], rows[i]); }
      }
    } else {
      KeepInsert(f, a, cols, desc, r, rows[1..]);
      var h := rows[0];
      KeepCons(f, a, h, Insert(cols, desc, r, rows[1..]));
      if RowPasses(f, a, h) && RowPasses(f, a, r) {
        assert Keep(f, a, rows)[1..] == Keep(f, a, rows[1..]);
      }
    }
  }

  lemma {:induction false} KeepIsPart(f: Test, a: seq<string>, rows: seq<Row>)
    ensures forall r :: r in Keep(f, a, rows) <==> r in rows && RowPasses(f, a, r)
  {
    if rows != [] {
      KeepIsPart(f, a, rows[1..]);
      assert forall r :: r in rows <==> r == rows[0] || r in rows[1..];
    }
  }

  lemma {:induction false} KeepSort(f: Test, a: seq<string>, cols: seq<string>, desc: bool, rows: seq<Row>)
    ensures Keep(f, a, SortRows(cols, desc, rows)) == SortRows(cols, desc, Keep(f, a, rows))
  {
    if rows != [] {
      KeepSort(f, a, cols, desc, rows[1..]);
      SortRowsSorts(cols, desc, rows[1..]);
      KeepInsert(f, a, cols, desc, rows[0], SortRows(cols, desc, rows[1..]));
      if RowPasses(f, a, rows[0]) { assert Keep(f, a, rows)[1..] == Keep(f, a, rows[1..]); }
    }
  }

  // ---- Laws of the transforms -----------------------------------------------------------------------------

  /** The two row filters, by action name. */
  datatype RowFilter = Filter | Drop

  function Apply(k: RowFilter, t: Table, p: Params): Table {
    match k
    case Filter => FilterRows(t, p)
    case Drop => DropNulls(t, p)
  }

  /** What a row filter tests depends on the schema alone, which no row filter and no sort changes. */
  function TestedBy(k: RowFilter, schema: seq<Column>, p: Params): (Test, seq<string>) {
    match k
    case Filter => (TestOf(p), Numeric(Table(schema, []), ColumnsOf(p)))
    case Drop => (NotNull, Subset(Table(schema, []), p))
  }

  lemma {:induction false} ApplyKeeps(k: RowFilter, t: Table, p: Params)
    ensures var (test, cols) := TestedBy(k, t.schema, p);
            Apply(k, t, p) == Table(t.schema, Keep(test, cols, t.rows))
  {
    SameSchema(t, Table(t.schema, []), ColumnsOf(p));
  }

  /** Row filters commute with one another. */
  lemma RowFiltersCommute(k: RowFilter, p: Params, l: RowFilter, q: Params, t: Table)
    ensures Apply(k, Apply(l, t, q), p) == Apply(l, Apply(k, t, p), q)
  {
    ApplyKeeps(l, t, q);
    ApplyKeeps(k, t, p);
    ApplyKeeps(k, Apply(l, t, q), p);
    ApplyKeeps(l, Apply(k, t, p), q);
    var (f, a) := TestedBy(k, t.schema, p);
    var (g, b) := TestedBy(l, t.schema, q);
    KeepCommutes(f, a, g, b, t.rows);
  }

  /** A row filter can be moved before the sort or after it. */
  lemma FilterPassesSort(k: RowFilter, p: Params, q: Params, t: Table)
    ensures Apply(k, SortValues(t, q), p) == SortValues(Apply(k, t, p), q)
  {
    ApplyKeeps(k, t, p);
    ApplyKeeps(k, SortValues(t, q), p);
    SameSchema(t, Apply(k, t, p), ColumnsOf(q));
    var (f, a) := TestedBy(k, t.schema, p);
    KeepSort(f, a, Existing(t, ColumnsOf(q)), Descending(q), t.rows);
  }

  function OnColumns(p: Params, cols: seq<string>): Params { p.(columns := Some(cols)) }

  /** Sorting by the columns b and then by a is one sort by a and b, in the same direction. */
  lemma SortByTwo(t: Table, p: Params, a: seq<string>, b: seq<string>)
    ensures SortValues(SortValues(t, OnColumns(p, b)), OnColumns(p, a)) == SortValues(t, OnColumns(p, a + b))
  {
    var u := SortValues(t, OnColumns(p, b));
    SameSchema(t, u, a);
    ListedInOrder(t, a, b);
    var x, y := Existing(t, a), Existing(t, b);
    SortTwice(x, y, Descending(p), t.rows);
    if x == [] { assert x + y == y; }
    if y == [] { assert x + y == x; }
  }

  /** The same filter on one column after another. */
  function Chain(k: RowFilter, t: Table, p: Params, cols: seq<string>): Table
    decreases |cols|
  {
    if cols == [] then t else Chain(k, Apply(k, t, OnColumns(p, [cols[0]])), p, cols[1..])
  }

  /** filter_rows on several columns is the chain of its single-column filters. */
  lemma {:induction false} FilterChains(t: Table, p: Params, cols: seq<string>)
    ensures Chain(Filter, t, p, cols) == FilterRows(t, OnColumns(p, cols))
    decreases |cols|
  {
    if cols == [] {
      KeepAll(TestOf(p), [], t.rows);
    } else {
      var u := FilterRows(t, OnColumns(p, [cols[0]]));
      FilterChains(u, p, cols[1..]);
      SameSchema(t, u, cols[1..]);
      assert forall c :: c in cols <==> c == cols[0] || c in cols[1..];
      KeepChains(TestOf(p), Numeric(t, [cols[0]]), Numeric(t, cols[1..]), Numeric(t, cols), t.rows);
    }
  }

  // ---- drop_nulls on several columns ------------------------------------------------------------------------

  /** The columns a chain of single-column `drop_nulls` looks at. */
  function ChainSubset(t: Table, p: Params, cols: seq<string>): seq<string> {
    if cols == [] then [] else Subset(t, OnColumns(p, [cols[0]])) + ChainSubset(t, p, cols[1..])
  }

  lemma {:induction false} SubsetOfOne(t: Table, p: Params, c: string)
    ensures Subset(t, OnColumns(p, [c])) == if HasColumn(t, c) then [c] else Names(t.schema)
  {
    assert ColumnsOf(OnColumns(p, [c])) == [c] && [c][1..] == [];
    assert Existing(t, []) == [];
    assert Existing(t, [c]) == if HasColumn(t, c) then [c] else [];
  }

  lemma {:induction false} DropChainKeeps(t: Table, p: Params, cols: seq<string>)
    ensures Chain(Drop, t, p, cols) == t.(rows := Keep(NotNull, ChainSubset(t, p, cols), t.rows))
    decreases |cols|
  {
    if cols == [] {
      KeepAll(NotNull, [], t.rows);
    } else {
      var a, b := Subset(t, OnColumns(p, [cols[0]])), ChainSubset(t, p, cols[1..]);
      var u := DropNulls(t, OnColumns(p, [cols[0]]));
      DropChainKeeps(u, p, cols[1..]);
      SameChainSubset(t, u, p, cols[1..]);
      KeepChains(NotNull, a, b, a + b, t.rows);
    }
  }

  lemma {:induction false} SameChainSubset(t: Table, u: Table, p: Params, cols: seq<string>)
    requires t.schema == u.schema
    ensures ChainSubset(t, p, cols) == ChainSubset(u, p, cols)
  {
    if cols != [] {
      SameSchema(t, u, [cols[0]]);
      SameChainSubset(t, u, p, cols[1..]);
    }
  }

  /** A chain that meets a missing column looks at every column of the table. */
  lemma {:induction false} ChainSubsetIs(t: Table, p: Params, cols: seq<string>)
    ensures forall c :: c in ChainSubset(t, p, cols) <==>
                        HasColumn(t, c) && (c in cols || exists m :: m in cols && !HasColumn(t, m))
  {
    if cols != [] {
      ChainSubsetIs(t, p, cols[1..]);
      SubsetOfOne(t, p, cols[0]);
      assert forall c :: c in cols <==> c == cols[0] || c in cols[1..];
    }
  }

  ghost predicate DropChainLaw(t: Table, p: Params, cols: seq<string>) {
    Chain(Drop, t, p, cols) == DropNulls(t, OnColumns(p, cols))
  }

  /** When asking for several columns at once is the same as asking for one after another. */
  ghost predicate DropChains(t: Table, cols: seq<string>) {
    || t.schema == []
    || (cols != [] && (|| (forall c :: c in cols ==> HasColumn(t, c))
                       || (forall c :: c in cols ==> !HasColumn(t, c))
                       || (forall c :: HasColumn(t, c) ==> c in cols)))
  }

  /** A row that is complete exactly in the listed columns. */
  function CompleteIn(t: Table, cols: seq<string>): Row {
    map c | c in Names(t.schema) :: if c in cols then Num(0.0) else Null
  }

  /** The chain law of `drop_nulls` fails when only some of the requested columns exist and
      the others are not all of the table: it holds for every content of the table exactly
      when no requested column is missing, or all are, or they cover the table. */
  lemma {:induction false} DropNullsChains(t: Table, p: Params, cols: seq<string>)
    ensures (forall rows :: DropChainLaw(t.(rows := rows), p, cols)) <==> DropChains(t, cols)
  {
    if DropChains(t, cols) {
      forall rows: seq<Row> ensures DropChainLaw(t.(rows := rows), p, cols) {
        DropChainsSuffices(t.(rows := rows), p, cols);
      }
    } else {
      var u := t.(rows := [CompleteIn(t, cols)]);
      DropChainsNeeded(u, p, cols);
      assert !DropChainLaw(t.(rows := u.rows), p, cols);
    }
  }

  lemma {:induction false} SubsetIs(t: Table, p: Params, cols: seq<string>)
    ensures forall c :: c in Subset(t, OnColumns(p, cols)) <==>
                        HasColumn(t, c) && (c in cols || forall m :: m in cols ==> !HasColumn(t, m))
  {
    var e := Existing(t, cols);
    assert Subset(t, OnColumns(p, cols)) == if cols == [] || e == [] then Names(t.schema) else e;
    if e != [] { assert e[0] in e; }
  }

  lemma {:induction false} DropChainsSuffices(t: Table, p: Params, cols: seq<string>)
    requires DropChains(t, cols)
    ensures DropChainLaw(t, p, cols)
  {
    var a, b := ChainSubset(t, p, cols), Subset(t, OnColumns(p, cols));
    DropChainKeeps(t, p, cols);
    ChainSubsetIs(t, p, cols);
    SubsetIs(t, p, cols);
    if t.schema == [] {
      assert forall c :: !HasColumn(t, c);
    } else if forall c :: c in cols ==> HasColumn(t, c) {
      assert cols[0] in cols;
    }
    KeepSameColumns(NotNull, a, b, t.rows);
  }

  lemma {:induction false} DropChainsNeeded(t: Table, p: Params, cols: seq<string>)
    requires !DropChains(t, cols) && t.rows == [CompleteIn(t, cols)]
    ensures !DropChainLaw(t, p, cols)
  {
    DropChainKeeps(t, p, cols);
    ChainSubsetIs(t, p, cols);
    var r := t.rows[0];
    KeepIsPart(NotNull, ChainSubset(t, p, cols), t.rows);
    KeepIsPart(NotNull, Subset(t, OnColumns(p, cols)), t.rows);
    if cols == [] {
      assert Names(t.schema)[0] == t.schema[0].name;
      assert !Accepts(NotNull, Get(r, t.schema[0].name));
      assert r in Chain(Drop, t, p, cols).rows && r !in DropNulls(t, OnColumns(p, cols)).rows;
    } else {
      var open :| HasColumn(t, open) && open !in cols;
      var missing :| missing in cols && !HasColumn(t, missing);
      assert open in ChainSubset(t, p, cols) && !Accepts(NotNull, Get(r, open));
      assert RowPasses(NotNull, Existing(t, cols), r);
      assert r !in Chain(Drop, t, p, cols).rows && r in DropNulls(t, OnColumns(p, cols)).rows;
    }
  }

  // ---- Duplicates ---------------------------------------------------------------------------------------------

  /** Under every key, what is left is the first of its rows. */
  lemma {:induction false} FirstsLeave(cols: seq<string>, seen: set<seq<Value>>, rows: seq<Row>, k: seq<Value>)
    ensures var all := WithKeys(cols, k, rows);
            WithKeys(cols, k, Firsts(cols, seen, rows)) == if k in seen || all == [] then [] else [all[0]]
    decreases |rows|
  {
    if rows != [] {
      var k0 := KeysOf(cols, rows[0]);
      if k0 in seen {
        FirstsLeave(cols, seen, rows[1..], k);
      } else {
        FirstsLeave(cols, seen + {k0}, rows[1..], k);
        WithKeysCons(cols, k, rows[0], Firsts(cols, seen + {k0}, rows[1..]));
      }
    }
  }

  lemma {:induction false} FirstsSorted(cols: seq<string>, desc: bool, seen: set<seq<Value>>, rows: seq<Row>)
    requires Sorted(cols, desc, rows)
    ensures Sorted(cols, desc, Firsts(cols, seen, rows))
    ensures forall r :: r in Firsts(cols, seen, rows) ==> r in rows
    decreases |rows|
  {
    if rows != [] {
      var k0 := KeysOf(cols, rows[0]);
      if k0 in seen { FirstsSorted(cols, desc, seen, rows[1..]); return; }
      FirstsSorted(cols, desc, seen + {k0}, rows[1..]);
      SortedCons(cols, desc, rows[0], Firsts(cols, seen + {k0}, rows[1..]));
    }
  }

  /** No two rows left agree on the subset, and every row of the input agrees with one left. */
  lemma {:induction false} DuplicatesGone(t: Table, p: Params)
    ensures var cols, out := Subset(t, p), RemoveDuplicates(t, p).rows;
            forall k :: |WithKeys(cols, k, out)| <= 1 && (WithKeys(cols, k, out) == [] <==> WithKeys(cols, k, t.rows) == [])
  {
    var cols := Subset(t, p);
    forall k ensures WithKeys(cols, k, Firsts(cols, {}, t.rows)) ==
                     if WithKeys(cols, k, t.rows) == [] then [] else [WithKeys(cols, k, t.rows)[0]] {
      FirstsLeave(cols, {}, t.rows, k);
    }
  }

  /** Sorting and removing duplicates by the same columns can be swapped: because the sort is
      stable, the first row of each key stays the first. */
  lemma {:induction false} DuplicatesPassSort(t: Table, p: Params)
    ensures RemoveDuplicates(SortValues(t, p), p) == SortValues(RemoveDuplicates(t, p), p)
  {
    var cols, desc := Existing(t, ColumnsOf(p)), Descending(p);
    var s, u := SortValues(t, p), RemoveDuplicates(t, p);
    SameSchema(t, s, ColumnsOf(p));
    SameSchema(t, u, ColumnsOf(p));
    if cols != [] {
      var a, b := Firsts(cols, {}, s.rows), SortRows(cols, desc, u.rows);
      SortRowsSorts(cols, desc, t.rows);
      FirstsSorted(cols, desc, {}, s.rows);
      SortRowsSorts(cols, desc, u.rows);
      forall k ensures WithKeys(cols, k, a) == WithKeys(cols, k, b) {
        FirstsLeave(cols, {}, s.rows, k);
        SortRowsStable(cols, desc, t.rows, k);
        SortRowsStable(cols, desc, u.rows, k);
        FirstsLeave(cols, {}, t.rows, k);
      }
      StableSortIsUnique(cols, desc, a, b);
    }
  }
}
