/** `groupby_aggregate`: one row per distinct value of the first column, with an aggregate of
    each numeric column after it, sorted by the group column. */
module GroupBy {
  import opened Options
  import opened Tables
  import opened RowOrder
  import opened Sequences

  datatype Aggregation = Sum | Mean | Count

  /** A missing or unknown method means "sum". */
  function AggregationOf(mode: Option<string>): Aggregation {
    match mode
    case Some("mean") => Mean
    case Some("count") => Count
    case _ => Sum
  }

  function Suffix(a: Aggregation): string {
    match a case Sum => "_sum" case Mean => "_mean" case Count => "_count"
  }

  function Alias(a: Aggregation, c: string): string { c + Suffix(a) }

  function Aliases(a: Aggregation, cols: seq<string>): (r: seq<string>)
    ensures forall n :: n in r <==> exists c :: c in cols && n == Alias(a, c)
  {
    if cols == [] then [] else [Alias(a, cols[0])] + Aliases(a, cols[1..])
  }

  /** What a cell adds to the number of values, or to their sum; a null adds nothing. */
  function Weight(counting: bool, v: Value): real {
    if v.Null? then 0.0 else if counting then 1.0 else if v.Num? then v.x else 0.0
  }

  function Total(counting: bool, c: string, rows: seq<Row>): real {
    if rows == [] then 0.0 else Weight(counting, Get(rows[0], c)) + Total(counting, c, rows[1..])
  }

  /** The mean of a group without values is null, its sum and count are 0. */
  function Aggregate(a: Aggregation, c: string, rows: seq<Row>): Value {
    var sum, count := Total(false, c, rows), Total(true, c, rows);
    match a
    case Sum => Num(sum)
    case Count => Num(count)
    case Mean => if count == 0.0 then Null else Num(sum / count)
  }

  function Cells(a: Aggregation, cols: seq<string>, rows: seq<Row>): (r: Row)
    ensures forall n :: n in r <==> n in Aliases(a, cols)
  {
    if cols == [] then map[] else Cells(a, cols[1..], rows)[Alias(a, cols[0]) := Aggregate(a, cols[0], rows)]
  }

  function GroupRow(g: string, a: Aggregation, cols: seq<string>, rows: seq<Row>, v: Value): Row {
    Cells(a, cols, WithKeys([g], [v], rows))[g := v]
  }

  function Grouped(g: string, a: Aggregation, cols: seq<string>, rows: seq<Row>, keys: seq<Value>): seq<Row> {
    if keys == [] then [] else [GroupRow(g, a, cols, rows, keys[0])] + Grouped(g, a, cols, rows, keys[1..])
  }

  function Schema(t: Table, g: string, names: seq<string>): seq<Column> {
    [Column(g, IsNumeric(t, g))] + seq(|names|, i requires 0 <= i < |names| => Column(names[i], true))
  }

  predicate Groups(t: Table, p: Params) {
    var cols := ColumnsOf(p);
    |cols| >= 2 && HasColumn(t, cols[0]) && Numeric(t, cols[1..]) != []
  }

  /** The transform, given the order in which the groups happen to be enumerated; None when it
      raises, because two output columns would have the same name. */
  function GroupByAggregate(t: Table, p: Params, keys: seq<Value>): Option<Table> {
    if !Groups(t, p) then Some(t)
    else
      var g, a, cols := ColumnsOf(p)[0], AggregationOf(p.mode), Numeric(t, ColumnsOf(p)[1..]);
      var names := Aliases(a, cols);
      if !Distinct([g] + names) then None
      else Some(Table(Schema(t, g, names), SortRows([g], false, Grouped(g, a, cols, t.rows, keys))))
  }

  /** Every value of the group column once, null included, in some order. */
  ghost predicate Enumerates(keys: seq<Value>, g: string, rows: seq<Row>) {
    Distinct(keys) && forall v :: v in keys <==> Occurs(v, g, rows)
  }

  ghost predicate Occurs(v: Value, g: string, rows: seq<Row>) {
    exists r :: r in rows && Get(r, g) == v
  }

  ghost predicate EnumeratesFor(keys: seq<Value>, t: Table, p: Params) {
    Groups(t, p) ==> Enumerates(keys, ColumnsOf(p)[0], t.rows)
  }

  // ---- The order of the rows and of the groups does not matter ---------------------------------------------

  lemma {:induction false} TotalAppend(counting: bool, c: string, a: seq<Row>, b: seq<Row>)
    ensures Total(counting, c, a + b) == Total(counting, c, a) + Total(counting, c, b)
  {
    if a == [] {
      assert a + b == b;
    } else {
      assert (a + b)[1..] == a[1..] + b;
      TotalAppend(counting, c, a[1..], b);
    }
  }

  lemma {:induction false} TotalPermute(counting: bool, c: string, a: seq<Row>, b: seq<Row>)
    requires multiset(a) == multiset(b)
    ensures Total(counting, c, a) == Total(counting, c, b)
    decreases |a|
  {
    if a == [] {
      assert |multiset(b)| == |b|;
    } else {
      var l, r := TakeOut(a, b);
      TotalPermute(counting, c, a[1..], l + r);
      TotalAppend(counting, c, l, r);
      TotalAppend(counting, c, l, [a[0]] + r);
      assert ([a[0]] + r)[1..] == r;
    }
  }

  lemma {:induction false} WithKeysCount(cols: seq<string>, k: seq<Value>, rows: seq<Row>, r: Row)
    ensures multiset(WithKeys(cols, k, rows))[r] == if KeysOf(cols, r) == k then multiset(rows)[r] else 0
  {
    if rows != [] {
      WithKeysCount(cols, k, rows[1..], r);
      assert rows == [rows[0]] + rows[1..];
    }
  }

  lemma {:induction false} WithKeysPermute(cols: seq<string>, k: seq<Value>, a: seq<Row>, b: seq<Row>)
    requires multiset(a) == multiset(b)
    ensures multiset(WithKeys(cols, k, a)) == multiset(WithKeys(cols, k, b))
  {
    forall r ensures multiset(WithKeys(cols, k, a))[r] == multiset(WithKeys(cols, k, b))[r] {
      WithKeysCount(cols, k, a, r);
      WithKeysCount(cols, k, b, r);
    }
  }

  lemma {:induction false} CellsPermute(agg: Aggregation, cols: seq<string>, a: seq<Row>, b: seq<Row>)
    requires multiset(a) == multiset(b)
    ensures Cells(agg, cols, a) == Cells(agg, cols, b)
  {
    if cols != [] {
      TotalPermute(false, cols[0], a, b);
      TotalPermute(true, cols[0], a, b);
      CellsPermute(agg, cols[1..], a, b);
    }
  }

  lemma {:induction false} GroupedPermute(g: string, agg: Aggregation, cols: seq<string>, a: seq<Row>, b: seq<Row>,
                                          keys: seq<Value>)
    requires multiset(a) == multiset(b)
    ensures Grouped(g, agg, cols, a, keys) == Grouped(g, agg, cols, b, keys)
  {
    if keys != [] {
      WithKeysPermute([g], [keys[0]], a, b);
      CellsPermute(agg, cols, WithKeys([g], [keys[0]], a), WithKeys([g], [keys[0]], b));
      GroupedPermute(g, agg, cols, a, b, keys[1..]);
    }
  }

  /** Each enumerated value has exactly one row. */
  lemma {:induction false} OneRowPerKey(g: string, a: Aggregation, cols: seq<string>, rows: seq<Row>,
                                        keys: seq<Value>, k: seq<Value>)
    requires Distinct(keys)
    ensures WithKeys([g], k, Grouped(g, a, cols, rows, keys)) ==
            if |k| == 1 && k[0] in keys then [GroupRow(g, a, cols, rows, k[0])] else []
  {
    if keys != [] {
      var r := GroupRow(g, a, cols, rows, keys[0]);
      OneRowPerKey(g, a, cols, rows, keys[1..], k);
      WithKeysCons([g], k, r, Grouped(g, a, cols, rows, keys[1..]));
      assert KeysOf([g], r) == [keys[0]];
      if |k| == 1 { assert KeysOf([g], r) == k <==> keys[0] == k[0]; }
      assert Distinct(keys[1..]) by { assert forall i :: 0 <= i < |keys[1..]| ==> keys[1..][i] == keys[i + 1]; }
      assert keys[0] !in keys[1..];
    }
  }

  /** The result depends neither on the order in which the groups are enumerated nor on the
      order of the rows; in particular sorting before grouping changes nothing. */
  lemma {:induction false} OrderDoesNotMatter(t: Table, u: Table, p: Params, k: seq<Value>, l: seq<Value>)
    requires t.schema == u.schema && multiset(t.rows) == multiset(u.rows) && Groups(t, p)
    requires EnumeratesFor(k, t, p) && EnumeratesFor(l, u, p)
    ensures GroupByAggregate(t, p, k) == GroupByAggregate(u, p, l)
  {
    var g, a, cols := ColumnsOf(p)[0], AggregationOf(p.mode), Numeric(t, ColumnsOf(p)[1..]);
    SameSchema(t, u, ColumnsOf(p)[1..]);
    GroupedPermute(g, a, cols, t.rows, u.rows, l);
    forall v ensures v in k <==> v in l {
      SameRows(t.rows, u.rows);
    }
    var x, y := Grouped(g, a, cols, t.rows, k), Grouped(g, a, cols, t.rows, l);
    SortRowsSorts([g], false, x);
    SortRowsSorts([g], false, y);
    forall key ensures WithKeys([g], key, SortRows([g], false, x)) == WithKeys([g], key, SortRows([g], false, y)) {
      SortRowsStable([g], false, x, key);
      SortRowsStable([g], false, y, key);
      OneRowPerKey(g, a, cols, t.rows, k, key);
      OneRowPerKey(g, a, cols, t.rows, l, key);
    }
    StableSortIsUnique([g], false, SortRows([g], false, x), SortRows([g], false, y));
  }

  lemma {:induction false} SameRows(a: seq<Row>, b: seq<Row>)
    requires multiset(a) == multiset(b)
    ensures forall r :: r in a <==> r in b
  {
    assert forall r :: r in a <==> r in multiset(a);
    assert forall r :: r in b <==> r in multiset(b);
  }

  // ---- The keys ---------------------------------------------------------------------------------------------

  lemma {:induction false} GroupedKeys(g: string, a: Aggregation, cols: seq<string>, rows: seq<Row>, keys: seq<Value>)
    ensures |Grouped(g, a, cols, rows, keys)| == |keys|
    ensures forall i :: 0 <= i < |keys| ==> Grouped(g, a, cols, rows, keys)[i] == GroupRow(g, a, cols, rows, keys[i])
  {
    if keys != [] { GroupedKeys(g, a, cols, rows, keys[1..]); }
  }

  ghost predicate StrictlyAscending(g: string, rows: seq<Row>) {
    forall i, j :: 0 <= i < j < |rows| ==>
      ValueLeq(Get(rows[i], g), Get(rows[j], g)) && Get(rows[i], g) != Get(rows[j], g)
  }

  /** The output's keys are strictly ascending and are exactly the input's. */
  lemma {:induction false} KeysAreTheInputs(t: Table, p: Params, keys: seq<Value>, out: Table)
    requires Groups(t, p) && EnumeratesFor(keys, t, p) && GroupByAggregate(t, p, keys) == Some(out)
    ensures StrictlyAscending(ColumnsOf(p)[0], out.rows)
    ensures forall v :: Occurs(v, ColumnsOf(p)[0], out.rows) <==> Occurs(v, ColumnsOf(p)[0], t.rows)
  {
    var g, a, cols := ColumnsOf(p)[0], AggregationOf(p.mode), Numeric(t, ColumnsOf(p)[1..]);
    KeysAscend(g, a, cols, t.rows, keys);
    var all := Grouped(g, a, cols, t.rows, keys);
    SortRowsSorts([g], false, all);
    SameRows(all, out.rows);
    forall v ensures Occurs(v, g, out.rows) <==> v in keys {
      KeysOccur(g, a, cols, t.rows, keys, v);
    }
  }

  lemma {:induction false} KeysOccur(g: string, a: Aggregation, cols: seq<string>, rows: seq<Row>, keys: seq<Value>,
                                     v: Value)
    ensures Occurs(v, g, Grouped(g, a, cols, rows, keys)) <==> v in keys
  {
    var all := Grouped(g, a, cols, rows, keys);
    GroupedKeys(g, a, cols, rows, keys);
    if v in keys {
      var i :| 0 <= i < |keys| && keys[i] == v;
      assert all[i] in all && Get(all[i], g) == v;
    }
    if Occurs(v, g, all) {
      var r :| r in all && Get(r, g) == v;
      var i :| 0 <= i < |all| && all[i] == r;
      assert Get(r, g) == keys[i];
    }
  }

  lemma {:induction false} KeysAscend(g: string, a: Aggregation, cols: seq<string>, rows: seq<Row>, keys: seq<Value>)
    requires Distinct(keys)
    ensures StrictlyAscending(g, SortRows([g], false, Grouped(g, a, cols, rows, keys)))
  {
    var all := Grouped(g, a, cols, rows, keys);
    var out := SortRows([g], false, all);
    SortRowsSorts([g], false, all);
    forall i, j | 0 <= i < j < |out|
      ensures ValueLeq(Get(out[i], g), Get(out[j], g)) && Get(out[i], g) != Get(out[j], g)
    {
      var x, y := out[i], out[j];
      KeyTotal(Get(x, g), Get(x, g), false);
      assert RowLeq([g], false, x, y);
      SortRowsStable([g], false, all, KeysOf([g], x));
      OneRowPerKey(g, a, cols, rows, keys, KeysOf([g], x));
      if Get(x, g) == Get(y, g) {
        assert KeysOf([g], x) == KeysOf([g], y);
        TwoWithKeys([g], KeysOf([g], x), out, i, j);
      }
    }
  }

  lemma {:induction false} WithKeysCounts(cols: seq<string>, k: seq<Value>, rows: seq<Row>)
    requires rows != []
    ensures |WithKeys(cols, k, rows)| == |WithKeys(cols, k, rows[1..])| + if KeysOf(cols, rows[0]) == k then 1 else 0
  {
  }

  lemma {:induction false} OneWithKeys(cols: seq<string>, k: seq<Value>, rows: seq<Row>, i: nat)
    requires i < |rows| && KeysOf(cols, rows[i]) == k
    ensures |WithKeys(cols, k, rows)| >= 1
  {
    WithKeysFinds(cols, rows, i);
  }

  /** Two positions with the keys k are two rows under k. */
  lemma {:induction false} TwoWithKeys(cols: seq<string>, k: seq<Value>, rows: seq<Row>, i: nat, j: nat)
    requires i < j < |rows| && KeysOf(cols, rows[i]) == k && KeysOf(cols, rows[j]) == k
    ensures |WithKeys(cols, k, rows)| >= 2
  {
    if i == 0 { OneWithKeys(cols, k, rows[1..], j - 1); } else { TwoWithKeys(cols, k, rows[1..], i - 1, j - 1); }
    var n := |WithKeys(cols, k, rows[1..])|;
    assert i > 0 ==> n >= 2;
    WithKeysCounts(cols, k, rows);
  }

  // ---- Conservation -------------------------------------------------------------------------------------------

  /** The totals of the groups. */
  function GroupTotals(counting: bool, c: string, g: string, keys: seq<Value>, rows: seq<Row>): real {
    if keys == [] then 0.0
    else Total(counting, c, WithKeys([g], [keys[0]], rows)) + GroupTotals(counting, c, g, keys[1..], rows)
  }

  /** A row adds to the total of its own group only. */
  lemma {:induction false} OneGroupGrows(counting: bool, c: string, g: string, keys: seq<Value>, r: Row, rows: seq<Row>)
    requires Distinct(keys)
    ensures GroupTotals(counting, c, g, keys, [r] + rows) ==
            GroupTotals(counting, c, g, keys, rows) + if Get(r, g) in keys then Weight(counting, Get(r, c)) else 0.0
  {
    if keys != [] {
      var k := [keys[0]];
      assert Distinct(keys[1..]) by { assert forall i :: 0 <= i < |keys[1..]| ==> keys[1..][i] == keys[i + 1]; }
      assert keys[0] !in keys[1..];
      OneGroupGrows(counting, c, g, keys[1..], r, rows);
      WithKeysCons([g], k, r, rows);
      assert KeysOf([g], r) == [Get(r, g)];
      assert KeysOf([g], r) == k <==> Get(r, g) == keys[0];
      assert ([r] + WithKeys([g], k, rows))[1..] == WithKeys([g], k, rows);
      assert [] + WithKeys([g], k, rows) == WithKeys([g], k, rows);
    }
  }

  lemma {:induction false} GroupsOfNothing(counting: bool, c: string, g: string, keys: seq<Value>)
    ensures GroupTotals(counting, c, g, keys, []) == 0.0
  {
    if keys != [] { GroupsOfNothing(counting, c, g, keys[1..]); }
  }

  /** Groups that cover the rows share out their total. */
  lemma {:induction false} GroupsShareTotal(counting: bool, c: string, g: string, keys: seq<Value>, rows: seq<Row>)
    requires Distinct(keys) && forall r :: r in rows ==> Get(r, g) in keys
    ensures GroupTotals(counting, c, g, keys, rows) == Total(counting, c, rows)
  {
    if rows == [] {
      GroupsOfNothing(counting, c, g, keys);
    } else {
      GroupsShareTotal(counting, c, g, keys, rows[1..]);
      OneGroupGrows(counting, c, g, keys, rows[0], rows[1..]);
      assert rows == [rows[0]] + rows[1..];
    }
  }

  lemma {:induction false} AliasInjective(a: Aggregation, c: string, d: string)
    ensures Alias(a, c) == Alias(a, d) ==> c == d
  {
    var x, y := Alias(a, c), Alias(a, d);
    assert c == x[..|x| - |Suffix(a)|] && d == y[..|y| - |Suffix(a)|];
  }

  /** Distinct output columns keep the aliases apart from the group column. */
  lemma {:induction false} AliasIsNotKey(g: string, a: Aggregation, cols: seq<string>, c: string)
    requires c in cols && Distinct([g] + Aliases(a, cols))
    ensures Alias(a, c) != g
  {
    var names := [g] + Aliases(a, cols);
    assert Alias(a, c) in Aliases(a, cols);
    var i :| 0 <= i < |Aliases(a, cols)| && Aliases(a, cols)[i] == Alias(a, c);
    assert names[0] == g && names[i + 1] == Alias(a, c);
  }

  lemma {:induction false} CellOf(a: Aggregation, cols: seq<string>, rows: seq<Row>, c: string)
    requires c in cols
    ensures Get(Cells(a, cols, rows), Alias(a, c)) == Aggregate(a, c, rows)
  {
    if c != cols[0] {
      CellOf(a, cols[1..], rows, c);
      AliasInjective(a, c, cols[0]);
    }
  }

  lemma {:induction false} ColumnTotal(a: Aggregation, g: string, cols: seq<string>, rows: seq<Row>, keys: seq<Value>, c: string)
    requires c in cols && Alias(a, c) != g && !a.Mean?
    ensures Total(false, Alias(a, c), Grouped(g, a, cols, rows, keys)) == GroupTotals(a.Count?, c, g, keys, rows)
  {
    if keys != [] {
      CellOf(a, cols, WithKeys([g], [keys[0]], rows), c);
      ColumnTotal(a, g, cols, rows, keys[1..], c);
      var all := Grouped(g, a, cols, rows, keys);
      assert all[1..] == Grouped(g, a, cols, rows, keys[1..]);
    }
  }

  /** The "sum" column adds up to the input column's non-null sum, the "count" column to its
      number of non-null values. */
  lemma {:induction false} TotalsAreConserved(t: Table, p: Params, keys: seq<Value>, out: Table, c: string)
    requires Groups(t, p) && EnumeratesFor(keys, t, p) && GroupByAggregate(t, p, keys) == Some(out)
    requires c in Numeric(t, ColumnsOf(p)[1..]) && !AggregationOf(p.mode).Mean?
    ensures var a := AggregationOf(p.mode);
            Total(false, Alias(a, c), out.rows) == Total(a.Count?, c, t.rows)
  {
    var g, a, cols := ColumnsOf(p)[0], AggregationOf(p.mode), Numeric(t, ColumnsOf(p)[1..]);
    AliasIsNotKey(g, a, cols, c);
    var all := Grouped(g, a, cols, t.rows, keys);
    SortRowsSorts([g], false, all);
    TotalPermute(false, Alias(a, c), all, out.rows);
    ColumnTotal(a, g, cols, t.rows, keys, c);
    GroupsShareTotal(a.Count?, c, g, keys, t.rows);
  }

  lemma {:induction false} KeyOfRow(g: string, a: Aggregation, cols: seq<string>, rows: seq<Row>, keys: seq<Value>, r: Row)
    returns (v: Value)
    requires r in Grouped(g, a, cols, rows, keys)
    ensures r == GroupRow(g, a, cols, rows, v) && Get(r, g) == v
  {
    GroupedKeys(g, a, cols, rows, keys);
    var j :| 0 <= j < |keys| && Grouped(g, a, cols, rows, keys)[j] == r;
    v := keys[j];
  }

  /** The cell of an output row is the aggregate of the input rows with its key. */
  lemma {:induction false} CellsAreAggregates(t: Table, p: Params, keys: seq<Value>, out: Table, c: string, r: Row)
    requires Groups(t, p) && EnumeratesFor(keys, t, p) && GroupByAggregate(t, p, keys) == Some(out)
    requires c in Numeric(t, ColumnsOf(p)[1..]) && r in out.rows
    ensures var g, a := ColumnsOf(p)[0], AggregationOf(p.mode);
            Get(r, Alias(a, c)) == Aggregate(a, c, WithKeys([g], [Get(r, g)], t.rows))
  {
    var g, a, cols := ColumnsOf(p)[0], AggregationOf(p.mode), Numeric(t, ColumnsOf(p)[1..]);
    AliasIsNotKey(g, a, cols, c);
    var all := Grouped(g, a, cols, t.rows, keys);
    SortRowsSorts([g], false, all);
    SameRows(all, out.rows);
    var v := KeyOfRow(g, a, cols, t.rows, keys, r);
    CellOf(a, cols, WithKeys([g], [v], t.rows), c);
  }

  /** Totals are taken row by row: a null adds nothing, any other value adds 1 to a count, and a
      number adds itself to a sum. */
  lemma {:induction false} TotalOneMore(counting: bool, c: string, rows: seq<Row>, r: Row)
    ensures Total(counting, c, []) == 0.0
    ensures Total(counting, c, rows + [r]) == Total(counting, c, rows) +
            match Get(r, c) case Null => 0.0 case Num(x) => (if counting then 1.0 else x) case Str(_) => if counting then 1.0 else 0.0
  {
    TotalAppend(counting, c, rows, [r]);
    assert [r][1..] == [];
  }

  lemma {:induction false} MeanTimesCount(c: string, rows: seq<Row>)
    ensures var v, count := Aggregate(Mean, c, rows), Total(true, c, rows);
            if count == 0.0 then v.Null? else v.Num? && v.x * count == Total(false, c, rows)
  {
  }

  /** The row of a group has, for every requested numeric column, the total, the mean or the count of
      that column over exactly the rows of the group, in a column named after both. */
  lemma {:induction false} GroupsAreAggregated(t: Table, p: Params, keys: seq<Value>, out: Table, c: string, r: Row)
    requires Groups(t, p) && EnumeratesFor(keys, t, p) && GroupByAggregate(t, p, keys) == Some(out)
    requires p.columns.Some? && c in p.columns.value[1..] && IsNumeric(t, c) && r in out.rows
    ensures var g := p.columns.value[0];
            var rows := WithKeys([g], [Get(r, g)], t.rows);
            HoldsAggregate(p.mode, c, Total(false, c, rows), Total(true, c, rows), r)
  {
    var rows := WithKeys([p.columns.value[0]], [Get(r, p.columns.value[0])], t.rows);
    CellsAreAggregates(t, p, keys, out, c, r);
    AggregateByMode(p.mode, c, rows, r);
  }

  lemma {:induction false} AggregateByMode(mode: Option<string>, c: string, rows: seq<Row>, r: Row)
    requires Get(r, Alias(AggregationOf(mode), c)) == Aggregate(AggregationOf(mode), c, rows)
    ensures HoldsAggregate(mode, c, Total(false, c, rows), Total(true, c, rows), r)
  {
    MeanTimesCount(c, rows);
  }

  /** The row has the mean, the count or the sum of column c in a column named after both. */
  predicate HoldsAggregate(mode: Option<string>, c: string, sum: real, count: real, r: Row) {
    if mode == Some("mean") then
      var v := Get(r, c + "_mean"); if count == 0.0 then v.Null? else v.Num? && v.x * count == sum
    else if mode == Some("count") then Get(r, c + "_count") == Num(count)
    else Get(r, c + "_sum") == Num(sum)
  }

  /** The columns of the result: the group's, and one for each requested numeric column, in order. It
      raises exactly if two of them have the same name, and does nothing if there is nothing to group
      by or to aggregate. */
  lemma {:induction false} GroupedColumns(t: Table, p: Params, keys: seq<Value>)
    ensures var asked := if p.columns.None? then [] else p.columns.value;
            var suffix := if p.mode == Some("mean") then "_mean" else if p.mode == Some("count") then "_count" else "_sum";
            if |asked| < 2 || !HasColumn(t, asked[0]) || Numeric(t, asked[1..]) == [] then GroupByAggregate(t, p, keys) == Some(t)
            else
              var cols := Numeric(t, asked[1..]);
              var names := [asked[0]] + seq(|cols|, i requires 0 <= i < |cols| => cols[i] + suffix);
              && (GroupByAggregate(t, p, keys).None? <==> !Distinct(names))
              && (Distinct(names) ==> Names(GroupByAggregate(t, p, keys).value.schema) == names)
  {
    if Groups(t, p) {
      var cols, a := Numeric(t, ColumnsOf(p)[1..]), AggregationOf(p.mode);
      AliasesAre(a, cols);
      assert Aliases(a, cols) == seq(|cols|, i requires 0 <= i < |cols| => cols[i] + Suffix(a));
      SchemaNames(t, ColumnsOf(p)[0], Aliases(a, cols));
    }
  }

  lemma {:induction false} SchemaNames(t: Table, g: string, names: seq<string>)
    ensures Names(Schema(t, g, names)) == [g] + names
  {
  }

  lemma {:induction false} AliasesAre(a: Aggregation, cols: seq<string>)
    ensures |Aliases(a, cols)| == |cols| && forall i :: 0 <= i < |cols| ==> Aliases(a, cols)[i] == cols[i] + Suffix(a)
  {
    if cols != [] { AliasesAre(a, cols[1..]); }
  }

  lemma {:induction false} CountIsNotNegative(c: string, rows: seq<Row>)
    ensures Total(true, c, rows) >= 0.0
  {
    if rows != [] { CountIsNotNegative(c, rows[1..]); }
  }

  predicate Within(v: Value, lo: real, hi: real) { v.Num? ==> lo <= v.x <= hi }

  lemma {:induction false} OneMoreWithin(n: real, x: real, sum: real, lo: real, hi: real)
    requires lo <= x <= hi && lo * n <= sum <= hi * n
    ensures lo * (1.0 + n) <= x + sum <= hi * (1.0 + n)
  {
    assert lo * (1.0 + n) == lo + lo * n && hi * (1.0 + n) == hi + hi * n;
  }

  lemma {:induction false} SumWithin(c: string, rows: seq<Row>, lo: real, hi: real) returns (count: real, sum: real)
    requires forall r :: r in rows ==> Within(Get(r, c), lo, hi) && !Get(r, c).Str?
    ensures count == Total(true, c, rows) && sum == Total(false, c, rows)
    ensures lo * count <= sum <= hi * count
  {
    count, sum := 0.0, 0.0;
    if rows != [] {
      count, sum := SumWithin(c, rows[1..], lo, hi);
      var v := Get(rows[0], c);
      assert rows[0] in rows;
      if v.Num? {
        OneMoreWithin(count, v.x, sum, lo, hi);
        count, sum := 1.0 + count, v.x + sum;
      }
    }
  }

  lemma {:induction false} QuotientWithin(sum: real, count: real, lo: real, hi: real)
    requires count > 0.0 && lo * count <= sum <= hi * count
    ensures lo <= sum / count <= hi
  {
    var m := sum / count;
    assert m * count == sum;
  }

  lemma {:induction false} MeanWithin(c: string, rows: seq<Row>, lo: real, hi: real)
    requires forall r :: r in rows ==> Within(Get(r, c), lo, hi) && !Get(r, c).Str?
    ensures Within(Aggregate(Mean, c, rows), lo, hi)
    ensures Aggregate(Mean, c, rows).Null? <==> Total(true, c, rows) == 0.0
  {
    CountIsNotNegative(c, rows);
    var count, sum := SumWithin(c, rows, lo, hi);
    if count > 0.0 { QuotientWithin(sum, count, lo, hi); }
  }

  /** A group's mean lies between the bounds of the group's values (the column is numeric, so it
      holds no strings), and is null exactly when the group has no value. */
  lemma {:induction false} MeansStayWithin(t: Table, p: Params, keys: seq<Value>, out: Table, c: string, r: Row,
                                           lo: real, hi: real)
    requires Groups(t, p) && EnumeratesFor(keys, t, p) && GroupByAggregate(t, p, keys) == Some(out)
    requires c in Numeric(t, ColumnsOf(p)[1..]) && AggregationOf(p.mode).Mean? && r in out.rows
    requires var g := ColumnsOf(p)[0];
             forall s :: s in t.rows && Get(s, g) == Get(r, g) ==> Within(Get(s, c), lo, hi) && !Get(s, c).Str?
    ensures var g := ColumnsOf(p)[0];
            var group := WithKeys([g], [Get(r, g)], t.rows);
            && Within(Get(r, Alias(Mean, c)), lo, hi)
            && (Get(r, Alias(Mean, c)).Null? <==> Total(true, c, group) == 0.0)
  {
    var g := ColumnsOf(p)[0];
    var group := WithKeys([g], [Get(r, g)], t.rows);
    CellsAreAggregates(t, p, keys, out, c, r);
    forall s | s in group ensures Within(Get(s, c), lo, hi) && !Get(s, c).Str? {
      assert s in t.rows && KeysOf([g], s)[0] == Get(s, g);
    }
    MeanWithin(c, group, lo, hi);
  }
}
