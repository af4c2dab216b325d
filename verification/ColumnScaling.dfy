/** The transforms that replace the values of numeric columns one column at a time: `normalize`
    and `fill_nulls`. Both compute figures of the whole column first and then rewrite each cell. */
module ColumnScaling {
  import opened Options
  import opened Tables

  function ValuesOf(c: string, rows: seq<Row>): (vals: seq<Value>)
    ensures |vals| == |rows| && forall i :: 0 <= i < |rows| ==> vals[i] == Get(rows[i], c)
  {
    seq(|rows|, i requires 0 <= i < |rows| => Get(rows[i], c))
  }

  /** A numeric column holds numbers and nulls. */
  predicate NumericValues(vals: seq<Value>) { forall v :: v in vals ==> !v.Str? }

  // ---- Column figures -----------------------------------------------------------------------------------

  /** The least number of a column; nulls do not count. */
  function Low(vals: seq<Value>): (m: Option<real>)
    ensures m.None? <==> forall v :: v in vals ==> !v.Num?
    ensures m.Some? ==> Num(m.value) in vals && forall v :: v in vals && v.Num? ==> m.value <= v.x
  {
    if vals == [] then None
    else
      var rest := Low(vals[1..]);
      if !vals[0].Num? then rest
      else if rest.Some? && rest.value <= vals[0].x then rest else Some(vals[0].x)
  }

  function High(vals: seq<Value>): (m: Option<real>)
    ensures m.None? <==> forall v :: v in vals ==> !v.Num?
    ensures m.Some? ==> Num(m.value) in vals && forall v :: v in vals && v.Num? ==> v.x <= m.value
  {
    if vals == [] then None
    else
      var rest := High(vals[1..]);
      if !vals[0].Num? then rest
      else if rest.Some? && rest.value >= vals[0].x then rest else Some(vals[0].x)
  }

  function SumOf(vals: seq<Value>): real {
    if vals == [] then 0.0 else (if vals[0].Num? then vals[0].x else 0.0) + SumOf(vals[1..])
  }

  function CountOf(vals: seq<Value>): nat {
    if vals == [] then 0 else (if vals[0].Num? then 1 else 0) + CountOf(vals[1..])
  }

  function MeanOf(vals: seq<Value>): Option<real> {
    if CountOf(vals) == 0 then None else Some(SumOf(vals) / (CountOf(vals) as real))
  }

  // ---- Rewriting a column -------------------------------------------------------------------------------

  /** Min-max scaling, or filling the nulls with a figure of the column. */
  datatype Rewrite = MinMax | Fill(figure: seq<Value> -> Option<real>)

  /** A column with one value becomes all 0, its nulls included; one with none stays null. */
  function Scaled(low: Option<real>, high: Option<real>, v: Value): Value {
    if low.None? || high.None? then Null
    else if high.value - low.value == 0.0 then Num(0.0)
    else if v.Num? then Num((v.x - low.value) / (high.value - low.value))
    else Null
  }

  function NewValue(w: Rewrite, vals: seq<Value>, v: Value): Value {
    match w
    case MinMax => Scaled(Low(vals), High(vals), v)
    case Fill(figure) => if v.Null? && figure(vals).Some? then Num(figure(vals).value) else v
  }

  function NewValues(w: Rewrite, vals: seq<Value>): (r: seq<Value>)
    ensures |r| == |vals| && forall i :: 0 <= i < |vals| ==> r[i] == NewValue(w, vals, vals[i])
  {
    seq(|vals|, i requires 0 <= i < |vals| => NewValue(w, vals, vals[i]))
  }

  function NewRow(w: Rewrite, cols: seq<string>, rows: seq<Row>, r: Row): (out: Row)
    ensures forall c :: c in out <==> c in r || c in cols
    ensures forall c :: c in out ==> out[c] == if c in cols then NewValue(w, ValuesOf(c, rows), Get(r, c)) else r[c]
  {
    if cols == [] then r
    else
      var n := |cols| - 1;
      assert cols == cols[..n] + [cols[n]];
      NewRow(w, cols[..n], rows, r)[cols[n] := NewValue(w, ValuesOf(cols[n], rows), Get(r, cols[n]))]
  }

  /** Replacing columns by expressions over them; two expressions of one name raise. */
  function WithColumns(w: Rewrite, cols: seq<string>, t: Table): Option<Table> {
    if !Distinct(cols) then None
    else Some(t.(rows := seq(|t.rows|, i requires 0 <= i < |t.rows| => NewRow(w, cols, t.rows, t.rows[i]))))
  }

  function Normalize(t: Table, p: Params): Option<Table> {
    if NumericColumns(t, p) == [] then Some(t) else WithColumns(MinMax, NumericColumns(t, p), t)
  }

  /** One expression of `normalize`: the column with its least and greatest value. */
  datatype Scaling = Scaling(column: string, low: Option<real>, high: Option<real>)

  function Evaluate(exprs: seq<Scaling>, r: Row): Row {
    if exprs == [] then r
    else
      var e := exprs[|exprs| - 1];
      Evaluate(exprs[..|exprs| - 1], r)[e.column := Scaled(e.low, e.high, Get(r, e.column))]
  }

  ghost predicate ExpressionsFor(exprs: seq<Scaling>, cols: seq<string>, rows: seq<Row>) {
    && |exprs| == |cols|
    && forall k :: 0 <= k < |cols| ==>
         exprs[k] == Scaling(cols[k], Low(ValuesOf(cols[k], rows)), High(ValuesOf(cols[k], rows)))
  }

  lemma {:induction false} EvaluatesToNewRow(exprs: seq<Scaling>, cols: seq<string>, rows: seq<Row>, r: Row)
    requires ExpressionsFor(exprs, cols, rows)
    ensures Evaluate(exprs, r) == NewRow(MinMax, cols, rows, r)
  {
    if exprs != [] {
      var n := |exprs| - 1;
      assert ExpressionsFor(exprs[..n], cols[..n], rows);
      EvaluatesToNewRow(exprs[..n], cols[..n], rows, r);
    }
  }

  function EvaluateAll(exprs: seq<Scaling>, rows: seq<Row>): (out: seq<Row>)
    ensures |out| == |rows| && forall i :: 0 <= i < |rows| ==> out[i] == Evaluate(exprs, rows[i])
  {
    seq(|rows|, i requires 0 <= i < |rows| => Evaluate(exprs, rows[i]))
  }

  lemma {:induction false} EvaluatesToNewRows(exprs: seq<Scaling>, cols: seq<string>, t: Table)
    requires ExpressionsFor(exprs, cols, t.rows) && Distinct(cols)
    ensures WithColumns(MinMax, cols, t) == Some(t.(rows := EvaluateAll(exprs, t.rows)))
  {
    var u := WithColumns(MinMax, cols, t).value;
    forall i | 0 <= i < |t.rows| ensures EvaluateAll(exprs, t.rows)[i] == u.rows[i] {
      EvaluatesToNewRow(exprs, cols, t.rows, t.rows[i]);
    }
    assert EvaluateAll(exprs, t.rows) == u.rows;
  }

  /** The loop over the columns. */
  method Scalings(cols: seq<string>, rows: seq<Row>) returns (exprs: seq<Scaling>)
    ensures ExpressionsFor(exprs, cols, rows)
  {
    exprs := [];
    for i := 0 to |cols|
      invariant ExpressionsFor(exprs, cols[..i], rows)
    {
      var vals := ValuesOf(cols[i], rows);
      exprs := exprs + [Scaling(cols[i], Low(vals), High(vals))];
      assert cols[..i + 1] == cols[..i] + [cols[i]];
    }
    assert cols[..|cols|] == cols;
  }

  method NormalizeTransform(t: Table, p: Params) returns (r: Option<Table>)
    ensures r == Normalize(t, p)
  {
    var cols := NumericColumns(t, p);
    if cols == [] { return Some(t); }
    var exprs := Scalings(cols, t.rows);
    if !Distinct(cols) { return None; }
    r := Some(t.(rows := EvaluateAll(exprs, t.rows)));
    EvaluatesToNewRows(exprs, cols, t);
  }

  /** An unknown method means "zero"; the median is the library's. */
  function FillOf(mode: Option<string>, median: seq<Value> -> Option<real>): Rewrite {
    match mode
    case Some("mean") => Fill(MeanOf)
    case Some("median") => Fill(median)
    case _ => Fill(_ => Some(0.0))
  }

  function FillNulls(t: Table, p: Params, median: seq<Value> -> Option<real>): Option<Table> {
    if NumericColumns(t, p) == [] then Some(t) else WithColumns(FillOf(p.mode, median), NumericColumns(t, p), t)
  }

  /** What rewriting does to each column of the table. */
  lemma {:induction false} ColumnsRewritten(w: Rewrite, cols: seq<string>, t: Table, u: Table, c: string)
    requires WithColumns(w, cols, t) == Some(u)
    ensures u.schema == t.schema && |u.rows| == |t.rows|
    ensures ValuesOf(c, u.rows) == if c in cols then NewValues(w, ValuesOf(c, t.rows)) else ValuesOf(c, t.rows)
  {
  }

  // ---- Min-max scaling ------------------------------------------------------------------------------------

  lemma {:induction false} QuotientsKeepOrder(x: real, y: real, d: real)
    requires d > 0.0
    ensures x < y <==> x / d < y / d
  {
    var a, b := x / d, y / d;
    assert a * d == x && b * d == y;
  }

  lemma {:induction false} UnitQuotient(x: real, d: real)
    requires d > 0.0 && 0.0 <= x <= d
    ensures 0.0 <= x / d <= 1.0
    ensures x == 0.0 ==> x / d == 0.0
    ensures x == d ==> x / d == 1.0
  {
    var q := x / d;
    assert q * d == x;
  }

  /** Scaling between two different bounds. */
  lemma {:induction false} ScaledCell(low: real, high: real, v: Value)
    requires low < high && v.Num? && low <= v.x <= high
    ensures var s := Scaled(Some(low), Some(high), v);
            s.Num? && 0.0 <= s.x <= 1.0 && (v.x == low ==> s.x == 0.0) && (v.x == high ==> s.x == 1.0)
  {
    UnitQuotient(v.x - low, high - low);
  }

  lemma {:induction false} ScaledCellsKeepOrder(low: real, high: real, v: Value, w: Value)
    requires low < high && v.Num? && w.Num?
    ensures var s, r := Scaled(Some(low), Some(high), v), Scaled(Some(low), Some(high), w);
            s.Num? && r.Num? && (v.x < w.x <==> s.x < r.x)
  {
    QuotientsKeepOrder(v.x - low, w.x - low, high - low);
  }

  predicate TwoValued(vals: seq<Value>) { Low(vals).Some? && Low(vals) != High(vals) }

  /** A column with two different values is mapped into [0, 1], and nulls stay. */
  lemma {:induction false} ScalesIntoUnit(vals: seq<Value>)
    requires NumericValues(vals) && TwoValued(vals)
    ensures forall i :: 0 <= i < |vals| ==>
              var r := NewValues(MinMax, vals)[i];
              if vals[i].Num? then r.Num? && 0.0 <= r.x <= 1.0 else r.Null?
  {
    var low, high := Low(vals).value, High(vals).value;
    forall i | 0 <= i < |vals| && vals[i].Num? ensures Scaled(Some(low), Some(high), vals[i]).Num? &&
                                                       0.0 <= Scaled(Some(low), Some(high), vals[i]).x <= 1.0 {
      assert vals[i] in vals;
      ScaledCell(low, high, vals[i]);
    }
  }

  /** Both ends are reached. */
  lemma {:induction false} ScalesOntoEnds(vals: seq<Value>)
    requires NumericValues(vals) && TwoValued(vals)
    ensures Num(0.0) in NewValues(MinMax, vals) && Num(1.0) in NewValues(MinMax, vals)
  {
    var low, high := Low(vals).value, High(vals).value;
    assert Num(low) in vals && Num(high) in vals;
    var i :| 0 <= i < |vals| && vals[i] == Num(low);
    var j :| 0 <= j < |vals| && vals[j] == Num(high);
    ScaledCell(low, high, vals[i]);
    ScaledCell(low, high, vals[j]);
    assert NewValues(MinMax, vals)[i] == Num(0.0) && NewValues(MinMax, vals)[j] == Num(1.0);
  }

  /** The order of any two values is kept, both ways. */
  lemma {:induction false} ScalingKeepsOrder(vals: seq<Value>, i: nat, j: nat)
    requires NumericValues(vals) && TwoValued(vals)
    requires i < |vals| && j < |vals| && vals[i].Num? && vals[j].Num?
    ensures var r := NewValues(MinMax, vals);
            r[i].Num? && r[j].Num? && (vals[i].x < vals[j].x <==> r[i].x < r[j].x)
  {
    assert Num(Low(vals).value) in vals;
    ScaledCellsKeepOrder(Low(vals).value, High(vals).value, vals[i], vals[j]);
  }

  /** A column with one value becomes all 0, nulls included; one without values stays null. */
  lemma {:induction false} ScalesConstants(vals: seq<Value>)
    requires NumericValues(vals) && Low(vals) == High(vals)
    ensures forall v :: v in NewValues(MinMax, vals) ==> v == if Low(vals).Some? then Num(0.0) else Null
  {
  }

  lemma {:induction false} UnitBounds(r: seq<Value>)
    requires Num(0.0) in r && Num(1.0) in r && forall v :: v in r && v.Num? ==> 0.0 <= v.x <= 1.0
    ensures Low(r) == Some(0.0) && High(r) == Some(1.0)
  {
    assert Num(0.0).Num? && Num(1.0).Num?;
    assert Num(Low(r).value) in r && Num(High(r).value) in r;
  }

  /** Scaling a scaled column changes nothing. */
  lemma {:induction false} ScalingIsIdempotent(vals: seq<Value>)
    requires NumericValues(vals)
    ensures NewValues(MinMax, NewValues(MinMax, vals)) == NewValues(MinMax, vals)
  {
    var r := NewValues(MinMax, vals);
    if TwoValued(vals) {
      ScalesIntoUnit(vals);
      ScalesOntoEnds(vals);
      UnitBounds(r);
      forall i | 0 <= i < |r| ensures NewValue(MinMax, r, r[i]) == r[i] {
        if r[i].Num? { assert r[i].x / 1.0 == r[i].x; }
      }
    } else {
      ScalesConstants(vals);
      ConstantStays(r);
    }
  }

  lemma {:induction false} ConstantStays(r: seq<Value>)
    requires (forall v :: v in r ==> v == Num(0.0)) || (forall v :: v in r ==> v == Null)
    ensures NewValues(MinMax, r) == r
  {
    forall i | 0 <= i < |r| ensures NewValue(MinMax, r, r[i]) == r[i] {
      assert r[i] in r;
      if Low(r).Some? { assert Num(Low(r).value) in r && Num(High(r).value) in r; }
    }
  }

  ghost predicate NumericTable(t: Table) {
    forall c :: IsNumeric(t, c) ==> NumericValues(ValuesOf(c, t.rows))
  }

  /** Cells that the rewriting would not change. */
  lemma {:induction false} RowStays(w: Rewrite, cols: seq<string>, rows: seq<Row>, r: Row)
    requires forall c :: c in cols ==> c in r && NewValue(w, ValuesOf(c, rows), r[c]) == r[c]
    ensures NewRow(w, cols, rows, r) == r
  {
  }

  lemma {:induction false} ScaledRowStays(cols: seq<string>, t: Table, u: Table, i: nat)
    requires forall c :: c in cols ==> NumericValues(ValuesOf(c, t.rows))
    requires WithColumns(MinMax, cols, t) == Some(u) && i < |u.rows|
    ensures NewRow(MinMax, cols, u.rows, u.rows[i]) == u.rows[i]
  {
    assert u.rows[i] == NewRow(MinMax, cols, t.rows, t.rows[i]);
    forall c | c in cols ensures NewValue(MinMax, ValuesOf(c, u.rows), u.rows[i][c]) == u.rows[i][c] {
      ColumnsRewritten(MinMax, cols, t, u, c);
      ScalingIsIdempotent(ValuesOf(c, t.rows));
      assert NewValues(MinMax, ValuesOf(c, u.rows))[i] == ValuesOf(c, u.rows)[i];
    }
    RowStays(MinMax, cols, u.rows, u.rows[i]);
  }

  /** `normalize` is idempotent on tables. */
  lemma {:induction false} NormalizeTwice(t: Table, p: Params, u: Table)
    requires NumericTable(t) && Normalize(t, p) == Some(u)
    ensures Normalize(u, p) == Some(u)
  {
    var cols := NumericColumns(t, p);
    SameSchema(t, u, if ColumnsOf(p) != [] then ColumnsOf(p) else Names(t.schema));
    if cols != [] {
      forall i | 0 <= i < |u.rows| ensures NewRow(MinMax, cols, u.rows, u.rows[i]) == u.rows[i] {
        ScaledRowStays(cols, t, u, i);
      }
      assert WithColumns(MinMax, cols, u).value.rows == u.rows;
    }
  }

  /** What `normalize` does to a column it is asked for, and that it leaves the others alone. */
  lemma {:induction false} NormalizedColumn(t: Table, p: Params, u: Table, c: string)
    requires NumericTable(t) && Normalize(t, p) == Some(u)
    ensures |u.rows| == |t.rows| && u.schema == t.schema
    ensures c in NumericColumns(t, p) ==> NumericValues(ValuesOf(c, t.rows))
    ensures ValuesOf(c, u.rows) ==
            if c in NumericColumns(t, p) then NewValues(MinMax, ValuesOf(c, t.rows)) else ValuesOf(c, t.rows)
  {
    if NumericColumns(t, p) != [] { ColumnsRewritten(MinMax, NumericColumns(t, p), t, u, c); }
  }

  /** A normalized column with two different values lies in [0, 1], and its nulls stay. */
  lemma {:induction false} NormalizesIntoUnit(t: Table, p: Params, u: Table, c: string, i: nat)
    requires NumericTable(t) && Normalize(t, p) == Some(u) && c in NumericColumns(t, p)
    requires TwoValued(ValuesOf(c, t.rows)) && i < |t.rows|
    ensures |u.rows| == |t.rows|
    ensures var r := Get(u.rows[i], c); if Get(t.rows[i], c).Num? then r.Num? && 0.0 <= r.x <= 1.0 else r.Null?
  {
    NormalizedColumn(t, p, u, c);
    ScalesIntoUnit(ValuesOf(c, t.rows));
    assert ValuesOf(c, u.rows)[i] == Get(u.rows[i], c);
  }

  /** ... reaches both ends ... */
  lemma {:induction false} NormalizesOntoEnds(t: Table, p: Params, u: Table, c: string)
    requires NumericTable(t) && Normalize(t, p) == Some(u) && c in NumericColumns(t, p) && TwoValued(ValuesOf(c, t.rows))
    ensures (exists r :: r in u.rows && Get(r, c) == Num(0.0)) && (exists r :: r in u.rows && Get(r, c) == Num(1.0))
  {
    NormalizedColumn(t, p, u, c);
    ScalesOntoEnds(ValuesOf(c, t.rows));
    var vals := ValuesOf(c, u.rows);
    var i :| 0 <= i < |vals| && vals[i] == Num(0.0);
    var j :| 0 <= j < |vals| && vals[j] == Num(1.0);
    assert u.rows[i] in u.rows && u.rows[j] in u.rows;
  }

  /** ... and orders any two rows as before. */
  lemma {:induction false} NormalizeKeepsOrder(t: Table, p: Params, u: Table, c: string, i: nat, j: nat)
    requires NumericTable(t) && Normalize(t, p) == Some(u) && c in NumericColumns(t, p) && TwoValued(ValuesOf(c, t.rows))
    requires i < |t.rows| && j < |t.rows| && Get(t.rows[i], c).Num? && Get(t.rows[j], c).Num?
    ensures |u.rows| == |t.rows| && Get(u.rows[i], c).Num? && Get(u.rows[j], c).Num?
    ensures Get(t.rows[i], c).x < Get(t.rows[j], c).x <==> Get(u.rows[i], c).x < Get(u.rows[j], c).x
  {
    NormalizedColumn(t, p, u, c);
    ScalingKeepsOrder(ValuesOf(c, t.rows), i, j);
    assert ValuesOf(c, u.rows)[i] == Get(u.rows[i], c) && ValuesOf(c, u.rows)[j] == Get(u.rows[j], c);
  }

  /** The map is linear: the distance from the least value, in units of that of the greatest. */
  lemma {:induction false} NormalizesLinearly(t: Table, p: Params, u: Table, c: string) returns (lo: real, span: real)
    requires NumericTable(t) && Normalize(t, p) == Some(u) && c in NumericColumns(t, p) && TwoValued(ValuesOf(c, t.rows))
    ensures |u.rows| == |t.rows| && span > 0.0
    ensures (exists r :: r in t.rows && Get(r, c) == Num(lo)) && (exists r :: r in t.rows && Get(r, c) == Num(lo + span))
    ensures forall i :: 0 <= i < |t.rows| ==> OnLine(lo, span, Get(t.rows[i], c), Get(u.rows[i], c))
  {
    var vals, news := ValuesOf(c, t.rows), ValuesOf(c, u.rows);
    NormalizedColumn(t, p, u, c);
    lo, span := Ends(vals);
    ValueInRow(c, t.rows, Num(lo));
    ValueInRow(c, t.rows, Num(lo + span));
    forall i | 0 <= i < |t.rows| ensures OnLine(lo, span, Get(t.rows[i], c), Get(u.rows[i], c)) {
      LineAt(vals, news, lo, span, i);
    }
  }

  predicate OnLine(lo: real, span: real, v: Value, w: Value) {
    v.Num? ==> lo <= v.x <= lo + span && w.Num? && w.x * span == v.x - lo
  }

  lemma {:induction false} LineAt(vals: seq<Value>, news: seq<Value>, lo: real, span: real, i: nat)
    requires |news| == |vals| && news == NewValues(MinMax, vals) && i < |vals|
    requires Low(vals) == Some(lo) && High(vals) == Some(lo + span) && span > 0.0
    ensures OnLine(lo, span, vals[i], news[i])
  {
    assert vals[i] in vals;
    ScaledOnLine(lo, span, lo + span, vals[i], news[i]);
  }

  lemma {:induction false} ScaledOnLine(lo: real, span: real, hi: real, v: Value, w: Value)
    requires span > 0.0 && hi == lo + span && w == Scaled(Some(lo), Some(hi), v) && (v.Num? ==> lo <= v.x <= hi)
    ensures OnLine(lo, span, v, w)
  {
    if v.Num? {
      assert hi - lo == span;
      Quotient(v.x - lo, span, w.x);
    }
  }

  lemma {:induction false} Quotient(a: real, n: real, q: real)
    requires n > 0.0 && q == a / n
    ensures q * n == a
  {
  }

  lemma {:induction false} Ends(vals: seq<Value>) returns (lo: real, span: real)
    requires TwoValued(vals)
    ensures Low(vals) == Some(lo) && High(vals) == Some(lo + span) && span > 0.0
    ensures Num(lo) in vals && Num(lo + span) in vals
  {
    lo, span := Low(vals).value, High(vals).value - Low(vals).value;
  }

  lemma {:induction false} ValueInRow(c: string, rows: seq<Row>, v: Value)
    requires v in ValuesOf(c, rows)
    ensures exists r :: r in rows && Get(r, c) == v
  {
    var i :| 0 <= i < |rows| && ValuesOf(c, rows)[i] == v;
    assert rows[i] in rows;
  }

  /** A column with one value becomes all 0, nulls included; one without values stays null. */
  lemma {:induction false} NormalizesConstants(t: Table, p: Params, u: Table, c: string, i: nat)
    requires NumericTable(t) && Normalize(t, p) == Some(u) && c in NumericColumns(t, p)
    requires !TwoValued(ValuesOf(c, t.rows)) && i < |t.rows|
    ensures |u.rows| == |t.rows|
    ensures Get(u.rows[i], c) == if exists r :: r in t.rows && Get(r, c).Num? then Num(0.0) else Null
  {
    NormalizedColumn(t, p, u, c);
    ScalesConstants(ValuesOf(c, t.rows));
    HasNumber(c, t.rows);
    assert ValuesOf(c, u.rows)[i] == Get(u.rows[i], c) && ValuesOf(c, u.rows)[i] in ValuesOf(c, u.rows);
  }

  lemma {:induction false} HasNumber(c: string, rows: seq<Row>)
    ensures Low(ValuesOf(c, rows)).Some? <==> exists r :: r in rows && Get(r, c).Num?
  {
    var vals := ValuesOf(c, rows);
    if Low(vals).Some? {
      var k :| 0 <= k < |vals| && vals[k] == Num(Low(vals).value);
      assert rows[k] in rows;
    }
    if r :| r in rows && Get(r, c).Num? {
      var k :| 0 <= k < |rows| && rows[k] == r;
      assert vals[k] in vals;
    }
  }

  // ---- Filling ------------------------------------------------------------------------------------------------

  /** Filling keeps the values and leaves no null when the column has the figure. */
  lemma {:induction false} FillsEveryNull(w: Rewrite, vals: seq<Value>)
    requires w.Fill? && w.figure(vals).Some?
    ensures var r := NewValues(w, vals);
            forall i :: 0 <= i < |vals| ==> r[i] == if vals[i].Null? then Num(w.figure(vals).value) else vals[i]
  {
  }

  function Copies(m: real, k: nat): real { if k == 0 then 0.0 else m + Copies(m, k - 1) }

  lemma {:induction false} CopiesMultiply(m: real, k: nat)
    ensures Copies(m, k) == m * (k as real)
  {
    if k > 0 {
      CopiesMultiply(m, k - 1);
      assert k as real == ((k - 1) as real) + 1.0;
      assert m * (((k - 1) as real) + 1.0) == m * ((k - 1) as real) + m;
    }
  }

  /** Adding copies of a value to a sum and its count; k is how many. */
  lemma {:induction false} FilledSums(vals: seq<Value>, r: seq<Value>, m: real) returns (k: nat)
    requires NumericValues(vals) && |r| == |vals|
    requires forall i :: 0 <= i < |vals| ==> r[i] == if vals[i].Null? then Num(m) else vals[i]
    ensures CountOf(r) == |vals| && k + CountOf(vals) == |vals|
    ensures SumOf(r) == SumOf(vals) + Copies(m, k)
  {
    if vals == [] {
      k := 0;
    } else {
      assert vals[0] in vals;
      k := FilledSums(vals[1..], r[1..], m);
      if vals[0].Null? { k := k + 1; }
    }
  }

  lemma {:induction false} Cancel(m: real, k: real)
    requires k != 0.0
    ensures (m * k) / k == m
  {
  }

  lemma {:induction false} MeanOfFilled(sum: real, count: real, n: real, m: real, total: real)
    requires 0.0 < count <= n && m == sum / count && total == sum + m * (n - count)
    ensures total / n == m
  {
    assert m * count == sum;
    assert m * (n - count) == m * n - m * count;
    Cancel(m, n);
  }

  /** Filling with the mean leaves the mean unchanged. */
  lemma {:induction false} MeanFillKeepsMean(vals: seq<Value>)
    requires NumericValues(vals)
    ensures MeanOf(NewValues(Fill(MeanOf), vals)) == MeanOf(vals)
  {
    var r := NewValues(Fill(MeanOf), vals);
    if MeanOf(vals).Some? {
      FillsEveryNull(Fill(MeanOf), vals);
      var k := FilledSums(vals, r, MeanOf(vals).value);
      CopiesMultiply(MeanOf(vals).value, k);
      var n, count := |vals| as real, CountOf(vals) as real;
      assert k as real == n - count;
      MeanOfFilled(SumOf(vals), count, n, MeanOf(vals).value, SumOf(r));
    } else {
      assert r == vals;
    }
  }

  lemma {:induction false} MeanNeedsAValue(vals: seq<Value>)
    ensures MeanOf(vals).Some? <==> exists v :: v in vals && v.Num?
  {
    if vals != [] { MeanNeedsAValue(vals[1..]); }
  }

  /** After `fill_nulls` with "mean", every filled column has the mean it had, and no null if it
      had any value; with "zero" it has no null at all. */
  lemma {:induction false} FilledColumns(t: Table, p: Params, median: seq<Value> -> Option<real>, u: Table, c: string)
    requires NumericTable(t) && FillNulls(t, p, median) == Some(u) && c in NumericColumns(t, p)
    requires p.mode != Some("median")
    ensures p.mode == Some("mean") ==> MeanOf(ValuesOf(c, u.rows)) == MeanOf(ValuesOf(c, t.rows))
    ensures Null in ValuesOf(c, u.rows) ==>
            p.mode == Some("mean") && forall v :: v in ValuesOf(c, t.rows) ==> v == Null
    ensures forall i :: 0 <= i < |t.rows| && !Get(t.rows[i], c).Null? ==> Get(u.rows[i], c) == Get(t.rows[i], c)
  {
    var w, vals := FillOf(p.mode, median), ValuesOf(c, t.rows);
    ColumnsRewritten(w, NumericColumns(t, p), t, u, c);
    MeanNeedsAValue(vals);
    if p.mode == Some("mean") { MeanFillKeepsMean(vals); }
    if w.figure(vals).Some? { FillsEveryNull(w, vals); }
    assert forall v :: v in vals ==> v == Null || v.Num?;
  }

  lemma {:induction false} MeanTimesCount(vals: seq<Value>)
    ensures MeanOf(vals).None? <==> CountOf(vals) == 0
    ensures MeanOf(vals).Some? ==> MeanOf(vals).value * (CountOf(vals) as real) == SumOf(vals)
  {
  }

  /** Sums and counts are taken value by value, over the numbers. */
  lemma {:induction false} FiguresOneMore(vals: seq<Value>, v: Value)
    ensures SumOf([]) == 0.0 && CountOf([]) == 0
    ensures SumOf(vals + [v]) == SumOf(vals) + (if v.Num? then v.x else 0.0)
    ensures CountOf(vals + [v]) == CountOf(vals) + if v.Num? then 1 else 0
  {
    if vals == [] {
      assert [v][1..] == [];
    } else {
      assert (vals + [v])[1..] == vals[1..] + [v];
      FiguresOneMore(vals[1..], v);
    }
  }

  /** What `fill_nulls` puts in the place of a null of a requested numeric column: the mean of the
      column for "mean", if it has one, and 0 for any method but the median. Nothing else changes. */
  lemma {:induction false} FillsWith(t: Table, p: Params, median: seq<Value> -> Option<real>, u: Table, c: string, i: nat)
    requires FillNulls(t, p, median) == Some(u) && i < |t.rows| && p.mode != Some("median")
    ensures |u.rows| == |t.rows| && u.schema == t.schema
    ensures c !in NumericColumns(t, p) || !Get(t.rows[i], c).Null? ==> Get(u.rows[i], c) == Get(t.rows[i], c)
    ensures c in NumericColumns(t, p) && Get(t.rows[i], c).Null? ==> Filler(p, ValuesOf(c, t.rows), Get(u.rows[i], c))
  {
    var vals, news := ValuesOf(c, t.rows), ValuesOf(c, u.rows);
    FilledValues(t, p, median, u, c);
    assert Get(u.rows[i], c) == news[i] && Get(t.rows[i], c) == vals[i];
    if c in NumericColumns(t, p) { FilledValue(p, median, vals, news, i); }
  }

  lemma {:induction false} FilledValues(t: Table, p: Params, median: seq<Value> -> Option<real>, u: Table, c: string)
    requires FillNulls(t, p, median) == Some(u)
    ensures |u.rows| == |t.rows| && u.schema == t.schema
    ensures ValuesOf(c, u.rows) == if c in NumericColumns(t, p) then NewValues(FillOf(p.mode, median), ValuesOf(c, t.rows))
                                   else ValuesOf(c, t.rows)
  {
    if NumericColumns(t, p) != [] { ColumnsRewritten(FillOf(p.mode, median), NumericColumns(t, p), t, u, c); }
  }

  lemma {:induction false} FilledValue(p: Params, median: seq<Value> -> Option<real>, vals: seq<Value>, news: seq<Value>, i: nat)
    requires p.mode != Some("median") && i < |vals| && |news| == |vals| && news == NewValues(FillOf(p.mode, median), vals)
    ensures if vals[i].Null? then Filler(p, vals, news[i]) else news[i] == vals[i]
  {
    if vals[i].Null? { NullIsFilled(p, median, vals, news[i]); }
  }

  predicate Filler(p: Params, vals: seq<Value>, v: Value) {
    if p.mode != Some("mean") then v == Num(0.0)
    else if CountOf(vals) == 0 then v == Null
    else v.Num? && v.x * (CountOf(vals) as real) == SumOf(vals)
  }

  lemma {:induction false} NullIsFilled(p: Params, median: seq<Value> -> Option<real>, vals: seq<Value>, v: Value)
    requires p.mode != Some("median") && v == NewValue(FillOf(p.mode, median), vals, Null)
    ensures Filler(p, vals, v)
  {
    MeanTimesCount(vals);
  }
}
