/** A data frame: a schema and its rows. Numbers are reals (rounding is not modelled),
    every other column type is a string column, and a missing value is `Null`. */
module Tables {
  import opened Options

  datatype Value = Null | Num(x: real) | Str(s: string)

  datatype Column = Column(name: string, numeric: bool)

  /** A row gives a value to each column name of its table. */
  type Row = map<string, Value>

  datatype Table = Table(schema: seq<Column>, rows: seq<Row>)

  /** The parameters of a pipeline step; a missing key is `None` (`mode` is the key "method"). */
  datatype Params = Params(columns: Option<seq<string>>, mode: Option<string>,
                           threshold: Option<real>, order: Option<string>)

  datatype Step = Step(action: string, params: Params)

  function Get(row: Row, c: string): Value {
    if c in row then row[c] else Null
  }

  function Names(schema: seq<Column>): (names: seq<string>)
    ensures |names| == |schema|
    ensures forall i :: 0 <= i < |schema| ==> names[i] == schema[i].name
  {
    seq(|schema|, i requires 0 <= i < |schema| => schema[i].name)
  }

  predicate HasColumn(t: Table, c: string) {
    c in Names(t.schema)
  }

  predicate IsNumeric(t: Table, c: string) {
    exists k :: k in t.schema && k.name == c && k.numeric
  }

  /** The listed columns that exist (or are numeric), in the order they are listed. */
  function Existing(t: Table, cols: seq<string>): (r: seq<string>)
    ensures forall c :: c in r <==> c in cols && HasColumn(t, c)
  {
    if cols == [] then []
    else (if HasColumn(t, cols[0]) then [cols[0]] else []) + Existing(t, cols[1..])
  }

  function Numeric(t: Table, cols: seq<string>): (r: seq<string>)
    ensures forall c :: c in r <==> c in cols && IsNumeric(t, c)
  {
    if cols == [] then []
    else (if IsNumeric(t, cols[0]) then [cols[0]] else []) + Numeric(t, cols[1..])
  }

  /** Listed columns are looked up one by one, in their order. */
  lemma {:induction false} ListedInOrder(t: Table, a: seq<string>, b: seq<string>)
    ensures Existing(t, a + b) == Existing(t, a) + Existing(t, b)
    ensures Numeric(t, a + b) == Numeric(t, a) + Numeric(t, b)
  {
    ExistingInOrder(t, a, b);
    NumericInOrder(t, a, b);
  }

  lemma {:induction false} ExistingInOrder(t: Table, a: seq<string>, b: seq<string>)
    ensures Existing(t, a + b) == Existing(t, a) + Existing(t, b)
  {
    if a == [] {
      assert a + b == b;
    } else {
      assert (a + b)[1..] == a[1..] + b;
      ExistingInOrder(t, a[1..], b);
    }
  }

  lemma {:induction false} NumericInOrder(t: Table, a: seq<string>, b: seq<string>)
    ensures Numeric(t, a + b) == Numeric(t, a) + Numeric(t, b)
  {
    if a == [] {
      assert a + b == b;
    } else {
      assert (a + b)[1..] == a[1..] + b;
      NumericInOrder(t, a[1..], b);
    }
  }

  lemma {:induction false} ListedAlone(t: Table, c: string)
    ensures Existing(t, [c]) == (if exists k :: k in t.schema && k.name == c then [c] else [])
    ensures Numeric(t, [c]) == if IsNumeric(t, c) then [c] else []
  {
    assert [c][1..] == [];
    assert c in Names(t.schema) <==> exists i :: 0 <= i < |t.schema| && t.schema[i].name == c;
  }

  /** Which columns exist or are numeric is a matter of the schema. */
  lemma {:induction false} SameSchema(t: Table, u: Table, cols: seq<string>)
    requires t.schema == u.schema
    ensures Existing(t, cols) == Existing(u, cols) && Numeric(t, cols) == Numeric(u, cols)
  {
    if cols != [] { SameSchema(t, u, cols[1..]); }
  }

  /** params.get("columns") or [] */
  function ColumnsOf(p: Params): seq<string> {
    if p.columns.Some? then p.columns.value else []
  }

  /** The subset a transform works on: the requested columns that exist, or every column
      when none is requested. */
  function AllColumns(t: Table, p: Params): seq<string> {
    if ColumnsOf(p) != [] then Existing(t, ColumnsOf(p)) else Names(t.schema)
  }

  /** The numeric columns a transform works on. */
  function NumericColumns(t: Table, p: Params): seq<string> {
    Numeric(t, if ColumnsOf(p) != [] then ColumnsOf(p) else Names(t.schema))
  }

  /** Without a request, or with an empty one, a transform works on all the columns it can. */
  lemma {:induction false} RequestedOrAll(t: Table, p: Params, c: string)
    ensures var asked := p.columns.Some? && p.columns.value != [];
            && (c in AllColumns(t, p) <==> (exists k :: k in t.schema && k.name == c) && (asked ==> c in p.columns.value))
            && (c in NumericColumns(t, p) <==> IsNumeric(t, c) && (asked ==> c in p.columns.value))
  {
    assert c in Names(t.schema) <==> exists i :: 0 <= i < |t.schema| && t.schema[i].name == c;
  }

  predicate Distinct<T(==)>(s: seq<T>) {
    forall i, j :: 0 <= i < j < |s| ==> s[i] != s[j]
  }
}
