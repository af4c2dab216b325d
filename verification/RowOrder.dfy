/** The stable sort behind `sort_values`: the order of rows by a list of columns, nulls first
    whatever the direction, and what characterises its result. */
module RowOrder {
  import opened Tables

  // ---- The order of values -----------------------------------------------------------------------------

  predicate TextLeq(a: string, b: string) {
    a == [] || (b != [] && (a[0] < b[0] || (a[0] == b[0] && TextLeq(a[1..], b[1..]))))
  }

  lemma {:induction false} TextTotal(a: string, b: string)
    ensures TextLeq(a, b) || TextLeq(b, a)
    ensures TextLeq(a, b) && TextLeq(b, a) ==> a == b
  {
    if a != [] && b != [] {
      TextTotal(a[1..], b[1..]);
      assert a == [a[0]] + a[1..] && b == [b[0]] + b[1..];
    }
  }

  /** Text is ordered by the first character in which it differs; a beginning comes first. */
  lemma {:induction false} TextOrder(a: string, b: string, k: nat)
    requires k <= |a| && k <= |b| && a[..k] == b[..k]
    ensures k == |a| ==> TextLeq(a, b)
    ensures k == |b| ==> TextLeq(b, a)
    ensures k < |a| && k < |b| && a[k] < b[k] ==> TextLeq(a, b) && !TextLeq(b, a)
  {
    if k > 0 {
      assert a[0] == a[..k][0] == b[..k][0] == b[0];
      assert a[1..][..k - 1] == a[..k][1..] && b[1..][..k - 1] == b[..k][1..];
      TextOrder(a[1..], b[1..], k - 1);
    }
  }

  lemma {:induction false} TextTransitive(a: string, b: string, c: string)
    requires TextLeq(a, b) && TextLeq(b, c)
    ensures TextLeq(a, c)
  {
    if a != [] && b != [] && c != [] && a[0] == b[0] == c[0] { TextTransitive(a[1..], b[1..], c[1..]); }
  }

  /** The ascending order of the values of one column (a column does not mix the two kinds). */
  predicate ValueLeq(a: Value, b: Value) {
    match (a, b)
    case (Null, _) => true
    case (_, Null) => false
    case (Num(x), Num(y)) => x <= y
    case (Num(_), Str(_)) => true
    case (Str(_), Num(_)) => false
    case (Str(s), Str(t)) => TextLeq(s, t)
  }

  predicate KeyLeq(a: Value, b: Value, desc: bool) {
    if a.Null? || b.Null? || !desc then ValueLeq(a, b) else ValueLeq(b, a)
  }

  lemma {:induction false} KeyTotal(a: Value, b: Value, desc: bool)
    ensures KeyLeq(a, b, desc) || KeyLeq(b, a, desc)
    ensures KeyLeq(a, b, desc) && KeyLeq(b, a, desc) ==> a == b
    ensures KeyLeq(a, a, desc)
  {
    if a.Str? { TextTotal(a.s, a.s); }
    if a.Str? && b.Str? { TextTotal(a.s, b.s); }
  }

  lemma {:induction false} KeyTransitive(a: Value, b: Value, c: Value, desc: bool)
    requires KeyLeq(a, b, desc) && KeyLeq(b, c, desc)
    ensures KeyLeq(a, c, desc)
  {
    if a.Str? && b.Str? && c.Str? {
      if desc { TextTransitive(c.s, b.s, a.s); } else { TextTransitive(a.s, b.s, c.s); }
    }
  }

  // ---- The order of rows -----------------------------------------------------------------------------------

  /** The sort keys of a row. */
  function KeysOf(cols: seq<string>, r: Row): (keys: seq<Value>)
    ensures |keys| == |cols| && forall i :: 0 <= i < |cols| ==> keys[i] == Get(r, cols[i])
  {
    if cols == [] then [] else [Get(r, cols[0])] + KeysOf(cols[1..], r)
  }

  /** Lexicographic in the listed columns. */
  predicate RowLeq(cols: seq<string>, desc: bool, r: Row, s: Row) {
    if cols == [] then true
    else
      var a, b := Get(r, cols[0]), Get(s, cols[0]);
      if a == b then RowLeq(cols[1..], desc, r, s) else KeyLeq(a, b, desc)
  }

  lemma {:induction false} RowTotal(cols: seq<string>, desc: bool, r: Row, s: Row)
    ensures RowLeq(cols, desc, r, s) || RowLeq(cols, desc, s, r)
    ensures RowLeq(cols, desc, r, s) && RowLeq(cols, desc, s, r) <==> KeysOf(cols, r) == KeysOf(cols, s)
  {
    if cols != [] {
      KeyTotal(Get(r, cols[0]), Get(s, cols[0]), desc);
      RowTotal(cols[1..], desc, r, s);
      assert KeysOf(cols, r)[0] == Get(r, cols[0]) && KeysOf(cols, s)[0] == Get(s, cols[0]);
      assert KeysOf(cols, r)[1..] == KeysOf(cols[1..], r) && KeysOf(cols, s)[1..] == KeysOf(cols[1..], s);
    }
  }

  lemma {:induction false} RowTransitive(cols: seq<string>, desc: bool, r: Row, s: Row, t: Row)
    requires RowLeq(cols, desc, r, s) && RowLeq(cols, desc, s, t)
    ensures RowLeq(cols, desc, r, t)
  {
    if cols != [] {
      var a, b, c := Get(r, cols[0]), Get(s, cols[0]), Get(t, cols[0]);
      KeyTotal(a, b, desc);
      KeyTotal(b, c, desc);
      if a == b && b == c { RowTransitive(cols[1..], desc, r, s, t); }
      else {
        KeyTransitive(a, b, c, desc);
        if a == c { KeyTotal(a, b, desc); }
      }
    }
  }

  /** The order by a + b is the order by a, with ties decided by b. */
  lemma {:induction false} RowLeqAppend(a: seq<string>, b: seq<string>, desc: bool, r: Row, s: Row)
    ensures RowLeq(a + b, desc, r, s) <==>
            RowLeq(a, desc, r, s) && (RowLeq(a, desc, s, r) ==> RowLeq(b, desc, r, s))
  {
    if a == [] {
      assert a + b == b;
    } else {
      assert (a + b)[1..] == a[1..] + b;
      RowLeqAppend(a[1..], b, desc, r, s);
      KeyTotal(Get(r, a[0]), Get(s, a[0]), desc);
    }
  }

  // ---- The sort ----------------------------------------------------------------------------------------------

  function Insert(cols: seq<string>, desc: bool, r: Row, rows: seq<Row>): seq<Row> {
    if rows == [] || RowLeq(cols, desc, r, rows[0]) then [r] + rows
    else [rows[0]] + Insert(cols, desc, r, rows[1..])
  }

  /** Insertion from the right: a row goes before the later rows it is not above. */
  function SortRows(cols: seq<string>, desc: bool, rows: seq<Row>): seq<Row> {
    if rows == [] then [] else Insert(cols, desc, rows[0], SortRows(cols, desc, rows[1..]))
  }

  ghost predicate Sorted(cols: seq<string>, desc: bool, rows: seq<Row>) {
    forall i, j :: 0 <= i < j < |rows| ==> RowLeq(cols, desc, rows[i], rows[j])
  }

  lemma {:induction false} InsertMultiset(cols: seq<string>, desc: bool, r: Row, rows: seq<Row>)
    ensures multiset(Insert(cols, desc, r, rows)) == multiset(rows) + multiset{r}
  {
    if rows != [] && !RowLeq(cols, desc, r, rows[0]) {
      InsertMultiset(cols, desc, r, rows[1..]);
      assert rows == [rows[0]] + rows[1..];
    }
  }

  /** A lower bound of sorted rows can be put before them. */
  lemma {:induction false} SortedCons(cols: seq<string>, desc: bool, r: Row, rows: seq<Row>)
    requires Sorted(cols, desc, rows) && forall y :: y in rows ==> RowLeq(cols, desc, r, y)
    ensures Sorted(cols, desc, [r] + rows)
  {
  }

  lemma {:induction false} InsertSorted(cols: seq<string>, desc: bool, r: Row, rows: seq<Row>)
    requires Sorted(cols, desc, rows)
    ensures Sorted(cols, desc, Insert(cols, desc, r, rows))
  {
    if rows == [] {
    } else if RowLeq(cols, desc, r, rows[0]) {
      forall y | y in rows ensures RowLeq(cols, desc, r, y) {
        var j :| 0 <= j < |rows| && rows[j] == y;
        if j > 0 { RowTransitive(cols, desc, r, rows[0], rows[j]); }
      }
      SortedCons(cols, desc, r, rows);
    } else {
      var h, t := rows[0], Insert(cols, desc, r, rows[1..]);
      InsertSorted(cols, desc, r, rows[1..]);
      InsertMultiset(cols, desc, r, rows[1..]);
      RowTotal(cols, desc, r, h);
      forall y | y in t ensures RowLeq(cols, desc, h, y) {
        assert y in multiset(t);
        assert y == r || y in rows[1..];
      }
      SortedCons(cols, desc, h, t);
    }
  }

  /** The result is sorted and has exactly the input's rows. */
  lemma {:induction false} SortRowsSorts(cols: seq<string>, desc: bool, rows: seq<Row>)
    ensures Sorted(cols, desc, SortRows(cols, desc, rows))
    ensures multiset(SortRows(cols, desc, rows)) == multiset(rows) && |SortRows(cols, desc, rows)| == |rows|
  {
    SortRowsPermutes(cols, desc, rows);
    SortRowsOrders(cols, desc, rows);
    assert |multiset(SortRows(cols, desc, rows))| == |multiset(rows)|;
  }

  lemma {:induction false} SortRowsOrders(cols: seq<string>, desc: bool, rows: seq<Row>)
    ensures Sorted(cols, desc, SortRows(cols, desc, rows))
  {
    if rows != [] {
      SortRowsOrders(cols, desc, rows[1..]);
      InsertSorted(cols, desc, rows[0], SortRows(cols, desc, rows[1..]));
    }
  }

  lemma {:induction false} SortRowsPermutes(cols: seq<string>, desc: bool, rows: seq<Row>)
    ensures multiset(SortRows(cols, desc, rows)) == multiset(rows)
  {
    if rows != [] {
      SortRowsPermutes(cols, desc, rows[1..]);
      InsertMultiset(cols, desc, rows[0], SortRows(cols, desc, rows[1..]));
      assert rows == [rows[0]] + rows[1..];
    }
  }

  /** The rows with the keys k, in their order. */
  function WithKeys(cols: seq<string>, k: seq<Value>, rows: seq<Row>): (out: seq<Row>)
    ensures forall r :: r in out ==> r in rows && KeysOf(cols, r) == k
  {
    if rows == [] then []
    else (if KeysOf(cols, rows[0]) == k then [rows[0]] else []) + WithKeys(cols, k, rows[1..])
  }

  lemma {:induction false} WithKeysCons(cols: seq<string>, k: seq<Value>, r: Row, rows: seq<Row>)
    ensures WithKeys(cols, k, [r] + rows) == (if KeysOf(cols, r) == k then [r] else []) + WithKeys(cols, k, rows)
  {
    assert ([r] + rows)[1..] == rows;
  }

  lemma {:induction false} InsertStable(cols: seq<string>, desc: bool, r: Row, rows: seq<Row>, k: seq<Value>)
    ensures WithKeys(cols, k, Insert(cols, desc, r, rows)) == WithKeys(cols, k, [r] + rows)
  {
    if rows != [] && !RowLeq(cols, desc, r, rows[0]) {
      var h, t := rows[0], rows[1..];
      InsertStable(cols, desc, r, t, k);
      RowTotal(cols, desc, r, h);
      SwapDifferent(cols, k, r, h, t);
      WithKeysCons(cols, k, r, t);
      WithKeysCons(cols, k, h, [r] + t);
      WithKeysCons(cols, k, h, Insert(cols, desc, r, t));
      assert rows == [h] + t;
    }
  }

  /** Rows with different keys can be swapped. */
  lemma {:induction false} SwapDifferent(cols: seq<string>, k: seq<Value>, r: Row, h: Row, t: seq<Row>)
    requires KeysOf(cols, r) != KeysOf(cols, h)
    ensures WithKeys(cols, k, [h] + ([r] + t)) == WithKeys(cols, k, [r] + ([h] + t))
  {
    WithKeysCons(cols, k, r, t);
    WithKeysCons(cols, k, h, t);
    WithKeysCons(cols, k, r, [h] + t);
    WithKeysCons(cols, k, h, [r] + t);
  }

  /** Rows with equal keys keep their order. */
  lemma {:induction false} SortRowsStable(cols: seq<string>, desc: bool, rows: seq<Row>, k: seq<Value>)
    ensures WithKeys(cols, k, SortRows(cols, desc, rows)) == WithKeys(cols, k, rows)
  {
    if rows != [] {
      var t := SortRows(cols, desc, rows[1..]);
      SortRowsStable(cols, desc, rows[1..], k);
      InsertStable(cols, desc, rows[0], t, k);
      WithKeysCons(cols, k, rows[0], t);
    }
  }

  /** A row is found under its own keys. */
  lemma {:induction false} WithKeysFinds(cols: seq<string>, rows: seq<Row>, i: nat)
    requires i < |rows|
    ensures rows[i] in WithKeys(cols, KeysOf(cols, rows[i]), rows)
  {
    if i > 0 {
      assert rows[1..][i - 1] == rows[i];
      WithKeysFinds(cols, rows[1..], i - 1);
      WithKeysRest(cols, KeysOf(cols, rows[i]), rows);
    }
  }

  lemma {:induction false} WithKeysRest(cols: seq<string>, k: seq<Value>, rows: seq<Row>)
    requires rows != []
    ensures forall r :: r in WithKeys(cols, k, rows[1..]) ==> r in WithKeys(cols, k, rows)
  {
  }

  /** Rows sorted alike, with the same rows under every key. */
  ghost predicate SameClasses(cols: seq<string>, a: seq<Row>, b: seq<Row>) {
    forall k :: WithKeys(cols, k, a) == WithKeys(cols, k, b)
  }

  /** The first row of a is not above the first row of b. */
  lemma {:induction false} SameFirstKeys(cols: seq<string>, desc: bool, a: seq<Row>, b: seq<Row>)
    requires a != [] && b != [] && Sorted(cols, desc, a) && SameClasses(cols, a, b)
    ensures RowLeq(cols, desc, a[0], b[0])
  {
    WithKeysFinds(cols, b, 0);
    assert b[0] in WithKeys(cols, KeysOf(cols, b[0]), a);
    var i :| 0 <= i < |a| && a[i] == b[0];
    RowTotal(cols, desc, a[0], a[0]);
  }

  lemma {:induction false} SameHead(cols: seq<string>, desc: bool, a: seq<Row>, b: seq<Row>)
    requires a != [] && b != [] && Sorted(cols, desc, a) && Sorted(cols, desc, b) && SameClasses(cols, a, b)
    ensures a[0] == b[0]
  {
    var k := KeysOf(cols, a[0]);
    SameFirstKeys(cols, desc, a, b);
    SameFirstKeys(cols, desc, b, a);
    RowTotal(cols, desc, a[0], b[0]);
    assert WithKeys(cols, k, a)[0] == a[0];
    assert WithKeys(cols, k, b)[0] == b[0];
  }

  lemma {:induction false} SameTail(cols: seq<string>, a: seq<Row>, b: seq<Row>)
    requires a != [] && b != [] && a[0] == b[0] && SameClasses(cols, a, b)
    ensures SameClasses(cols, a[1..], b[1..])
  {
    forall k ensures WithKeys(cols, k, a[1..]) == WithKeys(cols, k, b[1..]) {
      var head := if KeysOf(cols, a[0]) == k then [a[0]] else [];
      var x, y := WithKeys(cols, k, a[1..]), WithKeys(cols, k, b[1..]);
      assert head + x == WithKeys(cols, k, a) == WithKeys(cols, k, b) == head + y;
      assert x == (head + x)[|head|..] && y == (head + y)[|head|..];
    }
  }

  lemma {:induction false} SameClassesSameEmpty(cols: seq<string>, a: seq<Row>, b: seq<Row>)
    requires SameClasses(cols, a, b) && a == []
    ensures b == []
  {
    var k := if b == [] then [] else KeysOf(cols, b[0]);
    if b != [] { WithKeysFinds(cols, b, 0); }
    assert WithKeys(cols, k, b) == WithKeys(cols, k, a) == [];
  }

  /** These two properties leave no choice: a sorted sequence that keeps the order of equal
      keys is the result of the sort. */
  lemma {:induction false} StableSortIsUnique(cols: seq<string>, desc: bool, a: seq<Row>, b: seq<Row>)
    requires Sorted(cols, desc, a) && Sorted(cols, desc, b) && SameClasses(cols, a, b)
    ensures a == b
  {
    if a == [] {
      SameClassesSameEmpty(cols, a, b);
    } else if b == [] {
      SameClassesSameEmpty(cols, b, a);
    } else {
      SameHead(cols, desc, a, b);
      SameTail(cols, a, b);
      StableSortIsUnique(cols, desc, a[1..], b[1..]);
      assert a == [a[0]] + a[1..] && b == [b[0]] + b[1..];
    }
  }

  // ---- Sorting twice -------------------------------------------------------------------------------------------

  /** Inserting t after x by a alone, or before it by a + b: the same when t is below x in b. */
  lemma {:induction false} InsertsCommute(a: seq<string>, b: seq<string>, desc: bool, t: Row, x: Row, rows: seq<Row>)
    requires !RowLeq(b, desc, x, t)
    ensures Insert(a, desc, t, Insert(a + b, desc, x, rows)) == Insert(a + b, desc, x, Insert(a, desc, t, rows))
  {
    RowLeqAppend(a, b, desc, x, t);
    RowTotal(a, desc, x, t);
    if rows != [] {
      var h := rows[0];
      RowLeqAppend(a, b, desc, x, h);
      RowTotal(a, desc, x, h);
      if RowLeq(a + b, desc, x, h) {
        if !RowLeq(a, desc, t, h) {
          if RowLeq(a, desc, t, x) { RowTransitive(a, desc, t, x, h); }
          assert ([x] + rows)[1..] == rows;
        }
      } else if RowLeq(a, desc, t, h) {
        RowTransitive(a, desc, t, h, x);
        assert ([t] + rows)[1..] == rows;
      } else {
        InsertsCommute(a, b, desc, t, x, rows[1..]);
        var l, r := Insert(a + b, desc, x, rows), Insert(a, desc, t, rows);
        assert l[1..] == Insert(a + b, desc, x, rows[1..]) && r[1..] == Insert(a, desc, t, rows[1..]);
      }
    }
  }

  /** Inserting x into rows sorted by b, then sorting by a. */
  lemma {:induction false} SortAfterInsert(a: seq<string>, b: seq<string>, desc: bool, x: Row, rows: seq<Row>)
    requires Sorted(b, desc, rows)
    ensures SortRows(a, desc, Insert(b, desc, x, rows)) == Insert(a + b, desc, x, SortRows(a, desc, rows))
  {
    if rows == [] || RowLeq(b, desc, x, rows[0]) {
      var u := SortRows(a, desc, rows);
      SortRowsSorts(a, desc, rows);
      forall y | y in u ensures RowLeq(b, desc, x, y) {
        assert y in multiset(u);
        var i :| 0 <= i < |rows| && rows[i] == y;
        if i > 0 { RowTransitive(b, desc, x, rows[0], rows[i]); }
      }
      assert ([x] + rows)[1..] == rows;
      InsertsAgree(a, b, desc, x, u);
    } else {
      var out := Insert(b, desc, x, rows);
      assert out[0] == rows[0] && out[1..] == Insert(b, desc, x, rows[1..]);
      SortAfterInsert(a, b, desc, x, rows[1..]);
      InsertsCommute(a, b, desc, rows[0], x, SortRows(a, desc, rows[1..]));
    }
  }

  lemma {:induction false} InsertsAgree(a: seq<string>, b: seq<string>, desc: bool, x: Row, rows: seq<Row>)
    requires forall y :: y in rows ==> RowLeq(b, desc, x, y)
    ensures Insert(a, desc, x, rows) == Insert(a + b, desc, x, rows)
  {
    if rows != [] {
      assert rows[0] in rows;
      RowLeqAppend(a, b, desc, x, rows[0]);
      InsertsAgree(a, b, desc, x, rows[1..]);
    }
  }

  /** Sorting by b and then by a is one sort by a + b. */
  lemma {:induction false} SortTwice(a: seq<string>, b: seq<string>, desc: bool, rows: seq<Row>)
    ensures SortRows(a, desc, SortRows(b, desc, rows)) == SortRows(a + b, desc, rows)
  {
    if rows != [] {
      SortTwice(a, b, desc, rows[1..]);
      SortRowsSorts(b, desc, rows[1..]);
      SortAfterInsert(a, b, desc, rows[0], SortRows(b, desc, rows[1..]));
    }
  }
}
