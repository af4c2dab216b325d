/** The anomaly scan: complete rows whose squared z-score exceeds the cut in some numeric column,
    the highest scores first. */
module Anomalies {
  import opened Tables
  import opened ZScores

  // ---- The numeric frame ----------------------------------------------------------------------------------

  /** The numeric columns over the rows that are complete in all of them. */
  datatype Frame = Frame(names: seq<string>, index: seq<nat>, columns: seq<seq<real>>)

  predicate Rectangular(columns: seq<seq<real>>, n: nat) {
    forall c :: 0 <= c < |columns| ==> |columns[c]| == n
  }

  predicate Complete(r: Row, names: seq<string>) { forall c :: c in names ==> Get(r, c).Num? }

  function CompleteRows(rows: seq<Row>, names: seq<string>): (index: seq<nat>)
    ensures forall i: nat :: i in index <==> i < |rows| && Complete(rows[i], names)
    ensures forall a, b :: 0 <= a < b < |index| ==> index[a] < index[b]
  {
    if rows == [] then []
    else
      var n := |rows| - 1;
      var before := CompleteRows(rows[..n], names);
      assert forall a :: 0 <= a < |before| ==> before[a] in before;
      before + (if Complete(rows[n], names) then [n] else [])
  }

  function ColumnOf(rows: seq<Row>, index: seq<nat>, c: string): (s: seq<real>)
    requires forall j :: 0 <= j < |index| ==> index[j] < |rows| && Get(rows[index[j]], c).Num?
    ensures |s| == |index| && forall j :: 0 <= j < |index| ==> Get(rows[index[j]], c) == Num(s[j])
  {
    seq(|index|, j requires 0 <= j < |index| => Get(rows[index[j]], c).x)
  }

  function ColumnsFor(rows: seq<Row>, index: seq<nat>, names: seq<string>): (s: seq<seq<real>>)
    requires forall j :: 0 <= j < |index| ==> index[j] < |rows| && Complete(rows[index[j]], names)
    ensures |s| == |names| && Rectangular(s, |index|)
    ensures forall c, j :: 0 <= c < |names| && 0 <= j < |index| ==> Get(rows[index[j]], names[c]) == Num(s[c][j])
  {
    if names == [] then []
    else
      assert names[0] in names && forall c :: c in names[1..] ==> c in names;
      assert forall j :: 0 <= j < |index| ==> Complete(rows[index[j]], names[1..]) && Get(rows[index[j]], names[0]).Num? by {
        forall j | 0 <= j < |index| ensures Complete(rows[index[j]], names[1..]) && Get(rows[index[j]], names[0]).Num? {
          assert Complete(rows[index[j]], names);
        }
      }
      [ColumnOf(rows, index, names[0])] + ColumnsFor(rows, index, names[1..])
  }

  function FrameOf(t: Table): (f: Frame)
    ensures |f.names| == |f.columns| && Rectangular(f.columns, |f.index|) && Ascending(f.index)
  {
    var names := Numeric(t, Names(t.schema));
    var index := CompleteRows(t.rows, names);
    assert forall j :: 0 <= j < |index| ==> index[j] in index;
    Frame(names, index, ColumnsFor(t.rows, index, names))
  }

  // ---- Scores -----------------------------------------------------------------------------------------------

  function Larger(a: seq<real>, b: seq<real>): (r: seq<real>)
    requires |a| == |b|
    ensures |r| == |a| && forall j :: 0 <= j < |a| ==> r[j] == if b[j] > a[j] then b[j] else a[j]
  {
    seq(|a|, j requires 0 <= j < |a| => if b[j] > a[j] then b[j] else a[j])
  }

  /** The squared z-scores of every column. */
  function ZFrame(columns: seq<seq<real>>): (z: seq<seq<real>>)
    ensures |z| == |columns| && forall c :: 0 <= c < |columns| ==> z[c] == SquaredZs(columns[c])
  {
    if columns == [] then [] else [SquaredZs(columns[0])] + ZFrame(columns[1..])
  }

  /** The highest squared z-score of each row. */
  function Scores(z: seq<seq<real>>, n: nat): (zs: seq<real>)
    requires Rectangular(z, n)
    ensures |zs| == n
  {
    if z == [] then seq(n, _ => 0.0)
    else
      var k := |z| - 1;
      Larger(Scores(z[..k], n), z[k])
  }

  predicate NoNegatives(z: seq<seq<real>>) { forall c, j :: 0 <= c < |z| && 0 <= j < |z[c]| ==> z[c][j] >= 0.0 }

  function RowScores(f: Frame): (zs: seq<real>)
    requires Rectangular(f.columns, |f.index|)
    ensures |zs| == |f.index|
  {
    Scores(ZFrame(f.columns), |f.index|)
  }

  /** The positions of the scores over the cut. */
  function Outliers(zs: seq<real>): (js: seq<nat>)
    ensures forall j: nat :: j in js <==> j < |zs| && zs[j] > 9.0
    ensures forall a, b :: 0 <= a < b < |js| ==> js[a] < js[b]
  {
    if zs == [] then []
    else
      var n := |zs| - 1;
      var before := Outliers(zs[..n]);
      assert forall a :: 0 <= a < |before| ==> before[a] in before;
      before + (if zs[n] > 9.0 then [n] else [])
  }

  ghost predicate InRange(js: seq<nat>, n: nat) { forall a :: 0 <= a < |js| ==> js[a] < n }

  /** Highest score first; the library leaves the order of equal scores open. */
  ghost predicate Descending(zs: seq<real>, js: seq<nat>)
    requires InRange(js, |zs|)
  {
    forall a, b :: 0 <= a < b < |js| ==> zs[js[a]] >= zs[js[b]]
  }

  function InsertByScore(zs: seq<real>, j: nat, js: seq<nat>): (r: seq<nat>)
    requires InRange(js, |zs|) && j < |zs|
    ensures InRange(r, |zs|)
  {
    if js == [] || zs[j] >= zs[js[0]] then [j] + js else [js[0]] + InsertByScore(zs, j, js[1..])
  }

  function SortByScore(zs: seq<real>, js: seq<nat>): (r: seq<nat>)
    requires InRange(js, |zs|)
    ensures InRange(r, |zs|)
  {
    if js == [] then [] else InsertByScore(zs, js[0], SortByScore(zs, js[1..]))
  }

  lemma {:induction false} InsertMultiset(zs: seq<real>, j: nat, js: seq<nat>)
    requires InRange(js, |zs|) && j < |zs|
    ensures multiset(InsertByScore(zs, j, js)) == multiset(js) + multiset{j}
  {
    if js != [] && zs[j] < zs[js[0]] {
      InsertMultiset(zs, j, js[1..]);
      assert js == [js[0]] + js[1..];
    }
  }

  lemma {:induction false} SortMultiset(zs: seq<real>, js: seq<nat>)
    requires InRange(js, |zs|)
    ensures multiset(SortByScore(zs, js)) == multiset(js)
  {
    if js != [] {
      SortMultiset(zs, js[1..]);
      InsertMultiset(zs, js[0], SortByScore(zs, js[1..]));
      assert js == [js[0]] + js[1..];
    }
  }

  lemma {:induction false} TailDescends(zs: seq<real>, js: seq<nat>)
    requires InRange(js, |zs|) && js != [] && Descending(zs, js)
    ensures InRange(js[1..], |zs|) && Descending(zs, js[1..])
  {
    var t := js[1..];
    forall a, b | 0 <= a < b < |t| ensures zs[t[a]] >= zs[t[b]] {
      assert t[a] == js[a + 1] && t[b] == js[b + 1];
    }
  }

  lemma {:induction false} PutBefore(zs: seq<real>, h: nat, t: seq<nat>)
    requires InRange(t, |zs|) && h < |zs| && Descending(zs, t) && (t != [] ==> zs[h] >= zs[t[0]])
    ensures InRange([h] + t, |zs|) && Descending(zs, [h] + t)
  {
    var r := [h] + t;
    forall a, b | 0 <= a < b < |r| ensures r[a] < |zs| && r[b] < |zs| && zs[r[a]] >= zs[r[b]] {
      assert r[b] == t[b - 1];
      if a > 0 { assert r[a] == t[a - 1]; } else if b > 1 { assert zs[t[0]] >= zs[t[b - 1]]; }
    }
  }

  lemma {:induction false} InsertDescends(zs: seq<real>, j: nat, js: seq<nat>)
    requires InRange(js, |zs|) && j < |zs| && Descending(zs, js)
    ensures Descending(zs, InsertByScore(zs, j, js))
  {
    if js == [] || zs[j] >= zs[js[0]] {
      PutBefore(zs, j, js);
    } else {
      TailDescends(zs, js);
      InsertDescends(zs, j, js[1..]);
      assert |js| > 1 ==> zs[js[0]] >= zs[js[1]];
      PutBefore(zs, js[0], InsertByScore(zs, j, js[1..]));
    }
  }

  lemma {:induction false} SortDescends(zs: seq<real>, js: seq<nat>)
    requires InRange(js, |zs|)
    ensures Descending(zs, SortByScore(zs, js))
  {
    if js != [] {
      SortDescends(zs, js[1..]);
      InsertDescends(zs, js[0], SortByScore(zs, js[1..]));
    }
  }

  function Top(order: seq<nat>, maxResults: nat): seq<nat> {
    if |order| <= maxResults then order else order[..maxResults]
  }

  /** An order of the outliers the library may produce. */
  ghost predicate Ranked(zs: seq<real>, order: seq<nat>) {
    InRange(order, |zs|) && Descending(zs, order) && multiset(order) == multiset(Outliers(zs))
  }

  /** A reported row: its index in the table, its squared score and the column that explains it. */
  datatype Anomaly = Anomaly(idx: nat, score: real, reason: string)

  /** Column c is the first one in which row j reaches its highest score. */
  ghost predicate FirstHighest(z: seq<seq<real>>, n: nat, j: nat, c: nat)
    requires Rectangular(z, n) && j < n && c < |z|
  {
    && (forall d :: 0 <= d < |z| ==> z[d][j] <= z[c][j])
    && (forall d :: 0 <= d < c ==> z[d][j] < z[c][j])
    && z[c][j] == Scores(z, n)[j]
  }

  ghost predicate Explains(names: seq<string>, index: seq<nat>, z: seq<seq<real>>, j: nat, a: Anomaly)
    requires |names| == |z| && Rectangular(z, |index|) && j < |index|
  {
    && a.idx == index[j] && a.score == Scores(z, |index|)[j]
    && exists c :: 0 <= c < |names| && a.reason == names[c] && FirstHighest(z, |index|, j, c)
  }

  /** The first column with the row's highest score. */
  method IdxMax(z: seq<seq<real>>, n: nat, j: nat) returns (c: nat)
    requires Rectangular(z, n) && z != [] && j < n && NoNegatives(z)
    ensures c < |z| && FirstHighest(z, n, j, c)
  {
    c := 0;
    assert z[..1][..0] == [] && z[..1][0] == z[0];
    for k := 1 to |z|
      invariant c < k && z[c][j] == Scores(z[..k], n)[j]
      invariant forall d :: 0 <= d < k ==> z[d][j] <= z[c][j]
      invariant forall d :: 0 <= d < c ==> z[d][j] < z[c][j]
    {
      assert z[..k + 1][..k] == z[..k] && z[..k + 1][k] == z[k];
      if z[k][j] > z[c][j] { c := k; }
    }
    assert z[..|z|] == z;
  }

  lemma {:induction false} OutliersInRange(zs: seq<real>)
    ensures InRange(Outliers(zs), |zs|)
  {
    var js := Outliers(zs);
    assert forall a :: 0 <= a < |js| ==> js[a] in js;
  }

  lemma {:induction false} TopIsFirst(order: seq<nat>, maxResults: nat)
    ensures var top := Top(order, maxResults);
            |top| <= |order| && forall i :: 0 <= i < |top| ==> top[i] == order[i]
  {
  }

  /** The loop over the rows to report. */
  method Explanations(names: seq<string>, index: seq<nat>, z: seq<seq<real>>, anomalous: seq<nat>)
    returns (results: seq<Anomaly>)
    requires |names| == |z| && z != [] && Rectangular(z, |index|) && NoNegatives(z) && InRange(anomalous, |index|)
    ensures |results| == |anomalous|
    ensures forall i :: 0 <= i < |results| ==> Explains(names, index, z, anomalous[i], results[i])
  {
    results := [];
    for i := 0 to |anomalous|
      invariant |results| == i
      invariant forall k :: 0 <= k < i ==> Explains(names, index, z, anomalous[k], results[k])
    {
      var j := anomalous[i];
      var c := IdxMax(z, |index|, j);
      results := results + [Anomaly(index[j], z[c][j], names[c])];
    }
  }

  /** The rows reported for a frame: the top of some ranking of its outliers, each explained. */
  ghost predicate Reports(f: Frame, maxResults: nat, results: seq<Anomaly>)
    requires |f.names| == |f.columns| && Rectangular(f.columns, |f.index|)
  {
    exists order :: Ranked(RowScores(f), order) && ReportsTop(f, order, maxResults, results)
  }

  ghost predicate ReportsTop(f: Frame, order: seq<nat>, maxResults: nat, results: seq<Anomaly>)
    requires |f.names| == |f.columns| && Rectangular(f.columns, |f.index|)
  {
    && InRange(order, |f.index|) && |results| == |Top(order, maxResults)|
    && forall i :: 0 <= i < |results| ==> Explains(f.names, f.index, ZFrame(f.columns), order[i], results[i])
  }

  /** A ranking of the outliers. */
  method Rank(zs: seq<real>) returns (order: seq<nat>)
    ensures Ranked(zs, order)
  {
    OutliersInRange(zs);
    order := SortByScore(zs, Outliers(zs));
    SortDescends(zs, Outliers(zs));
    SortMultiset(zs, Outliers(zs));
  }

  method ReportFrame(f: Frame, maxResults: nat) returns (results: seq<Anomaly>)
    requires |f.names| == |f.columns| && Rectangular(f.columns, |f.index|) && f.names != []
    ensures Reports(f, maxResults, results)
  {
    var order := Rank(RowScores(f));
    TopIsFirst(order, maxResults);
    results := Explanations(f.names, f.index, ZFrame(f.columns), Top(order, maxResults));
    assert ReportsTop(f, order, maxResults, results);
  }

  method DetectAnomalies(t: Table, maxResults: nat) returns (results: seq<Anomaly>)
    ensures var f := FrameOf(t);
            if f.names == [] || f.index == [] then results == [] else Reports(f, maxResults, results)
    ensures var f := FrameOf(t); TopOutliers(f.names, f.index, ZFrame(f.columns), maxResults, results)
  {
    var f := FrameOf(t);
    if f.names == [] || f.index == [] { return []; }
    results := ReportFrame(f, maxResults);
    ReportsTheTop(f, maxResults, results);
  }

  // ---- The highest scores are reported ----------------------------------------------------------------------

  lemma {:induction false} AscendingOnce(js: seq<nat>, x: nat)
    requires forall a, b :: 0 <= a < b < |js| ==> js[a] < js[b]
    ensures multiset(js)[x] <= 1
  {
    if js != [] {
      var t := js[1..];
      assert js == [js[0]] + t;
      assert forall a :: 0 <= a < |t| ==> t[a] == js[a + 1];
      AscendingOnce(t, x);
      if x == js[0] { assert x !in multiset(t); }
    }
  }

  lemma {:induction false} TwiceCounts(order: seq<nat>, a: nat, b: nat)
    requires a < b < |order| && order[a] == order[b]
    ensures multiset(order)[order[a]] >= 2
  {
    assert order == order[..b] + [order[b]] + order[b + 1..];
    assert order[..b][a] == order[a] && order[a] in multiset(order[..b]);
  }

  lemma {:induction false} RankedMembers(zs: seq<real>, order: seq<nat>)
    requires Ranked(zs, order)
    ensures |order| == |Outliers(zs)| && Distinct(order)
    ensures forall j :: j in order <==> j in Outliers(zs)
  {
    var js := Outliers(zs);
    assert |order| == |multiset(order)| == |multiset(js)| == |js|;
    forall a, b | 0 <= a < b < |order| ensures order[a] != order[b] {
      AscendingOnce(js, order[a]);
      if order[a] == order[b] { TwiceCounts(order, a, b); }
    }
    assert forall j :: j in order <==> j in multiset(order);
    assert forall j :: j in js <==> j in multiset(js);
  }

  lemma {:induction false} LowerAfterTop(zs: seq<real>, order: seq<nat>, k: nat, j: nat, i: nat)
    requires InRange(order, |zs|) && Descending(zs, order) && k <= |order|
    requires j in order && j !in order[..k] && i in order[..k]
    ensures i < |zs| && j < |zs| && zs[j] <= zs[i]
  {
    assert order == order[..k] + order[k..];
    var a :| 0 <= a < k && order[..k][a] == i;
    var b :| k <= b < |order| && order[b] == j;
    assert order[a] == i;
  }

  lemma {:induction false} TopOfRanking(zs: seq<real>, order: seq<nat>, maxResults: nat)
    requires Ranked(zs, order)
    ensures var n := |Outliers(zs)|; |Top(order, maxResults)| == if n <= maxResults then n else maxResults
    ensures forall j: nat, i: nat ::
              j < |zs| && zs[j] > 9.0 && j !in Top(order, maxResults) && i in Top(order, maxResults) ==>
              i < |zs| && zs[j] <= zs[i]
  {
    var top := Top(order, maxResults);
    RankedMembers(zs, order);
    assert top == order[..|top|] && forall i :: i in top ==> i in order;
    forall j: nat, i: nat | j < |zs| && zs[j] > 9.0 && j !in top && i in top ensures i < |zs| && zs[j] <= zs[i] {
      LowerAfterTop(zs, order, |top|, j, i);
    }
  }

  predicate Ascending(index: seq<nat>) { forall a, b :: 0 <= a < b < |index| ==> index[a] < index[b] }

  /** Result i is row order[i] with its score. */
  ghost predicate Lists(index: seq<nat>, zs: seq<real>, order: seq<nat>, maxResults: nat, results: seq<Anomaly>) {
    && |zs| == |index| && Ranked(zs, order) && |results| == |Top(order, maxResults)| <= |order|
    && forall i :: 0 <= i < |results| ==> results[i].idx == index[order[i]] && results[i].score == zs[order[i]]
  }

  lemma {:induction false} ReportAt(f: Frame, order: seq<nat>, maxResults: nat, results: seq<Anomaly>, i: nat)
    requires |f.names| == |f.columns| && Rectangular(f.columns, |f.index|)
    requires ReportsTop(f, order, maxResults, results) && i < |results| <= |order|
    ensures results[i].idx == f.index[order[i]] && results[i].score == RowScores(f)[order[i]]
  {
    assert Explains(f.names, f.index, ZFrame(f.columns), order[i], results[i]);
  }

  lemma {:induction false} ReportsLists(f: Frame, maxResults: nat, results: seq<Anomaly>) returns (order: seq<nat>)
    requires |f.names| == |f.columns| && Rectangular(f.columns, |f.index|) && Reports(f, maxResults, results)
    ensures Lists(f.index, RowScores(f), order, maxResults, results)
  {
    order :| Ranked(RowScores(f), order) && ReportsTop(f, order, maxResults, results);
    TopIsFirst(order, maxResults);
    TopLists(f, order, maxResults, results);
  }

  lemma {:induction false} TopLists(f: Frame, order: seq<nat>, maxResults: nat, results: seq<Anomaly>)
    requires |f.names| == |f.columns| && Rectangular(f.columns, |f.index|)
    requires ReportsTop(f, order, maxResults, results) && |results| <= |order|
    ensures forall i :: 0 <= i < |results| ==>
              results[i].idx == f.index[order[i]] && results[i].score == RowScores(f)[order[i]]
  {
    forall i | 0 <= i < |results|
      ensures results[i].idx == f.index[order[i]] && results[i].score == RowScores(f)[order[i]]
    {
      ReportAt(f, order, maxResults, results, i);
    }
  }

  lemma {:induction false} ListedPair(index: seq<nat>, zs: seq<real>, order: seq<nat>, maxResults: nat,
                                      results: seq<Anomaly>, a: nat, b: nat)
    requires Lists(index, zs, order, maxResults, results) && Ascending(index) && a < b < |results|
    ensures results[a].score >= results[b].score && results[a].idx != results[b].idx
  {
    RankedMembers(zs, order);
    assert order[a] != order[b];
    if order[a] < order[b] { assert index[order[a]] < index[order[b]]; } else { assert index[order[b]] < index[order[a]]; }
  }

  lemma {:induction false} ListedOutlier(index: seq<nat>, zs: seq<real>, order: seq<nat>, maxResults: nat,
                                         results: seq<Anomaly>, i: nat)
    requires Lists(index, zs, order, maxResults, results) && i < |results|
    ensures results[i].score > 9.0 && results[i].idx in index
  {
    RankedMembers(zs, order);
    assert order[i] in order;
  }

  /** However ties are broken: as many outliers are reported as fit, highest first, ... */
  lemma {:induction false} ReportedAreOutliers(f: Frame, maxResults: nat, results: seq<Anomaly>)
    requires |f.names| == |f.columns| && Rectangular(f.columns, |f.index|) && Ascending(f.index)
    requires Reports(f, maxResults, results)
    ensures var n := |Outliers(RowScores(f))|; |results| == if n <= maxResults then n else maxResults
    ensures forall i :: 0 <= i < |results| ==> results[i].score > 9.0 && results[i].idx in f.index
    ensures forall a, b :: 0 <= a < b < |results| ==>
              results[a].score >= results[b].score && results[a].idx != results[b].idx
  {
    var zs := RowScores(f);
    var order := ReportsLists(f, maxResults, results);
    TopOfRanking(zs, order, maxResults);
    forall i | 0 <= i < |results| ensures results[i].score > 9.0 && results[i].idx in f.index {
      ListedOutlier(f.index, zs, order, maxResults, results, i);
    }
    forall a, b | 0 <= a < b < |results|
      ensures results[a].score >= results[b].score && results[a].idx != results[b].idx
    {
      ListedPair(f.index, zs, order, maxResults, results, a, b);
    }
  }

  lemma {:induction false} UnlistedLower(index: seq<nat>, zs: seq<real>, order: seq<nat>, maxResults: nat,
                                         results: seq<Anomaly>, j: nat, i: nat)
    requires Lists(index, zs, order, maxResults, results) && i < |results|
    requires j < |index| && zs[j] > 9.0 && forall k :: 0 <= k < |results| ==> results[k].idx != index[j]
    ensures zs[j] <= results[i].score
  {
    var top := Top(order, maxResults);
    TopOfRanking(zs, order, maxResults);
    TopIsFirst(order, maxResults);
    assert top[i] == order[i] && top[i] in top;
    forall k | 0 <= k < |top| ensures top[k] != j { assert results[k].idx == index[order[k]]; }
  }

  /** ... and an outlier that is not reported scores no higher than any reported row. */
  lemma {:induction false} UnreportedScoreLower(f: Frame, maxResults: nat, results: seq<Anomaly>, j: nat, i: nat)
    requires |f.names| == |f.columns| && Rectangular(f.columns, |f.index|)
    requires Reports(f, maxResults, results)
    requires j < |f.index| && RowScores(f)[j] > 9.0 && (forall k :: 0 <= k < |results| ==> results[k].idx != f.index[j])
    requires i < |results|
    ensures RowScores(f)[j] <= results[i].score
  {
    var order := ReportsLists(f, maxResults, results);
    UnlistedLower(f.index, RowScores(f), order, maxResults, results, j, i);
  }

  // ---- What is reported, in terms of the table ---------------------------------------------------------------

  /** The frame has the numeric columns, the rows that are complete in them in their order, and
      their values. */
  lemma {:induction false} FrameIsTheTable(t: Table)
    ensures var f := FrameOf(t);
            && f.names == Numeric(t, Names(t.schema)) && (forall c :: c in f.names <==> IsNumeric(t, c))
            && (forall i: nat :: i in f.index <==> i < |t.rows| && forall c :: IsNumeric(t, c) ==> Get(t.rows[i], c).Num?)
            && Ascending(f.index) && |f.columns| == |f.names| && Rectangular(f.columns, |f.index|)
            && forall k, j :: 0 <= k < |f.names| && 0 <= j < |f.index| ==>
                 f.index[j] < |t.rows| && Get(t.rows[f.index[j]], f.names[k]) == Num(f.columns[k][j])
  {
    var f := FrameOf(t);
    forall c ensures c in f.names <==> IsNumeric(t, c) {
      if k :| k in t.schema && k.name == c && k.numeric {
        var i :| 0 <= i < |t.schema| && t.schema[i] == k;
        assert Names(t.schema)[i] == c;
      }
    }
    forall i: nat ensures i in f.index <==> i < |t.rows| && forall c :: IsNumeric(t, c) ==> Get(t.rows[i], c).Num? {
      assert i in f.index <==> i < |t.rows| && Complete(t.rows[i], f.names);
    }
    assert forall j :: 0 <= j < |f.index| ==> f.index[j] in f.index;
  }

  /** A result reports row j with its highest score and the first column that has it. */
  ghost predicate Reported(names: seq<string>, index: seq<nat>, z: seq<seq<real>>, a: Anomaly, j: nat, k: nat)
    requires |names| == |z| && Rectangular(z, |index|)
  {
    && j < |index| && k < |names| && a.idx == index[j] && a.reason == names[k] && a.score == z[k][j] > 9.0
    && (forall d :: 0 <= d < |z| ==> z[d][j] <= a.score) && (forall d :: 0 <= d < k ==> z[d][j] < a.score)
  }

  ghost predicate IsReported(names: seq<string>, index: seq<nat>, z: seq<seq<real>>, a: Anomaly)
    requires |names| == |z| && Rectangular(z, |index|)
  {
    exists j, k :: Reported(names, index, z, a, j, k)
  }

  ghost predicate HasRow(index: seq<nat>, results: seq<Anomaly>, j: nat)
    requires j < |index|
  {
    exists i :: 0 <= i < |results| && results[i].idx == index[j]
  }

  /** A row over the cut is reported, or there are enough others that score no less. */
  ghost predicate Accounted(index: seq<nat>, maxResults: nat, results: seq<Anomaly>, j: nat, score: real)
    requires j < |index|
  {
    score > 9.0 ==>
      HasRow(index, results, j) || (|results| == maxResults && forall i :: 0 <= i < |results| ==> score <= results[i].score)
  }

  /** The results are the top of the rows over the cut: highest score first, none twice, as many as
      were asked for if there are as many. */
  ghost predicate TopOutliers(names: seq<string>, index: seq<nat>, z: seq<seq<real>>, maxResults: nat, results: seq<Anomaly>)
    requires |names| == |z| && Rectangular(z, |index|)
  {
    && |results| <= maxResults
    && (forall i :: 0 <= i < |results| ==> IsReported(names, index, z, results[i]))
    && (forall a, b :: 0 <= a < b < |results| ==> results[a].score >= results[b].score && results[a].idx != results[b].idx)
    && (forall j, k :: 0 <= j < |index| && 0 <= k < |z| ==> Accounted(index, maxResults, results, j, z[k][j]))
  }

  lemma {:induction false} ScoresBound(z: seq<seq<real>>, n: nat, k: nat, j: nat)
    requires Rectangular(z, n) && k < |z| && j < n
    ensures z[k][j] <= Scores(z, n)[j]
  {
    var m := |z| - 1;
    if k < m { ScoresBound(z[..m], n, k, j); }
  }

  lemma {:induction false} ExplainedIsReported(names: seq<string>, index: seq<nat>, z: seq<seq<real>>, j: nat, a: Anomaly)
    requires |names| == |z| && Rectangular(z, |index|) && j < |index| && Explains(names, index, z, j, a) && a.score > 9.0
    ensures IsReported(names, index, z, a)
  {
    var c :| 0 <= c < |names| && a.reason == names[c] && FirstHighest(z, |index|, j, c);
    assert Reported(names, index, z, a, j, c);
  }

  lemma {:induction false} FewAreAllReported(index: seq<nat>, zs: seq<real>, order: seq<nat>, maxResults: nat,
                                             results: seq<Anomaly>, j: nat)
    requires Lists(index, zs, order, maxResults, results) && j < |index| && zs[j] > 9.0 && |results| < maxResults
    ensures HasRow(index, results, j)
  {
    RankedMembers(zs, order);
    assert j in Outliers(zs) && j in order;
    var i :| 0 <= i < |order| && order[i] == j;
    assert results[i].idx == index[j];
  }

  lemma {:induction false} AllAccounted(index: seq<nat>, zs: seq<real>, order: seq<nat>, maxResults: nat,
                                        results: seq<Anomaly>, j: nat, score: real)
    requires Lists(index, zs, order, maxResults, results) && j < |index| && score <= zs[j]
    ensures Accounted(index, maxResults, results, j, score)
  {
    if score > 9.0 && !HasRow(index, results, j) {
      if |results| < maxResults { FewAreAllReported(index, zs, order, maxResults, results, j); }
      forall i | 0 <= i < |results| ensures score <= results[i].score {
        UnlistedLower(index, zs, order, maxResults, results, j, i);
      }
    }
  }

  /** What is reported for a ranking of the rows by their scores in z. */
  lemma {:induction false} TopIsReported(names: seq<string>, index: seq<nat>, z: seq<seq<real>>, order: seq<nat>,
                                         maxResults: nat, results: seq<Anomaly>)
    requires |names| == |z| && Rectangular(z, |index|) && Ascending(index)
    requires Lists(index, Scores(z, |index|), order, maxResults, results)
    requires forall i :: 0 <= i < |results| ==> Explains(names, index, z, order[i], results[i])
    ensures TopOutliers(names, index, z, maxResults, results)
  {
    var zs := Scores(z, |index|);
    assert |results| <= maxResults;
    forall i | 0 <= i < |results| ensures IsReported(names, index, z, results[i]) {
      ListedOutlier(index, zs, order, maxResults, results, i);
      ExplainedIsReported(names, index, z, order[i], results[i]);
    }
    ListedPairs(index, zs, order, maxResults, results);
    ColumnsAccounted(index, z, order, maxResults, results);
  }

  lemma {:induction false} ListedPairs(index: seq<nat>, zs: seq<real>, order: seq<nat>, maxResults: nat, results: seq<Anomaly>)
    requires Lists(index, zs, order, maxResults, results) && Ascending(index)
    ensures forall a, b :: 0 <= a < b < |results| ==>
              results[a].score >= results[b].score && results[a].idx != results[b].idx
  {
    forall a, b | 0 <= a < b < |results|
      ensures results[a].score >= results[b].score && results[a].idx != results[b].idx
    {
      ListedPair(index, zs, order, maxResults, results, a, b);
    }
  }

  lemma {:induction false} ColumnsAccounted(index: seq<nat>, z: seq<seq<real>>, order: seq<nat>, maxResults: nat,
                                            results: seq<Anomaly>)
    requires Rectangular(z, |index|) && Lists(index, Scores(z, |index|), order, maxResults, results)
    ensures forall j, k :: 0 <= j < |index| && 0 <= k < |z| ==> Accounted(index, maxResults, results, j, z[k][j])
  {
    forall j, k | 0 <= j < |index| && 0 <= k < |z| ensures Accounted(index, maxResults, results, j, z[k][j]) {
      ScoresBound(z, |index|, k, j);
      AllAccounted(index, Scores(z, |index|), order, maxResults, results, j, z[k][j]);
    }
  }

  /** What the scan reports is the top of the rows over the cut in some column. */
  lemma {:induction false} ReportsTheTop(f: Frame, maxResults: nat, results: seq<Anomaly>)
    requires |f.names| == |f.columns| && Rectangular(f.columns, |f.index|) && Ascending(f.index)
    requires Reports(f, maxResults, results)
    ensures TopOutliers(f.names, f.index, ZFrame(f.columns), maxResults, results)
  {
    var order :| Ranked(RowScores(f), order) && ReportsTop(f, order, maxResults, results);
    TopIsFirst(order, maxResults);
    TopLists(f, order, maxResults, results);
    TopIsReported(f.names, f.index, ZFrame(f.columns), order, maxResults, results);
  }

  // ---- How many there can be --------------------------------------------------------------------------------

  lemma {:induction false} LargerExceeds(a: seq<real>, b: seq<real>)
    requires |a| == |b|
    ensures Exceeding(Larger(a, b)) <= Exceeding(a) + Exceeding(b)
  {
    if a != [] {
      assert Larger(a, b)[1..] == Larger(a[1..], b[1..]);
      LargerExceeds(a[1..], b[1..]);
    }
  }

  lemma {:induction false} ZerosDoNotExceed(zs: seq<real>)
    requires forall j :: 0 <= j < |zs| ==> zs[j] == 0.0
    ensures Exceeding(zs) == 0
  {
    if zs != [] { ZerosDoNotExceed(zs[1..]); }
  }

  lemma {:induction false} ScoresExceeding(z: seq<seq<real>>, n: nat)
    requires Rectangular(z, n)
    requires forall c :: 0 <= c < |z| ==> 9 * Exceeding(z[c]) <= n && (n <= 9 ==> Exceeding(z[c]) == 0)
    ensures 9 * Exceeding(Scores(z, n)) <= |z| * n
    ensures n <= 9 ==> Exceeding(Scores(z, n)) == 0
  {
    if z == [] {
      ZerosDoNotExceed(Scores(z, n));
    } else {
      var k := |z| - 1;
      ScoresExceeding(z[..k], n);
      LargerExceeds(Scores(z[..k], n), z[k]);
      OneMoreColumn(k, n);
    }
  }

  lemma {:induction false} OneMoreColumn(k: nat, n: nat)
    ensures (k + 1) * n == k * n + n
  {
  }

  lemma {:induction false} ExceedingAppend(zs: seq<real>, z: real)
    ensures Exceeding(zs + [z]) == Exceeding(zs) + if z > 9.0 then 1 else 0
  {
    if zs == [] {
      assert zs + [z] == [z] && [z][1..] == [];
    } else {
      assert (zs + [z])[1..] == zs[1..] + [z];
      ExceedingAppend(zs[1..], z);
    }
  }

  lemma {:induction false} OutliersExceed(zs: seq<real>)
    ensures |Outliers(zs)| == Exceeding(zs)
  {
    if zs != [] {
      var n := |zs| - 1;
      OutliersExceed(zs[..n]);
      ExceedingAppend(zs[..n], zs[n]);
      assert zs == zs[..n] + [zs[n]];
    }
  }

  /** For n complete rows and k numeric columns at most k * n / 9 rows are outliers, and none at
      all when n is 9 or less, whatever the number of columns. */
  lemma {:induction false} OutliersAreFew(t: Table)
    ensures var f := FrameOf(t);
            var outliers := Outliers(RowScores(f));
            9 * |outliers| <= |f.names| * |f.index| && (|f.index| <= 9 ==> outliers == [])
  {
    var f := FrameOf(t);
    var z := ZFrame(f.columns);
    forall c | 0 <= c < |z| ensures 9 * Exceeding(z[c]) <= |f.index| && (|f.index| <= 9 ==> Exceeding(z[c]) == 0) {
      FewExceed(f.columns[c]);
    }
    ScoresExceeding(z, |f.index|);
    OutliersExceed(RowScores(f));
  }
}
