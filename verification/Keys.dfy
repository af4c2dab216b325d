/** The key strings the back end derives from row ids: the object-store key of an
    execution's output and the key under which an execution is deduplicated.
    What the protocol needs from both is that different rows give different keys. */
module Keys {

  const DIGITS := "0123456789"

  predicate IsDigit(c: char) { c in DIGITS }

  /** Decimal rendering, as Python's str() of a non-negative id. */
  function Decimal(n: nat): (s: string)
    ensures |s| > 0 && forall i :: 0 <= i < |s| ==> IsDigit(s[i])
  {
    if n < 10 then [DIGITS[n]] else Decimal(n / 10) + [DIGITS[n % 10]]
  }

  function DigitValue(c: char): (d: nat)
    ensures c in DIGITS ==> d < 10 && DIGITS[d] == c
  {
    if c == '0' then 0 else if c == '1' then 1 else if c == '2' then 2 else if c == '3' then 3
    else if c == '4' then 4 else if c == '5' then 5 else if c == '6' then 6 else if c == '7' then 7
    else if c == '8' then 8 else 9
  }

  function ParseDecimal(s: string): nat {
    if s == [] then 0 else 10 * ParseDecimal(s[..|s| - 1]) + DigitValue(s[|s| - 1])
  }

  lemma DigitValueOf(d: nat)
    requires d < 10
    ensures DigitValue(DIGITS[d]) == d
  {
  }

  lemma {:induction false} ParseInvertsDecimal(n: nat)
    ensures ParseDecimal(Decimal(n)) == n
  {
    var s := Decimal(n);
    DigitValueOf(n % 10);
    if n < 10 {
      assert s[..|s| - 1] == [];
    } else {
      assert s[..|s| - 1] == Decimal(n / 10);
      ParseInvertsDecimal(n / 10);
    }
  }

  lemma DecimalInjective(m: nat, n: nat)
    requires Decimal(m) == Decimal(n)
    ensures m == n
  {
    ParseInvertsDecimal(m);
    ParseInvertsDecimal(n);
  }

  /** One field of a joined string: the field, its separator and what follows. */
  function Field(field: string, sep: char, rest: string): string {
    field + [sep] + rest
  }

  /** After a fixed prefix, a field that does not contain the separator can be read back. */
  lemma {:induction false} FieldsSplit(p: string, a: string, b: string, sep: char, x: string, y: string)
    requires sep !in a && sep !in b
    requires p + Field(a, sep, x) == p + Field(b, sep, y)
    ensures a == b && x == y
  {
    var l, r := Field(a, sep, x), Field(b, sep, y);
    assert l == (p + l)[|p|..] == (p + r)[|p|..] == r;
    assert l[|a|] == sep && r[|b|] == sep;
    assert forall i | 0 <= i < |a| :: l[i] != sep;
    assert forall i | 0 <= i < |b| :: r[i] != sep;
    assert |a| == |b|;
    assert a == l[..|a|] == r[..|b|] == b;
    assert x == l[|a| + 1..] == r[|b| + 1..] == y;
  }

  /** A decimal field after a fixed prefix can be read back. */
  lemma DecimalFieldsSplit(p: string, m: nat, n: nat, sep: char, x: string, y: string)
    requires !IsDigit(sep)
    requires p + Field(Decimal(m), sep, x) == p + Field(Decimal(n), sep, y)
    ensures m == n && x == y
  {
    FieldsSplit(p, Decimal(m), Decimal(n), sep, x, y);
    DecimalInjective(m, n);
  }

  /** The object key of an execution's output: users/U/outputs/exec-E.csv. */
  function OutputKey(userId: nat, executionId: nat): string {
    "users/" + Field(Decimal(userId), '/', OutputName(executionId))
  }

  function OutputName(executionId: nat): string {
    "outputs/exec-" + Field(Decimal(executionId), '.', "csv")
  }

  /** No two executions share an output object, whoever owns them. */
  lemma OutputKeyInjective(u1: nat, e1: nat, u2: nat, e2: nat)
    requires OutputKey(u1, e1) == OutputKey(u2, e2)
    ensures u1 == u2 && e1 == e2
  {
    DecimalFieldsSplit("users/", u1, u2, '/', OutputName(e1), OutputName(e2));
    DecimalFieldsSplit("outputs/exec-", e1, e2, '.', "csv", "csv");
  }

  /** The key under which one logical execution is deduplicated, exec:U:P:D:H, where H is
      the hash of the steps, or empty when the steps are configured out of the key. */
  function DedupKey(userId: nat, pipelineId: nat, datasetId: nat, stepsHash: string): string {
    "exec:" + Field(Decimal(userId), ':',
                    Field(Decimal(pipelineId), ':', Field(Decimal(datasetId), ':', stepsHash)))
  }

  lemma DedupKeyInjective(u1: nat, p1: nat, d1: nat, h1: string, u2: nat, p2: nat, d2: nat, h2: string)
    requires DedupKey(u1, p1, d1, h1) == DedupKey(u2, p2, d2, h2)
    ensures u1 == u2 && p1 == p2 && d1 == d2 && h1 == h2
  {
    var x1, x2 := Field(Decimal(d1), ':', h1), Field(Decimal(d2), ':', h2);
    var y1, y2 := Field(Decimal(p1), ':', x1), Field(Decimal(p2), ':', x2);
    DecimalFieldsSplit("exec:", u1, u2, ':', y1, y2);
    DecimalFieldsSplit("", p1, p2, ':', x1, x2);
    DecimalFieldsSplit("", d1, d2, ':', h1, h2);
  }

  /** The texts of both keys. */
  lemma {:induction false} OutputKeyText(user: nat, execution: nat)
    ensures OutputKey(user, execution) == "users/" + (Decimal(user) + ("/outputs/exec-" + (Decimal(execution) + ".csv")))
  {
    var e := Decimal(execution);
    assert Field(e, '.', "csv") == e + ".csv";
    assert ['/'] + ("outputs/exec-" + (e + ".csv")) == "/outputs/exec-" + (e + ".csv");
    assert Field(Decimal(user), '/', OutputName(execution)) == Decimal(user) + (['/'] + OutputName(execution));
  }

  lemma {:induction false} DedupKeyText(user: nat, pipeline: nat, dataset: nat, hash: string)
    ensures DedupKey(user, pipeline, dataset, hash) ==
            "exec:" + (Decimal(user) + ":" + (Decimal(pipeline) + ":" + (Decimal(dataset) + ":" + hash)))
  {
  }
}
