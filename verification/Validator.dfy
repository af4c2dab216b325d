/** The step validator: what it makes of a JSON value, and that what it accepts is in a normal
    form it accepts again unchanged. */
module Validator {
  import opened Options
  import opened Results
  import opened Tables
  import Executor

  datatype Json = JNull | JBool(b: bool) | JNum(x: real) | JStr(s: string) | JArr(items: seq<Json>)
                | JObj(fields: map<string, Json>)

  /** What the checks need from Python's text handling: which characters are white space or word
      characters, their lower case, and which strings float() reads as a finite number. */
  datatype Text = Text(space: char -> bool, word: char -> bool, lower: char -> char, number: string -> Option<real>)

  /** Lower-casing is idempotent and does not make or remove white space. */
  ghost predicate Sane(u: Text) {
    forall c :: u.lower(u.lower(c)) == u.lower(c) && (u.space(u.lower(c)) <==> u.space(c))
  }

  const ALLOWED_ACTIONS: set<string> := {
    "drop_nulls", "fill_nulls", "remove_outliers", "normalize", "standardize", "encode_categorical", "filter_rows",
    "select_columns", "drop_columns", "sort_values", "groupby_aggregate", "remove_duplicates", "convert_types"
  }

  const KNOWN_PARAM_KEYS: set<string> := {"columns", "method", "threshold", "order"}

  const ALLOWED_METHODS: map<string, set<string>> := map[
    "fill_nulls" := {"mean", "median", "zero", ""},
    "remove_outliers" := {"iqr", ""},
    "normalize" := {"minmax", ""},
    "standardize" := {"zscore", ""},
    "filter_rows" := {"gt", "lt", "gte", "lte", ""},
    "groupby_aggregate" := {"sum", "mean", "count", ""},
    "convert_types" := {"numeric", "string", ""},
    "sort_values" := {""}
  ]

  const LIMIT := 1000000000000.0
  const MAX_NAME: nat := 200

  // ---- Text ---------------------------------------------------------------------------------------------

  function LeftStrip(u: Text, s: string): (r: string)
    ensures r == s || |r| < |s|
    ensures r == [] || !u.space(r[0])
    ensures forall c :: c in r ==> c in s
    ensures s != [] && !u.space(s[0]) ==> r == s
    ensures s != [] && r != [] ==> r[|r| - 1] == s[|s| - 1]
  {
    if s == [] || !u.space(s[0]) then s else LeftStrip(u, s[1..])
  }

  function RightStrip(u: Text, s: string): (r: string)
    ensures r == [] || !u.space(r[|r| - 1])
    ensures r == [] || (s != [] && r[0] == s[0])
    ensures s == [] || !u.space(s[|s| - 1]) ==> r == s
  {
    if s == [] || !u.space(s[|s| - 1]) then s else RightStrip(u, s[..|s| - 1])
  }

  function Strip(u: Text, s: string): string { RightStrip(u, LeftStrip(u, s)) }

  predicate Stripped(u: Text, s: string) { s == [] || (!u.space(s[0]) && !u.space(s[|s| - 1])) }

  lemma {:induction false} StripStrips(u: Text, s: string)
    ensures Stripped(u, Strip(u, s))
    ensures Stripped(u, s) ==> Strip(u, s) == s
  {
  }

  function Lower(u: Text, s: string): (r: string)
    ensures |r| == |s| && forall i :: 0 <= i < |s| ==> r[i] == u.lower(s[i])
  {
    seq(|s|, i requires 0 <= i < |s| => u.lower(s[i]))
  }

  lemma {:induction false} LowerStripped(u: Text, s: string)
    requires Sane(u)
    ensures Stripped(u, Lower(u, Strip(u, s))) && Lower(u, Lower(u, Strip(u, s))) == Lower(u, Strip(u, s))
  {
    StripStrips(u, s);
  }

  predicate NameChar(u: Text, c: char) { u.word(c) || u.space(c) || c in "-./()" }

  predicate GoodName(u: Text, s: string) { 1 <= |s| <= MAX_NAME && forall c :: c in s ==> NameChar(u, c) }

  // ---- One step -------------------------------------------------------------------------------------------

  datatype ErrorType = SchemaError | UnknownActionError | ParamError

  datatype Reason = NotAnObject | NoAction | UnknownAction | ParamsNotAnObject | UnknownKeys | ColumnsNotAnArray
                  | ColumnsNotStrings | BadName | MethodNotAString | ThresholdOutOfRange | ThresholdNotANumber
                  | OrderNotAString | UnknownOrder

  /** A step that mentions columns the dataset does not have. */
  datatype Warning = Warning(stepIndex: nat, action: string, missing: seq<string>)

  datatype Verdict = Valid(step: Step, warnings: seq<Warning>) | Invalid(errorType: ErrorType, reason: Reason)

  predicate AllStrings(items: seq<Json>) { forall j :: j in items ==> j.JStr? }

  /** The stripped names that are not blank. */
  function Names(u: Text, items: seq<Json>): seq<string>
    requires AllStrings(items)
  {
    if items == [] then []
    else
      var c := Strip(u, items[0].s);
      if c == [] then Names(u, items[1..]) else [c] + Names(u, items[1..])
  }

  function Missing(cols: seq<string>, dataset: seq<string>): seq<string> {
    if cols == [] then []
    else if cols[0] in dataset then Missing(cols[1..], dataset) else [cols[0]] + Missing(cols[1..], dataset)
  }

  function WarningsFor(action: string, cols: seq<string>, dataset: seq<string>, index: nat): seq<Warning> {
    if dataset == [] || Missing(cols, dataset) == [] then [] else [Warning(index, action, Missing(cols, dataset))]
  }

  /** An unknown method of an action with a fixed list is replaced by "". */
  function MethodFor(action: string, m: string): string {
    if action in ALLOWED_METHODS && m !in ALLOWED_METHODS[action] then "" else m
  }

  /** What float() makes of a threshold that is not null. */
  function Number(u: Text, j: Json): Option<real> {
    match j
    case JNum(x) => Some(x)
    case JBool(b) => Some(if b then 1.0 else 0.0)
    case JStr(s) => u.number(s)
    case _ => None
  }

  function Field(fields: map<string, Json>, key: string, absent: Json): Json {
    if key in fields then fields[key] else absent
  }

  /** The parameters, in the order in which they are checked. */
  function ValidateParams(u: Text, action: string, raw: map<string, Json>): Result<Params, Reason> {
    var cols, m, t, o :=
      Field(raw, "columns", JArr([])), Field(raw, "method", JStr("")), Field(raw, "threshold", JNull), Field(raw, "order", JStr(""));
    if !cols.JArr? then Failure(ColumnsNotAnArray)
    else if !AllStrings(cols.items) then Failure(ColumnsNotStrings)
    else if exists c :: c in Names(u, cols.items) && !GoodName(u, c) then Failure(BadName)
    else if !m.JStr? then Failure(MethodNotAString)
    else if !t.JNull? && Number(u, t).None? then Failure(ThresholdNotANumber)
    else if !t.JNull? && !(-LIMIT < Number(u, t).value < LIMIT) then Failure(ThresholdOutOfRange)
    else if !o.JStr? then Failure(OrderNotAString)
    else if Lower(u, Strip(u, o.s)) !in {"", "asc", "desc"} then Failure(UnknownOrder)
    else Success(Params(Some(Names(u, cols.items)), Some(MethodFor(action, Lower(u, Strip(u, m.s)))),
                     if t.JNull? then None else Number(u, t), Some(Lower(u, Strip(u, o.s)))))
  }

  function Validate(u: Text, raw: Json, dataset: seq<string>, index: nat): Verdict {
    if !raw.JObj? then Invalid(SchemaError, NotAnObject)
    else
      var a := Field(raw.fields, "action", JNull);
      if !a.JStr? || Strip(u, a.s) == [] then Invalid(SchemaError, NoAction)
      else if Strip(u, a.s) !in ALLOWED_ACTIONS then Invalid(UnknownActionError, UnknownAction)
      else
        var action, p := Strip(u, a.s), Field(raw.fields, "params", JObj(map[]));
        if !p.JObj? then Invalid(SchemaError, ParamsNotAnObject)
        else if p.fields.Keys - KNOWN_PARAM_KEYS != {} then Invalid(SchemaError, UnknownKeys)
        else
          match ValidateParams(u, action, p.fields)
          case Failure(reason) => Invalid(ParamError, reason)
          case Success(params) => Valid(Step(action, params), WarningsFor(action, params.columns.value, dataset, index))
  }

  method ValidateStep(u: Text, raw: Json, dataset: seq<string>, index: nat) returns (r: Verdict)
    ensures r == Validate(u, raw, dataset, index)
  {
    if !raw.JObj? { return Invalid(SchemaError, NotAnObject); }
    var rawAction := Field(raw.fields, "action", JNull);
    if !rawAction.JStr? || Strip(u, rawAction.s) == [] { return Invalid(SchemaError, NoAction); }
    var action := Strip(u, rawAction.s);
    if action !in ALLOWED_ACTIONS { return Invalid(UnknownActionError, UnknownAction); }
    var rawParams := Field(raw.fields, "params", JObj(map[]));
    if !rawParams.JObj? { return Invalid(SchemaError, ParamsNotAnObject); }
    if rawParams.fields.Keys - KNOWN_PARAM_KEYS != {} { return Invalid(SchemaError, UnknownKeys); }

    var params := Params(None, None, None, None);
    var rawCols := Field(rawParams.fields, "columns", JArr([]));
    if !rawCols.JArr? { return Invalid(ParamError, ColumnsNotAnArray); }
    if !AllStrings(rawCols.items) { return Invalid(ParamError, ColumnsNotStrings); }
    var cols := Names(u, rawCols.items);
    for i := 0 to |cols|
      invariant forall k :: 0 <= k < i ==> GoodName(u, cols[k])
    {
      if !GoodName(u, cols[i]) { return Invalid(ParamError, BadName); }
    }
    params := params.(columns := Some(cols));

    var rawMethod := Field(rawParams.fields, "method", JStr(""));
    if !rawMethod.JStr? { return Invalid(ParamError, MethodNotAString); }
    var m := Lower(u, Strip(u, rawMethod.s));
    if action in ALLOWED_METHODS && m !in ALLOWED_METHODS[action] { m := ""; }
    params := params.(mode := Some(m));

    var rawThreshold := Field(rawParams.fields, "threshold", JNull);
    if !rawThreshold.JNull? {
      var t := Number(u, rawThreshold);
      if t.None? { return Invalid(ParamError, ThresholdNotANumber); }
      if !(-LIMIT < t.value < LIMIT) { return Invalid(ParamError, ThresholdOutOfRange); }
      params := params.(threshold := t);
    }

    var rawOrder := Field(rawParams.fields, "order", JStr(""));
    if !rawOrder.JStr? { return Invalid(ParamError, OrderNotAString); }
    var order := Lower(u, Strip(u, rawOrder.s));
    if order !in {"", "asc", "desc"} { return Invalid(ParamError, UnknownOrder); }
    params := params.(order := Some(order));

    var warnings := [];
    if dataset != [] && cols != [] {
      var missing := Missing(cols, dataset);
      if missing != [] { warnings := [Warning(index, action, missing)]; }
    }
    r := Valid(Step(action, params), warnings);
  }

  // ---- What is wrong with a step, and what is made of a right one ------------------------------------------

  function Item(j: Json, key: string): Option<Json> {
    if j.JObj? && key in j.fields then Some(j.fields[key]) else None
  }

  function Param(raw: Json, key: string): Option<Json> {
    var p := Item(raw, "params");
    if p.Some? then Item(p.value, key) else None
  }

  /** The text of an optional string: nothing if it is absent. */
  function TextOf(j: Option<Json>): string { if j.Some? && j.value.JStr? then j.value.s else "" }

  predicate NotA(j: Option<Json>, ok: Json -> bool) { j.Some? && !ok(j.value) }

  predicate Blank(u: Text, s: string) { forall c :: c in s ==> u.space(c) }

  /** A threshold as a number: a truth value counts as 1 or 0, a string as what it reads as. */
  function NumberOf(u: Text, j: Json): Option<real> {
    if j.JNum? then Some(j.x) else if j.JBool? then Some(if j.b then 1.0 else 0.0) else if j.JStr? then u.number(j.s) else None
  }

  predicate GoodColumn(u: Text, c: string) {
    |c| <= 200 && forall x :: x in c ==> u.word(x) || u.space(x) || x in {'-', '.', '/', '(', ')'}
  }

  /** Each fault a step can have, said of the JSON value. */
  ghost predicate HasFault(u: Text, raw: Json, reason: Reason) {
    var action, columns, threshold := Item(raw, "action"), Param(raw, "columns"), Param(raw, "threshold");
    match reason
    case NotAnObject => !raw.JObj?
    case NoAction => action.None? || !action.value.JStr? || Blank(u, action.value.s)
    case UnknownAction =>
      Strip(u, TextOf(action)) !in {
        "drop_nulls", "fill_nulls", "remove_outliers", "normalize", "standardize", "encode_categorical", "filter_rows",
        "select_columns", "drop_columns", "sort_values", "groupby_aggregate", "remove_duplicates", "convert_types" }
    case ParamsNotAnObject => NotA(Item(raw, "params"), (j: Json) => j.JObj?)
    case UnknownKeys => exists k :: Param(raw, k).Some? && k !in {"columns", "method", "threshold", "order"}
    case ColumnsNotAnArray => NotA(columns, (j: Json) => j.JArr?)
    case ColumnsNotStrings => columns.Some? && columns.value.JArr? && exists j :: j in columns.value.items && !j.JStr?
    case BadName =>
      columns.Some? && columns.value.JArr? &&
      exists j :: j in columns.value.items && j.JStr? && !GoodColumn(u, Strip(u, j.s))
    case MethodNotAString => NotA(Param(raw, "method"), (j: Json) => j.JStr?)
    case ThresholdNotANumber => threshold.Some? && !threshold.value.JNull? && NumberOf(u, threshold.value).None?
    case ThresholdOutOfRange =>
      threshold.Some? && NumberOf(u, threshold.value).Some?
      && (NumberOf(u, threshold.value).value <= -1000000000000.0 || NumberOf(u, threshold.value).value >= 1000000000000.0)
    case OrderNotAString => NotA(Param(raw, "order"), (j: Json) => j.JStr?)
    case UnknownOrder => Lower(u, Strip(u, TextOf(Param(raw, "order")))) !in {"", "asc", "desc"}
  }

  /** The order in which the faults are looked for. */
  function Rank(reason: Reason): nat {
    match reason
    case NotAnObject => 0 case NoAction => 1 case UnknownAction => 2 case ParamsNotAnObject => 3 case UnknownKeys => 4
    case ColumnsNotAnArray => 5 case ColumnsNotStrings => 6 case BadName => 7 case MethodNotAString => 8
    case ThresholdNotANumber => 9 case ThresholdOutOfRange => 10 case OrderNotAString => 11 case UnknownOrder => 12
  }

  function TypeOf(reason: Reason): ErrorType {
    if reason == UnknownAction then UnknownActionError else if Rank(reason) < 5 then SchemaError else ParamError
  }

  lemma {:induction false} BlankStrips(u: Text, s: string)
    ensures Strip(u, s) == [] <==> Blank(u, s)
  {
    BlankLeft(u, s);
    var l := LeftStrip(u, s);
    if l != [] {
      assert l[0] in l && l[0] in s;
      RightKeeps(u, l);
    }
  }

  lemma {:induction false} BlankLeft(u: Text, s: string)
    ensures LeftStrip(u, s) == [] <==> Blank(u, s)
  {
    if s != [] { BlankLeft(u, s[1..]); }
  }

  lemma {:induction false} RightKeeps(u: Text, s: string)
    requires s != [] && !u.space(s[0])
    ensures RightStrip(u, s) != []
  {
    if u.space(s[|s| - 1]) { RightKeeps(u, s[..|s| - 1]); }
  }

  /** Stripping takes white space from both ends and nothing else. */
  lemma {:induction false} StripKeeps(u: Text, s: string) returns (i: nat, j: nat)
    ensures i <= j <= |s| && Strip(u, s) == s[i..j] && Blank(u, s[..i]) && Blank(u, s[j..])
    ensures i < j ==> !u.space(s[i]) && !u.space(s[j - 1])
  {
    i := LeftPart(u, s);
    var l := LeftStrip(u, s);
    var k := RightPart(u, l);
    j := i + k;
    assert s[i..][..k] == s[i..j] && s[i..][k..] == s[j..];
    StripStrips(u, s);
  }

  lemma {:induction false} LeftPart(u: Text, s: string) returns (n: nat)
    ensures n <= |s| && LeftStrip(u, s) == s[n..] && Blank(u, s[..n])
  {
    if s != [] && u.space(s[0]) {
      var m := LeftPart(u, s[1..]);
      n := m + 1;
      assert s[n..] == s[1..][m..] && s[..n] == [s[0]] + s[1..][..m];
    } else {
      n := 0;
    }
  }

  lemma {:induction false} RightPart(u: Text, s: string) returns (n: nat)
    ensures n <= |s| && RightStrip(u, s) == s[..n] && Blank(u, s[n..])
  {
    if s != [] && u.space(s[|s| - 1]) {
      n := RightPart(u, s[..|s| - 1]);
      assert s[n..] == s[..|s| - 1][n..] + [s[|s| - 1]];
    } else {
      n := |s|;
    }
  }

  lemma {:induction false} NamesAre(u: Text, items: seq<Json>)
    requires AllStrings(items)
    ensures forall c :: c in Names(u, items) <==> c != [] && exists j :: j in items && Strip(u, j.s) == c
  {
    if items != [] {
      NamesAre(u, items[1..]);
      assert forall j :: j in items <==> j == items[0] || j in items[1..];
    }
  }

  lemma {:induction false} BadNames(u: Text, items: seq<Json>)
    requires AllStrings(items)
    ensures (exists c :: c in Names(u, items) && !GoodName(u, c)) <==>
            exists j :: j in items && j.JStr? && !GoodColumn(u, Strip(u, j.s))
  {
    NamesAre(u, items);
    if j :| j in items && j.JStr? && !GoodColumn(u, Strip(u, j.s)) {
      assert Strip(u, j.s) in Names(u, items) && !GoodName(u, Strip(u, j.s));
    }
  }

  /** The parameters of a step, none if it has no object of them. */
  function ParamsOf(raw: Json): map<string, Json> {
    var p := Item(raw, "params");
    if p.Some? && p.value.JObj? then p.value.fields else map[]
  }

  lemma {:induction false} ParamIs(raw: Json, key: string)
    ensures Param(raw, key) == if key in ParamsOf(raw) then Some(ParamsOf(raw)[key]) else None
  {
  }

  /** The function `fault` says which faults the step has. */
  ghost predicate Says(fault: Reason -> bool, u: Text, raw: Json) { forall r :: fault(r) <==> HasFault(u, raw, r) }

  lemma {:induction false} ColumnFaults(u: Text, raw: Json, fault: Reason -> bool)
    requires Says(fault, u, raw)
    ensures var cols := Field(ParamsOf(raw), "columns", JArr([]));
            && (fault(ColumnsNotAnArray) <==> !cols.JArr?)
            && (cols.JArr? ==> (fault(ColumnsNotStrings) <==> !AllStrings(cols.items)))
            && (cols.JArr? && AllStrings(cols.items) ==>
                  (fault(BadName) <==> exists c :: c in Names(u, cols.items) && !GoodName(u, c)))
  {
    ParamIs(raw, "columns");
    var cols := Field(ParamsOf(raw), "columns", JArr([]));
    if cols.JArr? && AllStrings(cols.items) { BadNames(u, cols.items); }
  }

  lemma {:induction false} ThresholdFaults(u: Text, raw: Json, fault: Reason -> bool)
    requires Says(fault, u, raw)
    ensures var t := Field(ParamsOf(raw), "threshold", JNull);
            && (fault(ThresholdNotANumber) <==> !t.JNull? && Number(u, t).None?)
            && (!t.JNull? && Number(u, t).Some? ==> (fault(ThresholdOutOfRange) <==> !(-LIMIT < Number(u, t).value < LIMIT)))
            && (t.JNull? ==> !fault(ThresholdOutOfRange))
  {
    ParamIs(raw, "threshold");
  }

  lemma {:induction false} TextFaults(u: Text, raw: Json, fault: Reason -> bool)
    requires Says(fault, u, raw)
    ensures var m, o := Field(ParamsOf(raw), "method", JStr("")), Field(ParamsOf(raw), "order", JStr(""));
            && (fault(MethodNotAString) <==> !m.JStr?) && (fault(OrderNotAString) <==> !o.JStr?)
            && (o.JStr? ==> (fault(UnknownOrder) <==> Lower(u, Strip(u, o.s)) !in {"", "asc", "desc"}))
  {
    ParamIs(raw, "method");
    ParamIs(raw, "order");
  }

  /** Nothing of these ranks is a fault. */
  ghost predicate NoneBetween(fault: Reason -> bool, from: nat, to: nat) {
    forall r :: from <= Rank(r) < to ==> !fault(r)
  }

  lemma {:induction false} EarlyFaults(fault: Reason -> bool)
    ensures NoneBetween(fault, 0, 0)
    ensures !fault(NotAnObject) <==> NoneBetween(fault, 0, 1)
    ensures NoneBetween(fault, 0, 1) && !fault(NoAction) <==> NoneBetween(fault, 0, 2)
    ensures NoneBetween(fault, 0, 2) && !fault(UnknownAction) <==> NoneBetween(fault, 0, 3)
    ensures NoneBetween(fault, 0, 3) && !fault(ParamsNotAnObject) <==> NoneBetween(fault, 0, 4)
    ensures NoneBetween(fault, 0, 4) && !fault(UnknownKeys) <==> NoneBetween(fault, 0, 5)
    ensures forall n :: n >= 5 ==> (NoneBetween(fault, 0, 5) && NoneBetween(fault, 5, n) <==> NoneBetween(fault, 0, n))
  {
  }

  lemma {:induction false} ParamFaults(fault: Reason -> bool)
    ensures NoneBetween(fault, 5, 5)
    ensures !fault(ColumnsNotAnArray) <==> NoneBetween(fault, 5, 6)
    ensures NoneBetween(fault, 5, 6) && !fault(ColumnsNotStrings) <==> NoneBetween(fault, 5, 7)
    ensures NoneBetween(fault, 5, 7) && !fault(BadName) <==> NoneBetween(fault, 5, 8)
    ensures NoneBetween(fault, 5, 8) && !fault(MethodNotAString) <==> NoneBetween(fault, 5, 9)
    ensures NoneBetween(fault, 5, 9) && !fault(ThresholdNotANumber) <==> NoneBetween(fault, 5, 10)
    ensures NoneBetween(fault, 5, 10) && !fault(ThresholdOutOfRange) <==> NoneBetween(fault, 5, 11)
    ensures NoneBetween(fault, 5, 11) && !fault(OrderNotAString) <==> NoneBetween(fault, 5, 12)
    ensures NoneBetween(fault, 5, 12) && !fault(UnknownOrder) <==> NoneBetween(fault, 5, 13)
  {
  }

  /** The verdict on the parameters. */
  ghost predicate ParamsVerdict(fault: Reason -> bool, v: Result<Params, Reason>) {
    match v
    case Failure(reason) => Rank(reason) >= 5 && fault(reason) && NoneBetween(fault, 5, Rank(reason))
    case Success(_) => NoneBetween(fault, 5, 13)
  }

  lemma {:induction false} FirstParamFault(u: Text, action: string, raw: Json, fault: Reason -> bool)
    requires Says(fault, u, raw)
    ensures ParamsVerdict(fault, ValidateParams(u, action, ParamsOf(raw)))
  {
    ColumnFaults(u, raw, fault);
    ThresholdFaults(u, raw, fault);
    TextFaults(u, raw, fault);
    PickParamFault(u, action, ParamsOf(raw), fault);
  }

  lemma {:induction false} PickParamFault(u: Text, action: string, fields: map<string, Json>, fault: Reason -> bool)
    requires var cols := Field(fields, "columns", JArr([]));
             && (fault(ColumnsNotAnArray) <==> !cols.JArr?)
             && (cols.JArr? ==> (fault(ColumnsNotStrings) <==> !AllStrings(cols.items)))
             && (cols.JArr? && AllStrings(cols.items) ==>
                   (fault(BadName) <==> exists c :: c in Names(u, cols.items) && !GoodName(u, c)))
    requires var t := Field(fields, "threshold", JNull);
             && (fault(ThresholdNotANumber) <==> !t.JNull? && Number(u, t).None?)
             && (!t.JNull? && Number(u, t).Some? ==> (fault(ThresholdOutOfRange) <==> !(-LIMIT < Number(u, t).value < LIMIT)))
             && (t.JNull? ==> !fault(ThresholdOutOfRange))
    requires var m, o := Field(fields, "method", JStr("")), Field(fields, "order", JStr(""));
             && (fault(MethodNotAString) <==> !m.JStr?) && (fault(OrderNotAString) <==> !o.JStr?)
             && (o.JStr? ==> (fault(UnknownOrder) <==> Lower(u, Strip(u, o.s)) !in {"", "asc", "desc"}))
    ensures ParamsVerdict(fault, ValidateParams(u, action, fields))
  {
    var cols, t := Field(fields, "columns", JArr([])), Field(fields, "threshold", JNull);
    var m, o := Field(fields, "method", JStr("")), Field(fields, "order", JStr(""));
    var text := cols.JArr? && AllStrings(cols.items);
    PickedIsFirst(fault, !cols.JArr?, cols.JArr? && !text, text && exists c :: c in Names(u, cols.items) && !GoodName(u, c),
                  !m.JStr?, !t.JNull? && Number(u, t).None?,
                  !t.JNull? && Number(u, t).Some? && !(-LIMIT < Number(u, t).value < LIMIT),
                  !o.JStr?, o.JStr? && Lower(u, Strip(u, o.s)) !in {"", "asc", "desc"});
  }

  /** The first of the parameters' faults that is there. */
  function Picked(a: bool, b: bool, c: bool, d: bool, e: bool, f: bool, g: bool, h: bool): Option<Reason> {
    if a then Some(ColumnsNotAnArray) else if b then Some(ColumnsNotStrings) else if c then Some(BadName)
    else if d then Some(MethodNotAString) else if e then Some(ThresholdNotANumber) else if f then Some(ThresholdOutOfRange)
    else if g then Some(OrderNotAString) else if h then Some(UnknownOrder) else None
  }

  lemma {:induction false} PickedIsFirst(fault: Reason -> bool, a: bool, b: bool, c: bool, d: bool, e: bool, f: bool, g: bool, h: bool)
    requires (fault(ColumnsNotAnArray) <==> a) && (a || (fault(ColumnsNotStrings) <==> b)) && (a || b || (fault(BadName) <==> c))
    requires (fault(MethodNotAString) <==> d) && (fault(ThresholdNotANumber) <==> e) && (e || (fault(ThresholdOutOfRange) <==> f))
    requires (fault(OrderNotAString) <==> g) && (g || (fault(UnknownOrder) <==> h))
    ensures match Picked(a, b, c, d, e, f, g, h)
            case Some(reason) => Rank(reason) >= 5 && fault(reason) && NoneBetween(fault, 5, Rank(reason))
            case None => NoneBetween(fault, 5, 13)
  {
    ParamFaults(fault);
  }

  /** The faults of the step before its parameters. */
  lemma {:induction false} StepFaults(u: Text, raw: Json, fault: Reason -> bool)
    requires Says(fault, u, raw)
    ensures fault(NotAnObject) <==> !raw.JObj?
    ensures raw.JObj? ==>
              var a, p := Field(raw.fields, "action", JNull), Field(raw.fields, "params", JObj(map[]));
              && (fault(NoAction) <==> !a.JStr? || Strip(u, a.s) == [])
              && (a.JStr? ==> (fault(UnknownAction) <==> Strip(u, a.s) !in ALLOWED_ACTIONS))
              && (fault(ParamsNotAnObject) <==> !p.JObj?)
              && (p.JObj? ==> p.fields == ParamsOf(raw))
  {
    var a := Item(raw, "action");
    if a.Some? && a.value.JStr? { BlankStrips(u, a.value.s); }
  }

  lemma {:induction false} KeyFaults(u: Text, raw: Json, fault: Reason -> bool)
    requires Says(fault, u, raw)
    ensures fault(UnknownKeys) <==> ParamsOf(raw).Keys - KNOWN_PARAM_KEYS != {}
  {
    var extra := ParamsOf(raw).Keys - KNOWN_PARAM_KEYS;
    forall k ensures Param(raw, k).Some? && k !in {"columns", "method", "threshold", "order"} <==> k in extra { ParamIs(raw, k); }
    if extra != {} {
      var k :| k in extra;
      assert Param(raw, k).Some?;
    }
  }

  /** Accepted without a fault (there are thirteen), or rejected for the first one. */
  ghost predicate StepVerdict(fault: Reason -> bool, v: Verdict) {
    match v
    case Valid(_, _) => NoneBetween(fault, 0, 13)
    case Invalid(errorType, reason) => fault(reason) && errorType == TypeOf(reason) && NoneBetween(fault, 0, Rank(reason))
  }

  lemma {:induction false} PickStepFault(u: Text, raw: Json, dataset: seq<string>, index: nat, fault: Reason -> bool)
    requires fault(NotAnObject) <==> !raw.JObj?
    requires raw.JObj? ==>
               var a, p := Field(raw.fields, "action", JNull), Field(raw.fields, "params", JObj(map[]));
               && (fault(NoAction) <==> !a.JStr? || Strip(u, a.s) == [])
               && (a.JStr? ==> (fault(UnknownAction) <==> Strip(u, a.s) !in ALLOWED_ACTIONS))
               && (fault(ParamsNotAnObject) <==> !p.JObj?)
               && (p.JObj? ==> (fault(UnknownKeys) <==> p.fields.Keys - KNOWN_PARAM_KEYS != {}))
               && (p.JObj? && a.JStr? ==> ParamsVerdict(fault, ValidateParams(u, Strip(u, a.s), p.fields)))
    ensures StepVerdict(fault, Validate(u, raw, dataset, index))
  {
    EarlyFaults(fault);
  }

  lemma {:induction false} FirstStepFault(u: Text, raw: Json, dataset: seq<string>, index: nat, fault: Reason -> bool)
    requires Says(fault, u, raw)
    ensures StepVerdict(fault, Validate(u, raw, dataset, index))
  {
    StepFaults(u, raw, fault);
    KeyFaults(u, raw, fault);
    FirstParamFault(u, Strip(u, TextOf(Item(raw, "action"))), raw, fault);
    PickStepFault(u, raw, dataset, index, fault);
  }

  /** A step is accepted if and only if it has no fault; a rejection names the first one. */
  lemma {:induction false} RejectedForTheFirstFault(u: Text, raw: Json, dataset: seq<string>, index: nat)
    ensures StepVerdict((r: Reason) => HasFault(u, raw, r), Validate(u, raw, dataset, index))
  {
    FirstStepFault(u, raw, dataset, index, (r: Reason) => HasFault(u, raw, r));
  }

  /** The methods an action knows; an action without a list takes any. */
  predicate Knows(action: string, m: string) {
    match action
    case "fill_nulls" => m in {"mean", "median", "zero", ""}
    case "remove_outliers" => m in {"iqr", ""}
    case "normalize" => m in {"minmax", ""}
    case "standardize" => m in {"zscore", ""}
    case "filter_rows" => m in {"gt", "lt", "gte", "lte", ""}
    case "groupby_aggregate" => m in {"sum", "mean", "count", ""}
    case "convert_types" => m in {"numeric", "string", ""}
    case "sort_values" => m == ""
    case _ => true
  }

  /** What an accepted step contains: the stripped action and columns, the stripped lower-case method
      if the action knows it and none otherwise, the threshold as a number, and the order. A warning
      is given if the dataset is known and lacks some of the columns, and lists these. */
  lemma {:induction false} AcceptedStepIs(u: Text, raw: Json, dataset: seq<string>, index: nat)
    requires Validate(u, raw, dataset, index).Valid?
    ensures var v := Validate(u, raw, dataset, index);
            var action, m := Strip(u, TextOf(Item(raw, "action"))), Lower(u, Strip(u, TextOf(Param(raw, "method"))));
            var columns, threshold := Param(raw, "columns"), Param(raw, "threshold");
            && v.step.action == action
            && (columns.None? ==> v.step.params.columns == Some([]))
            && (columns.Some? ==> columns.value.JArr? && AllStrings(columns.value.items)
                                  && v.step.params.columns == Some(Names(u, columns.value.items)))
            && v.step.params.mode == Some(if Knows(action, m) then m else "")
            && v.step.params.threshold == (if threshold.None? then None else NumberOf(u, threshold.value))
            && v.step.params.order == Some(Lower(u, Strip(u, TextOf(Param(raw, "order")))))
            && v.warnings == (var missing := Missing(v.step.params.columns.value, dataset);
                              if dataset == [] || missing == [] then [] else [Warning(index, action, missing)])
  {
    ParamIs(raw, "columns");
    ParamIs(raw, "method");
    ParamIs(raw, "threshold");
    ParamIs(raw, "order");
    AcceptedParamsAre(u, Strip(u, TextOf(Item(raw, "action"))), ParamsOf(raw));
  }

  lemma {:induction false} KnownMethod(action: string, m: string)
    ensures MethodFor(action, m) == if Knows(action, m) then m else ""
  {
  }

  lemma {:induction false} AcceptedParamsAre(u: Text, action: string, fields: map<string, Json>)
    requires ValidateParams(u, action, fields).Success?
    ensures var params, cols := ValidateParams(u, action, fields).value, Field(fields, "columns", JArr([]));
            && cols.JArr? && AllStrings(cols.items) && params.columns == Some(Names(u, cols.items))
            && Field(fields, "method", JStr("")).JStr? && Field(fields, "order", JStr("")).JStr?
            && (var m := Lower(u, Strip(u, Field(fields, "method", JStr("")).s));
                params.mode == Some(if Knows(action, m) then m else ""))
            && params.threshold == NumberOf(u, Field(fields, "threshold", JNull))
            && params.order == Some(Lower(u, Strip(u, Field(fields, "order", JStr("")).s)))
  {
    KnownMethod(action, Lower(u, Strip(u, Field(fields, "method", JStr("")).s)));
  }

  /** Names are stripped one by one, blank ones left out; missing columns are looked up one by one. */
  lemma {:induction false} NamesOneMore(u: Text, items: seq<Json>, s: string)
    requires AllStrings(items)
    ensures Names(u, []) == []
    ensures Names(u, items + [JStr(s)]) == Names(u, items) + if Blank(u, s) then [] else [Strip(u, s)]
  {
    BlankStrips(u, s);
    if items == [] {
      assert [JStr(s)][1..] == [];
    } else {
      assert (items + [JStr(s)])[1..] == items[1..] + [JStr(s)];
      NamesOneMore(u, items[1..], s);
    }
  }

  lemma {:induction false} MissingOneMore(cols: seq<string>, c: string, dataset: seq<string>)
    ensures Missing([], dataset) == []
    ensures Missing(cols + [c], dataset) == Missing(cols, dataset) + if c in dataset then [] else [c]
  {
    if cols == [] {
      assert [c][1..] == [];
    } else {
      assert (cols + [c])[1..] == cols[1..] + [c];
      MissingOneMore(cols[1..], c, dataset);
    }
  }

  // ---- The normal form ------------------------------------------------------------------------------------

  function Strings(cols: seq<string>): (r: seq<Json>)
    ensures AllStrings(r)
  {
    if cols == [] then [] else [JStr(cols[0])] + Strings(cols[1..])
  }

  /** A step as it is stored. */
  function ToJson(s: Step): Json {
    JObj(map["action" := JStr(s.action),
             "params" := JObj(map["columns" := JArr(Strings(ColumnsOf(s.params))),
                                  "method" := JStr(OrEmpty(s.params.mode)),
                                  "threshold" := if s.params.threshold.Some? then JNum(s.params.threshold.value) else JNull,
                                  "order" := JStr(OrEmpty(s.params.order))])])
  }

  function OrEmpty(s: Option<string>): string { if s.Some? then s.value else "" }

  predicate Complete(p: Params) { p.columns.Some? && p.mode.Some? && p.order.Some? }

  predicate Normalized(u: Text, s: string) { Stripped(u, s) && Lower(u, s) == s }

  predicate NormalColumns(u: Text, cols: seq<string>) {
    forall c :: c in cols ==> Stripped(u, c) && GoodName(u, c)
  }

  /** What accepted steps look like. */
  predicate Normal(u: Text, s: Step) {
    && s.action in ALLOWED_ACTIONS && Stripped(u, s.action) && Complete(s.params)
    && NormalColumns(u, s.params.columns.value)
    && Normalized(u, s.params.mode.value)
    && (s.action in ALLOWED_METHODS ==> s.params.mode.value in ALLOWED_METHODS[s.action])
    && (s.params.threshold.Some? ==> -LIMIT < s.params.threshold.value < LIMIT)
    && Normalized(u, s.params.order.value) && s.params.order.value in {"", "asc", "desc"}
  }

  lemma {:induction false} NamesAreStripped(u: Text, items: seq<Json>)
    requires AllStrings(items)
    ensures forall c :: c in Names(u, items) ==> c != [] && Stripped(u, c)
  {
    if items != [] {
      StripStrips(u, items[0].s);
      NamesAreStripped(u, items[1..]);
    }
  }

  lemma {:induction false} NamesOfStrings(u: Text, cols: seq<string>)
    requires NormalColumns(u, cols)
    ensures Names(u, Strings(cols)) == cols
  {
    if cols != [] {
      StripStrips(u, cols[0]);
      assert cols[0] in cols && forall c :: c in cols[1..] ==> c in cols;
      NamesOfStrings(u, cols[1..]);
      assert Strings(cols)[1..] == Strings(cols[1..]);
    }
  }

  lemma {:induction false} MethodForIsNormal(u: Text, action: string, raw: string)
    requires Sane(u)
    ensures var m := MethodFor(action, Lower(u, Strip(u, raw)));
            Normalized(u, m) && (action in ALLOWED_METHODS ==> m in ALLOWED_METHODS[action])
  {
    LowerStripped(u, raw);
    assert forall a :: a in ALLOWED_METHODS ==> "" in ALLOWED_METHODS[a];
    assert Lower(u, "") == "";
  }

  lemma {:induction false} GoodParamsAreNormal(u: Text, action: string, raw: map<string, Json>)
    requires Sane(u) && ValidateParams(u, action, raw).Success? && action in ALLOWED_ACTIONS && Stripped(u, action)
    ensures Normal(u, Step(action, ValidateParams(u, action, raw).value))
  {
    NamesAreStripped(u, Field(raw, "columns", JArr([])).items);
    MethodForIsNormal(u, action, Field(raw, "method", JStr("")).s);
    LowerStripped(u, Field(raw, "order", JStr("")).s);
  }

  /** Whatever the input, an accepted step is in normal form. */
  lemma {:induction false} AcceptedIsNormal(u: Text, raw: Json, dataset: seq<string>, index: nat)
    requires Sane(u) && Validate(u, raw, dataset, index).Valid?
    ensures Normal(u, Validate(u, raw, dataset, index).step)
  {
    var action := Strip(u, Field(raw.fields, "action", JNull).s);
    StripStrips(u, Field(raw.fields, "action", JNull).s);
    GoodParamsAreNormal(u, action, Field(raw.fields, "params", JObj(map[])).fields);
  }

  lemma {:induction false} NormalParamsStay(u: Text, s: Step)
    requires Normal(u, s)
    ensures ValidateParams(u, s.action, ToJson(s).fields["params"].fields) == Success(s.params)
  {
    var raw := ToJson(s).fields["params"].fields;
    NamesOfStrings(u, s.params.columns.value);
    StripStrips(u, s.params.mode.value);
    StripStrips(u, s.params.order.value);
    assert Field(raw, "columns", JArr([])) == JArr(Strings(s.params.columns.value));
  }

  /** A step in normal form, stored and validated again, is accepted as it is. */
  lemma {:induction false} NormalIsKept(u: Text, s: Step, dataset: seq<string>, index: nat)
    requires Normal(u, s)
    ensures Validate(u, ToJson(s), dataset, index) ==
            Valid(s, WarningsFor(s.action, s.params.columns.value, dataset, index))
  {
    NormalParamsStay(u, s);
    StripStrips(u, s.action);
    assert s.action != "";
    assert ToJson(s).fields["params"].fields.Keys - KNOWN_PARAM_KEYS == {};
  }

  /** The accepted steps are exactly the steps in normal form, so validating what was accepted
      changes nothing: not the step, and not its warnings. */
  lemma {:induction false} ValidationIsIdempotent(u: Text, raw: Json, dataset: seq<string>, index: nat)
    requires Sane(u) && Validate(u, raw, dataset, index).Valid?
    ensures Normal(u, Validate(u, raw, dataset, index).step)
    ensures Validate(u, ToJson(Validate(u, raw, dataset, index).step), dataset, index) == Validate(u, raw, dataset, index)
  {
    AcceptedIsNormal(u, raw, dataset, index);
    NormalIsKept(u, Validate(u, raw, dataset, index).step, dataset, index);
  }

  // ---- Lists of steps ---------------------------------------------------------------------------------------

  datatype Rejection = Rejection(raw: Json, reason: Reason)

  datatype Sorted = Sorted(steps: seq<Step>, rejected: seq<Rejection>, warnings: seq<Warning>)

  /** The verdicts on a list. */
  function Verdicts(u: Text, items: seq<Json>, dataset: seq<string>): (vs: seq<Verdict>)
    ensures |vs| == |items| && forall i :: 0 <= i < |items| ==> vs[i] == Validate(u, items[i], dataset, i)
  {
    seq(|items|, i requires 0 <= i < |items| => Validate(u, items[i], dataset, i))
  }

  /** What is accepted and what is rejected, each in the order of the list. */
  function SortOut(items: seq<Json>, vs: seq<Verdict>): Sorted
    requires |items| == |vs|
  {
    if items == [] then Sorted([], [], [])
    else
      var n := |items| - 1;
      var before := SortOut(items[..n], vs[..n]);
      match vs[n]
      case Valid(step, warnings) => Sorted(before.steps + [step], before.rejected, before.warnings + warnings)
      case Invalid(_, reason) => before.(rejected := before.rejected + [Rejection(items[n], reason)])
  }

  function AiOutput(u: Text, parsed: Json, dataset: seq<string>): Sorted {
    if !parsed.JObj? || !Field(parsed.fields, "steps", JNull).JArr? then Sorted([], [Rejection(parsed, NotAnObject)], [])
    else
      var items := parsed.fields["steps"].items;
      SortOut(items, Verdicts(u, items, dataset))
  }

  method ValidateAiOutput(u: Text, parsed: Json, dataset: seq<string>) returns (r: Sorted)
    ensures r == AiOutput(u, parsed, dataset)
  {
    if !parsed.JObj? || !Field(parsed.fields, "steps", JNull).JArr? {
      return Sorted([], [Rejection(parsed, NotAnObject)], []);
    }
    var raws := parsed.fields["steps"].items;
    ghost var vs := Verdicts(u, raws, dataset);
    var steps, rejected, warnings := [], [], [];
    for i := 0 to |raws|
      invariant SortOut(raws[..i], vs[..i]) == Sorted(steps, rejected, warnings)
    {
      var result := ValidateStep(u, raws[i], dataset, i);
      SortedSoFar(raws, vs, i);
      if result.Valid? {
        steps := steps + [result.step];
        warnings := warnings + result.warnings;
      } else {
        rejected := rejected + [Rejection(raws[i], result.reason)];
      }
    }
    assert raws[..|raws|] == raws && vs[..|raws|] == vs;
    r := Sorted(steps, rejected, warnings);
  }

  datatype HardError = HardError(errorType: ErrorType, reason: Reason, step: nat)

  /** The hard errors of a list of stored steps. */
  function Errors(vs: seq<Verdict>): seq<HardError> {
    if vs == [] then []
    else
      var n := |vs| - 1;
      match vs[n]
      case Valid(_, _) => Errors(vs[..n])
      case Invalid(errorType, reason) => Errors(vs[..n]) + [HardError(errorType, reason, n)]
  }

  lemma {:induction false} ErrorsOfInvalid(vs: seq<Verdict>)
    ensures Errors(vs) != [] <==> exists v :: v in vs && v.Invalid?
  {
    if vs != [] {
      var n := |vs| - 1;
      ErrorsOfInvalid(vs[..n]);
      assert vs == vs[..n] + [vs[n]];
    }
  }

  method ValidatePipelineSteps(u: Text, items: seq<Json>, dataset: seq<string>)
    returns (hasHardErrors: bool, errors: seq<HardError>, warnings: seq<Warning>)
    ensures errors == Errors(Verdicts(u, items, dataset))
    ensures warnings == SortOut(items, Verdicts(u, items, dataset)).warnings
    ensures hasHardErrors <==> exists v :: v in Verdicts(u, items, dataset) && v.Invalid?
  {
    errors, warnings := [], [];
    ghost var vs := Verdicts(u, items, dataset);
    for i := 0 to |items|
      invariant errors == Errors(vs[..i]) && warnings == SortOut(items[..i], vs[..i]).warnings
    {
      var result := ValidateStep(u, items[i], dataset, i);
      SortedSoFar(items, vs, i);
      if result.Invalid? {
        errors := errors + [HardError(result.errorType, result.reason, i)];
      } else {
        warnings := warnings + result.warnings;
      }
    }
    assert items[..|items|] == items && vs[..|items|] == vs;
    ErrorsOfInvalid(vs);
    hasHardErrors := errors != [];
  }

  /** Every element of the list ends up as a step or as a rejection, and the steps are the
      accepted ones. */
  lemma {:induction false} NothingIsDropped(items: seq<Json>, vs: seq<Verdict>)
    requires |items| == |vs|
    ensures var r := SortOut(items, vs);
            && |r.steps| + |r.rejected| == |items|
            && (forall s :: s in r.steps <==> exists v :: v in vs && v.Valid? && v.step == s)
            && (forall q :: q in r.rejected ==> q.raw in items)
  {
    if items != [] {
      var n := |items| - 1;
      NothingIsDropped(items[..n], vs[..n]);
      assert vs == vs[..n] + [vs[n]] && items == items[..n] + [items[n]];
    }
  }

  /** Lists are sorted out element by element, in order: an accepted step and its warnings are added
      to those before, a rejected element with its reason; and likewise the hard errors, with their
      position. */
  lemma {:induction false} SortedOneByOne(items: seq<Json>, vs: seq<Verdict>, j: Json, v: Verdict)
    requires |items| == |vs|
    ensures SortOut([], []) == Sorted([], [], []) && Errors([]) == []
    ensures var before, after := SortOut(items, vs), SortOut(items + [j], vs + [v]);
            match v
            case Valid(step, warnings) =>
              && after == Sorted(before.steps + [step], before.rejected, before.warnings + warnings)
              && Errors(vs + [v]) == Errors(vs)
            case Invalid(errorType, reason) =>
              && after == Sorted(before.steps, before.rejected + [Rejection(j, reason)], before.warnings)
              && Errors(vs + [v]) == Errors(vs) + [HardError(errorType, reason, |vs|)]
  {
    assert (items + [j])[..|items|] == items && (vs + [v])[..|vs|] == vs;
  }

  lemma {:induction false} SortedSoFar(items: seq<Json>, vs: seq<Verdict>, i: nat)
    requires |items| == |vs| && i < |vs|
    ensures var before, after := SortOut(items[..i], vs[..i]), SortOut(items[..i + 1], vs[..i + 1]);
            match vs[i]
            case Valid(step, warnings) =>
              && after == Sorted(before.steps + [step], before.rejected, before.warnings + warnings)
              && Errors(vs[..i + 1]) == Errors(vs[..i])
            case Invalid(errorType, reason) =>
              && after == Sorted(before.steps, before.rejected + [Rejection(items[i], reason)], before.warnings)
              && Errors(vs[..i + 1]) == Errors(vs[..i]) + [HardError(errorType, reason, i)]
  {
    SortedOneByOne(items[..i], vs[..i], items[i], vs[i]);
    assert items[..i + 1] == items[..i] + [items[i]] && vs[..i + 1] == vs[..i] + [vs[i]];
  }

  /** An AI answer is sorted out if it is an object with a list of steps, and rejected as a whole
      otherwise. */
  lemma {:induction false} AiOutputIs(u: Text, parsed: Json, dataset: seq<string>)
    ensures var steps := Item(parsed, "steps");
            AiOutput(u, parsed, dataset) ==
            if steps.Some? && steps.value.JArr? then SortOut(steps.value.items, Verdicts(u, steps.value.items, dataset))
            else Sorted([], [Rejection(parsed, NotAnObject)], [])
  {
  }

  function Stored(steps: seq<Step>): (r: seq<Json>)
    ensures |r| == |steps| && forall i :: 0 <= i < |steps| ==> r[i] == ToJson(steps[i])
  {
    seq(|steps|, i requires 0 <= i < |steps| => ToJson(steps[i]))
  }

  lemma {:induction false} AcceptedPass(items: seq<Json>, vs: seq<Verdict>, steps: seq<Step>)
    requires |items| == |vs| == |steps| && forall i :: 0 <= i < |vs| ==> vs[i].Valid? && vs[i].step == steps[i]
    ensures Errors(vs) == [] && SortOut(items, vs).steps == steps
  {
    if vs != [] {
      var n := |vs| - 1;
      AcceptedPass(items[..n], vs[..n], steps[..n]);
      assert steps == steps[..n] + [steps[n]];
    }
  }

  lemma {:induction false} AiStepsAreNormal(u: Text, parsed: Json, dataset: seq<string>)
    requires Sane(u)
    ensures forall s :: s in AiOutput(u, parsed, dataset).steps ==> Normal(u, s)
  {
    if parsed.JObj? && Field(parsed.fields, "steps", JNull).JArr? {
      var items := parsed.fields["steps"].items;
      var vs := Verdicts(u, items, dataset);
      NothingIsDropped(items, vs);
      forall s | s in SortOut(items, vs).steps ensures Normal(u, s) {
        var v :| v in vs && v.Valid? && v.step == s;
        var i :| 0 <= i < |vs| && vs[i] == v;
        AcceptedIsNormal(u, items[i], dataset, i);
      }
    }
  }

  /** The steps taken from an AI answer pass the check before execution without a hard error and
      come out of it unchanged, whatever dataset they are then checked against. */
  lemma {:induction false} AiStepsCanBeExecuted(u: Text, parsed: Json, dataset: seq<string>, later: seq<string>)
    requires Sane(u)
    ensures forall s :: s in AiOutput(u, parsed, dataset).steps ==> Normal(u, s)
    ensures var steps := AiOutput(u, parsed, dataset).steps;
            var vs := Verdicts(u, Stored(steps), later);
            Errors(vs) == [] && SortOut(Stored(steps), vs).steps == steps
  {
    AiStepsAreNormal(u, parsed, dataset);
    var steps := AiOutput(u, parsed, dataset).steps;
    var vs := Verdicts(u, Stored(steps), later);
    forall i | 0 <= i < |vs| ensures vs[i].Valid? && vs[i].step == steps[i] {
      assert steps[i] in steps;
      NormalIsKept(u, steps[i], later, i);
    }
    AcceptedPass(Stored(steps), vs, steps);
  }

  /** A run of accepted steps never meets an unknown action: a step can only fail by raising. */
  lemma {:induction false} AcceptedStepsAreKnown(u: Text, reg: Executor.Registry, steps: seq<Step>, index: nat, t: Table)
    requires reg.Keys == ALLOWED_ACTIONS && forall s :: s in steps ==> Normal(u, s)
    ensures forall e :: e in Executor.Fold(reg, steps, index, t).log ==> !e.status.UnknownAction?
  {
    if steps != [] {
      assert steps[0] in steps;
      AcceptedStepsAreKnown(u, reg, steps[1..], index + 1, Executor.After(reg, steps[0], t));
    }
  }
}
