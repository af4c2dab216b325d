/** The pipeline editor's store: name and steps with an undo/redo history of bounded length. */
module PipelineStore {
  import opened Sequences

  const HISTORY_LIMIT := 50

  /** A step of the pipeline; reading past the end of a list gives `Undefined`. */
  datatype Item<T> = Undefined | Item(value: T)

  datatype Snapshot<T> = Snapshot(name: string, steps: seq<Item<T>>)

  /** `past` and `future` have the nearest state first. */
  datatype Editor<T> = Editor(name: string, steps: seq<Item<T>>, past: seq<Snapshot<T>>, future: seq<Snapshot<T>>)
  {
    function Current(): Snapshot<T> { Snapshot(name, steps) }
  }

  function Initial<T>(): Editor<T> { Editor("Untitled Pipeline", [], [], []) }

  datatype Command<T> = SetName(name: string) | SetSteps(steps: seq<Item<T>>) | AddSteps(more: seq<Item<T>>)
                      | RemoveStep(index: int) | MoveStep(from: int, to: int) | Undo | Redo | Reset

  // ---- List operations ----------------------------------------------------------------------------------

  /** filter((_, i) => i !== index) */
  function Filtered<X>(s: seq<X>, index: int): seq<X> {
    if 0 <= index < |s| then s[..index] + s[index + 1..] else s
  }

  /** Where splice starts: negative positions count from the end, all are clamped. */
  function SpliceStart(length: nat, index: int): nat {
    if index < 0 then if length + index < 0 then 0 else length + index
    else if index > length then length else index
  }

  function Moved<T>(s: seq<Item<T>>, from: int, to: int): seq<Item<T>> {
    var p := SpliceStart(|s|, from);
    var rest := Filtered(s, p);
    Inserted(rest, SpliceStart(|rest|, to), if p < |s| then s[p] else Undefined)
  }

  // ---- The specification ----------------------------------------------------------------------------------

  /** An editor with this history limit; None is an unlimited one. */
  datatype Limit = Unlimited | Limited(n: nat)

  function Trim<X>(limit: Limit, s: seq<X>): seq<X> {
    if limit.Limited? then Slice(s, limit.n) else s
  }

  function Edit<T>(limit: Limit, e: Editor<T>, name: string, steps: seq<Item<T>>): Editor<T> {
    Editor(name, steps, Trim(limit, [e.Current()] + e.past), [])
  }

  function Apply<T>(limit: Limit, e: Editor<T>, c: Command<T>): Editor<T> {
    match c
    case SetName(name) => Edit(limit, e, name, e.steps)
    case SetSteps(steps) => Edit(limit, e, e.name, steps)
    case AddSteps(more) => Edit(limit, e, e.name, e.steps + more)
    case RemoveStep(index) => Edit(limit, e, e.name, Filtered(e.steps, index))
    case MoveStep(from, to) => Edit(limit, e, e.name, Moved(e.steps, from, to))
    case Undo =>
      if e.past == [] then e
      else Editor(e.past[0].name, e.past[0].steps, e.past[1..], Trim(limit, [e.Current()] + e.future))
    case Redo =>
      if e.future == [] then e
      else Editor(e.future[0].name, e.future[0].steps, Trim(limit, [e.Current()] + e.past), e.future[1..])
    case Reset => Initial()
  }

  const BOUND := Limited(HISTORY_LIMIT)

  function ApplyAll<T>(limit: Limit, e: Editor<T>, cs: seq<Command<T>>): Editor<T>
    decreases |cs|
  {
    if cs == [] then e else ApplyAll(limit, Apply(limit, e, cs[0]), cs[1..])
  }

  /** The store itself. */
  class Store<T> {
    var name: string
    var steps: seq<Item<T>>
    var past: seq<Snapshot<T>>
    var future: seq<Snapshot<T>>

    ghost function State(): Editor<T>
      reads this
    {
      Editor(name, steps, past, future)
    }

    constructor ()
      ensures State() == Initial()
    {
      name, steps, past, future := "Untitled Pipeline", [], [], [];
    }

    method SetName(newName: string)
      modifies this
      ensures State() == Apply(BOUND, old(State()), Command.SetName(newName))
    {
      var oldName := name;
      name := newName;
      past := Slice([Snapshot(oldName, steps)] + past, HISTORY_LIMIT);
      future := [];
    }

    method SetSteps(newSteps: seq<Item<T>>)
      modifies this
      ensures State() == Apply(BOUND, old(State()), Command.SetSteps(newSteps))
    {
      var oldSteps := steps;
      steps := newSteps;
      past := Slice([Snapshot(name, oldSteps)] + past, HISTORY_LIMIT);
      future := [];
    }

    method AddSteps(newSteps: seq<Item<T>>)
      modifies this
      ensures State() == Apply(BOUND, old(State()), Command.AddSteps(newSteps))
    {
      var oldSteps := steps;
      steps := steps + newSteps;
      past := Slice([Snapshot(name, oldSteps)] + past, HISTORY_LIMIT);
      future := [];
    }

    method RemoveStep(index: int)
      modifies this
      ensures State() == Apply(BOUND, old(State()), Command.RemoveStep(index))
    {
      var oldSteps := steps;
      steps := Filtered(steps, index);
      past := Slice([Snapshot(name, oldSteps)] + past, HISTORY_LIMIT);
      future := [];
    }

    method MoveStep(from: int, to: int)
      modifies this
      ensures State() == Apply(BOUND, old(State()), Command.MoveStep(from, to))
    {
      var oldSteps := steps;
      var copy := steps;
      var p := SpliceStart(|copy|, from);
      var moved := Undefined;
      if p < |copy| {
        moved := copy[p];
        copy := copy[..p] + copy[p + 1..];
      }
      var q := SpliceStart(|copy|, to);
      copy := copy[..q] + [moved] + copy[q..];
      steps := copy;
      past := Slice([Snapshot(name, oldSteps)] + past, HISTORY_LIMIT);
      future := [];
    }

    method Undo()
      modifies this
      ensures State() == Apply(BOUND, old(State()), Command.Undo)
    {
      if |past| == 0 { return; }
      var previous, newPast := past[0], past[1..];
      future := Slice([Snapshot(name, steps)] + future, HISTORY_LIMIT);
      name, steps, past := previous.name, previous.steps, newPast;
    }

    method Redo()
      modifies this
      ensures State() == Apply(BOUND, old(State()), Command.Redo)
    {
      if |future| == 0 { return; }
      var next, newFuture := future[0], future[1..];
      past := Slice([Snapshot(name, steps)] + past, HISTORY_LIMIT);
      name, steps, future := next.name, next.steps, newFuture;
    }

    method Reset()
      modifies this
      ensures State() == Apply(BOUND, old(State()), Command.Reset)
    {
      name, steps, past, future := "Untitled Pipeline", [], [], [];
    }
  }

  // ---- What each command does to the pipeline ---------------------------------------------------------------

  /** Every edit records the state before it at the front of the history, as far as that goes, and
      forgets what could be redone. */
  lemma {:induction false} EditsAreRecorded<T>(e: Editor<T>, c: Command<T>)
    requires IsEdit(c)
    ensures var u := Apply(BOUND, e, c);
            && u.future == [] && |u.past| == (if |e.past| < 50 then |e.past| + 1 else 50)
            && u.past[0] == Snapshot(e.name, e.steps)
            && forall i :: 1 <= i < |u.past| ==> u.past[i] == e.past[i - 1]
  {
  }

  /** What the edits do to the name and the steps: only a new name changes the name, new steps
      replace the old ones or follow them in order, and a removal takes out the step at its position,
      if there is one. Moving is the subject of the last section. */
  lemma {:induction false} EditsAreExact<T>(e: Editor<T>, name: string, more: seq<Item<T>>, index: int, from: int, to: int)
    ensures var u := Apply(BOUND, e, SetName(name)); u.name == name && u.steps == e.steps
    ensures var u := Apply(BOUND, e, SetSteps(more)); u.name == e.name && u.steps == more
    ensures var u := Apply(BOUND, e, AddSteps(more));
            && u.name == e.name && |u.steps| == |e.steps| + |more|
            && (forall i :: 0 <= i < |e.steps| ==> u.steps[i] == e.steps[i])
            && (forall i :: 0 <= i < |more| ==> u.steps[|e.steps| + i] == more[i])
    ensures var u := Apply(BOUND, e, RemoveStep(index));
            && u.name == e.name && (!(0 <= index < |e.steps|) ==> u.steps == e.steps)
            && (0 <= index < |e.steps| ==>
                  && |u.steps| == |e.steps| - 1
                  && (forall i :: 0 <= i < index ==> u.steps[i] == e.steps[i])
                  && (forall i :: index <= i < |u.steps| ==> u.steps[i] == e.steps[i + 1]))
    ensures var u := Apply(BOUND, e, MoveStep(from, to)); u.name == e.name && u.steps == Moved(e.steps, from, to)
    ensures Apply(BOUND, e, Reset) == Editor("Untitled Pipeline", [], [], [])
  {
  }

  // ---- The history is bounded, and undo/redo never truncates it ----------------------------------------------

  ghost predicate InBounds<T>(e: Editor<T>) {
    |e.past| + |e.future| <= HISTORY_LIMIT
  }

  lemma {:induction false} CommandKeepsBounds<T>(e: Editor<T>, c: Command<T>)
    requires InBounds(e)
    ensures InBounds(Apply(BOUND, e, c))
  {
  }

  /** In every reachable state past and future together hold at most HISTORY_LIMIT entries. */
  lemma {:induction false} ReachableInBounds<T>(e: Editor<T>, cs: seq<Command<T>>)
    requires InBounds(e)
    ensures InBounds(ApplyAll(BOUND, e, cs))
    decreases |cs|
  {
    if cs != [] {
      CommandKeepsBounds(e, cs[0]);
      ReachableInBounds(Apply(BOUND, e, cs[0]), cs[1..]);
    }
  }

  function Reverse<X>(s: seq<X>): (r: seq<X>)
    ensures |r| == |s|
  {
    if s == [] then [] else Reverse(s[1..]) + [s[0]]
  }

  /** All states the history holds, oldest first; the cursor stands at |past|. */
  function Timeline<T>(e: Editor<T>): seq<Snapshot<T>> {
    Reverse(e.past) + [e.Current()] + e.future
  }

  /** Undo and redo move the cursor by one over an unchanged timeline. */
  lemma {:induction false} CursorMoves<T>(e: Editor<T>)
    requires InBounds(e)
    ensures var u := Apply(BOUND, e, Undo);
            && Timeline(u) == Timeline(e) && InBounds(u)
            && |u.past| == (if e.past == [] then 0 else |e.past| - 1)
    ensures var r := Apply(BOUND, e, Redo);
            && Timeline(r) == Timeline(e) && InBounds(r)
            && |r.past| == (if e.future == [] then |e.past| else |e.past| + 1)
  {
    if e.past != [] {
      var u := Apply(BOUND, e, Undo);
      assert u.future == [e.Current()] + e.future;
      assert Reverse(e.past) == Reverse(e.past[1..]) + [u.Current()];
    }
    if e.future != [] {
      var r := Apply(BOUND, e, Redo);
      assert r.past == [e.Current()] + e.past;
      assert r.past[1..] == e.past;
      assert e.future == [r.Current()] + r.future;
      assert Reverse(r.past) == Reverse(e.past) + [e.Current()];
    }
  }

  /** A state is determined by its timeline and its cursor. */
  lemma {:induction false} TimelineDetermines<T>(a: Editor<T>, b: Editor<T>)
    requires Timeline(a) == Timeline(b) && |a.past| == |b.past|
    ensures a == b
  {
    var n, ta, tb := |a.past|, Timeline(a), Timeline(b);
    assert Reverse(a.past) == ta[..n] == tb[..n] == Reverse(b.past);
    ReverseInjective(a.past, b.past);
    assert ta[n] == a.Current() && tb[n] == b.Current();
    assert a.future == ta[n + 1..] == tb[n + 1..] == b.future;
  }

  lemma {:induction false} ReverseInjective<X>(s: seq<X>, t: seq<X>)
    requires Reverse(s) == Reverse(t)
    ensures s == t
  {
    assert |s| == |Reverse(s)| == |t|;
    if s != [] {
      var n := |s| - 1;
      assert Reverse(s)[..n] == Reverse(s[1..]) && Reverse(t)[..n] == Reverse(t[1..]);
      assert Reverse(s)[n] == s[0] && Reverse(t)[n] == t[0];
      ReverseInjective(s[1..], t[1..]);
      assert s == [s[0]] + s[1..] && t == [t[0]] + t[1..];
    }
  }

  function Repeat<T>(c: Command<T>, k: nat): seq<Command<T>> {
    seq(k, _ => c)
  }

  /** k undos (or k redos) move the cursor by k, as far as the history goes. */
  lemma {:induction false} ManyMoves<T>(e: Editor<T>, k: nat)
    requires InBounds(e)
    ensures k <= |e.past| ==>
              var u := ApplyAll(BOUND, e, Repeat(Undo, k));
              InBounds(u) && Timeline(u) == Timeline(e) && |u.past| == |e.past| - k
    ensures k <= |e.future| ==>
              var r := ApplyAll(BOUND, e, Repeat(Redo, k));
              InBounds(r) && Timeline(r) == Timeline(e) && |r.past| == |e.past| + k
  {
    if k <= |e.past| { ManyUndos(e, k); }
    if k <= |e.future| { ManyRedos(e, k); }
  }

  lemma {:induction false} ManyUndos<T>(e: Editor<T>, k: nat)
    requires InBounds(e) && k <= |e.past|
    ensures var u := ApplyAll(BOUND, e, Repeat(Undo, k));
            InBounds(u) && Timeline(u) == Timeline(e) && |u.past| == |e.past| - k
    decreases k
  {
    if k > 0 {
      CursorMoves(e);
      assert Repeat<T>(Undo, k)[1..] == Repeat(Undo, k - 1);
      ManyUndos(Apply(BOUND, e, Undo), k - 1);
    }
  }

  lemma {:induction false} ManyRedos<T>(e: Editor<T>, k: nat)
    requires InBounds(e) && k <= |e.future|
    ensures var r := ApplyAll(BOUND, e, Repeat(Redo, k));
            InBounds(r) && Timeline(r) == Timeline(e) && |r.past| == |e.past| + k
    decreases k
  {
    if k > 0 {
      CursorMoves(e);
      assert Repeat<T>(Redo, k)[1..] == Repeat(Redo, k - 1);
      SameLength(e, Apply(BOUND, e, Redo));
      ManyRedos(Apply(BOUND, e, Redo), k - 1);
    }
  }

  lemma {:induction false} SameLength<T>(a: Editor<T>, b: Editor<T>)
    requires Timeline(a) == Timeline(b)
    ensures |a.past| + |a.future| == |b.past| + |b.future|
  {
    assert |Timeline(a)| == |a.past| + 1 + |a.future|;
    assert |Timeline(b)| == |b.past| + 1 + |b.future|;
  }

  /** k undos followed by k redos restore the whole state, and the other way round. */
  lemma {:induction false} UndoRedoInverse<T>(e: Editor<T>, k: nat)
    requires InBounds(e)
    ensures k <= |e.past| ==> ApplyAll(BOUND, ApplyAll(BOUND, e, Repeat(Undo, k)), Repeat(Redo, k)) == e
    ensures k <= |e.future| ==> ApplyAll(BOUND, ApplyAll(BOUND, e, Repeat(Redo, k)), Repeat(Undo, k)) == e
  {
    ManyMoves(e, k);
    if k <= |e.past| {
      var u := ApplyAll(BOUND, e, Repeat(Undo, k));
      SameLength(e, u);
      ManyMoves(u, k);
      TimelineDetermines(ApplyAll(BOUND, u, Repeat(Redo, k)), e);
    }
    if k <= |e.future| {
      var r := ApplyAll(BOUND, e, Repeat(Redo, k));
      ManyMoves(r, k);
      TimelineDetermines(ApplyAll(BOUND, r, Repeat(Undo, k)), e);
    }
  }

  predicate IsEdit<T>(c: Command<T>) { !c.Undo? && !c.Redo? && !c.Reset? }

  /** Undoing an edit gives back exactly the name and steps before it, and redoing it the ones
      after it. */
  lemma {:induction false} UndoRevertsEdit<T>(e: Editor<T>, c: Command<T>)
    requires IsEdit(c)
    ensures var after := Apply(BOUND, e, c);
            var undone := Apply(BOUND, after, Undo);
            && undone.Current() == e.Current() && Apply(BOUND, undone, Redo).Current() == after.Current()
  {
  }

  // ---- The bounded editor refines an unlimited one ------------------------------------------------------------

  ghost predicate Refines<T>(e: Editor<T>, u: Editor<T>) {
    e.name == u.name && e.steps == u.steps && e.future == u.future && e.past <= u.past
  }

  /** An undo for which the bounded history has nothing left and the unlimited one has. */
  predicate LosesUndo<T>(e: Editor<T>, u: Editor<T>, c: Command<T>) { c.Undo? && e.past == [] && u.past != [] }

  /** One command keeps the two editors in step, unless it is such an undo. */
  lemma {:induction false} CommandRefines<T>(e: Editor<T>, u: Editor<T>, c: Command<T>)
    requires InBounds(e) && Refines(e, u)
    ensures Refines(Apply(BOUND, e, c), Apply(Unlimited, u, c)) <==> !LosesUndo(e, u, c)
  {
    if e.past != [] { assert e.past[0] == u.past[0] && e.past[1..] <= u.past[1..]; }
  }

  /** The two editors, run side by side, never lose an undo. */
  ghost predicate NoLostUndo<T>(e: Editor<T>, u: Editor<T>, cs: seq<Command<T>>)
    decreases |cs|
  {
    cs == [] ||
    (!LosesUndo(e, u, cs[0]) && NoLostUndo(Apply(BOUND, e, cs[0]), Apply(Unlimited, u, cs[0]), cs[1..]))
  }

  /** They are in step before the run and after each of its commands. */
  ghost predicate InStep<T>(e: Editor<T>, u: Editor<T>, cs: seq<Command<T>>)
    decreases |cs|
  {
    Refines(e, u) && (cs == [] || InStep(Apply(BOUND, e, cs[0]), Apply(Unlimited, u, cs[0]), cs[1..]))
  }

  /** The bounded editor has the name, steps and future of the unlimited one, and a prefix of its
      past, throughout a run if and only if the run loses no undo; undos on an editor that has no
      past at all are harmless. */
  lemma {:induction false} RunRefines<T>(e: Editor<T>, u: Editor<T>, cs: seq<Command<T>>)
    requires InBounds(e) && Refines(e, u)
    ensures InStep(e, u, cs) <==> NoLostUndo(e, u, cs)
    ensures NoLostUndo(e, u, cs) ==> Refines(ApplyAll(BOUND, e, cs), ApplyAll(Unlimited, u, cs))
    decreases |cs|
  {
    if cs != [] {
      var e', u' := Apply(BOUND, e, cs[0]), Apply(Unlimited, u, cs[0]);
      CommandRefines(e, u, cs[0]);
      CommandKeepsBounds(e, cs[0]);
      if Refines(e', u') { RunRefines(e', u', cs[1..]); }
    }
  }

  /** In particular in every run in which no undo meets an empty past. */
  lemma {:induction false} UndosWithPastLoseNothing<T>(e: Editor<T>, u: Editor<T>, cs: seq<Command<T>>)
    requires UndosHavePast(e, cs)
    ensures NoLostUndo(e, u, cs)
    decreases |cs|
  {
    if cs != [] { UndosWithPastLoseNothing(Apply(BOUND, e, cs[0]), Apply(Unlimited, u, cs[0]), cs[1..]); }
  }

  ghost predicate UndosHavePast<T>(e: Editor<T>, cs: seq<Command<T>>)
    decreases |cs|
  {
    cs == [] || ((cs[0].Undo? ==> e.past != []) && UndosHavePast(Apply(BOUND, e, cs[0]), cs[1..]))
  }

  // ---- Moving a step -----------------------------------------------------------------------------------------

  /** At valid positions the step ends up at `to`, the others keep their order, no step is
      lost or duplicated, and moving it back undoes the move. */
  lemma {:induction false} MoveStepIsAPermutation<T>(s: seq<Item<T>>, from: nat, to: nat)
    requires from < |s| && to < |s|
    ensures var m := Moved(s, from, to);
            && |m| == |s| && m[to] == s[from] && Filtered(m, to) == Filtered(s, from)
            && multiset(m) == multiset(s) && Moved(m, to, from) == s
  {
    var rest := Filtered(s, from);
    MoveIsInsertion(s, from, to);
    MoveIsInsertion(Moved(s, from, to), to, from);
    InsertedMultiset(rest, from, s[from]);
    InsertedMultiset(rest, to, s[from]);
  }

  /** Positions outside the list: negative ones count from the end, of what is left in the case of
      the target, and are clamped; beyond the end a move inserts an undefined step. */
  lemma {:induction false} MoveClamps<T>(s: seq<Item<T>>, from: int, to: int)
    ensures -|s| <= from < 0 ==> Moved(s, from, to) == Moved(s, |s| + from, to)
    ensures from < -|s| ==> Moved(s, from, to) == Moved(s, 0, to)
    ensures 0 <= from < |s| && to >= |s| ==> Moved(s, from, to) == Moved(s, from, |s| - 1)
    ensures 0 <= from < |s| && to < 0 ==> Moved(s, from, to) == Moved(s, from, if |s| - 1 + to < 0 then 0 else |s| - 1 + to)
    ensures from >= |s| && to >= |s| ==> Moved(s, from, to) == s + [Undefined]
    ensures from >= |s| && 0 <= to < |s| ==> Moved(s, from, to) == s[..to] + [Undefined] + s[to..]
    ensures from >= |s| && -|s| <= to < 0 ==> Moved(s, from, to) == s[..|s| + to] + [Undefined] + s[|s| + to..]
    ensures from >= |s| && to < -|s| ==> Moved(s, from, to) == [Undefined] + s
  {
  }

  lemma {:induction false} MoveIsInsertion<T>(s: seq<Item<T>>, from: nat, to: nat)
    requires from < |s| && to < |s|
    ensures var m, rest := Moved(s, from, to), Filtered(s, from);
            && |rest| == |s| - 1 && m == Inserted(rest, to, s[from]) && |m| == |s| && m[to] == s[from]
            && Filtered(m, to) == rest && Inserted(rest, from, s[from]) == s
  {
    var rest := Filtered(s, from);
    var m := Moved(s, from, to);
    assert m == rest[..to] + [s[from]] + rest[to..];
    assert Filtered(m, to) == rest[..to] + rest[to..] == rest;
  }

  lemma {:induction false} InsertedMultiset<X>(s: seq<X>, at: nat, x: X)
    requires at <= |s|
    ensures multiset(Inserted(s, at, x)) == multiset(s) + multiset{x}
  {
    assert s == s[..at] + s[at..];
  }

  /** Moving from beyond the end inserts an undefined step instead; these are the only moves
      that change which steps there are. */
  lemma {:induction false} MoveKeepsStepsExactlyWhenInRange<T>(s: seq<Item<T>>, from: int, to: int)
    ensures multiset(Moved(s, from, to)) == multiset(s) <==> from < |s| && s != []
  {
    var p := SpliceStart(|s|, from);
    if p < |s| {
      var q := SpliceStart(|s| - 1, to);
      assert Inserted(Filtered(s, p), p, s[p]) == s;
      InsertedMultiset(Filtered(s, p), p, s[p]);
      InsertedMultiset(Filtered(s, p), q, s[p]);
    } else {
      assert |Moved(s, from, to)| == |s| + 1;
      assert |multiset(Moved(s, from, to))| == |s| + 1 && |multiset(s)| == |s|;
    }
  }
}
