/** The deduplication layer over every run: when it answers `duplicate`, which execution that
    answer names, and what it takes for one operation to be executed twice. */
module ExecuteRequestsDedup {
  import opened Options
  import Keys
  import opened ExecuteRequests
  import opened ExecuteRequestsProofs
  import opened ExecuteRequestsReplay

  // ---- Complete records, whatever the keys are -----------------------------------------------------

  predicate Shape(rec: Record) { rec.processing <==> rec.body.None? }

  /** What a transaction has written: completed records at its end, fresh ones before, except
      that a duplicate completes the client's own record. */
  ghost predicate PendingShape(p: Process, x: Slot)
    requires x in p.pending
  {
    && Shape(p.pending[x])
    && (p.pc.ClosingKey? || p.pc.Closing? ==> !p.pending[x].processing)
    && (p.Inserting() && (!p.pc.ClosingDup? || x != ClientSlot(p.req)) ==> p.pending[x].processing)
  }

  ghost predicate ProcShapes(p: Process) { forall x :: x in p.pending ==> PendingShape(p, x) }

  ghost predicate Shapes(s: State) {
    && (forall x :: x in s.idem ==> Shape(s.idem[x]))
    && (forall r :: r in s.procs ==> ProcShapes(s.procs[r]))
  }

  lemma {:induction false} EarlyMoveShapes(env: Env, s: State, a: Action)
    requires Enabled(env, s, a) && (a.LookupKey? || a.InsertKey? || a.LookupDedup? || a.InsertDedup?)
    requires PendingOk(env, s, a.r) && ProcShapes(s.procs[a.r])
    ensures ProcShapes(Next(env, s, a).procs[a.r])
  {
    var p, p' := s.procs[a.r], Next(env, s, a).procs[a.r];
    assert forall x :: x in p.pending ==> PendingShape(p, x);
    forall x | x in p'.pending ensures PendingShape(p', x) { }
  }

  lemma {:induction false} LateMoveShapes(env: Env, s: State, a: Action)
    requires Enabled(env, s, a) && IsMove(a) && !a.LookupKey? && !a.InsertKey? && !a.LookupDedup? && !a.InsertDedup?
    requires PendingOk(env, s, a.r) && ProcShapes(s.procs[a.r])
    ensures ProcShapes(Next(env, s, a).procs[a.r])
  {
    var p, p' := s.procs[a.r], Next(env, s, a).procs[a.r];
    assert forall x :: x in p.pending ==> PendingShape(p, x);
    forall x | x in p'.pending ensures PendingShape(p', x) { }
  }

  lemma {:induction false} MoveShapes(env: Env, s: State, a: Action, p': Process)
    requires Enabled(env, s, a) && IsMove(a) && a.r in s.procs && a.r in Next(env, s, a).procs
    requires p' == Next(env, s, a).procs[a.r] && PendingOk(env, s, a.r) && ProcShapes(s.procs[a.r])
    ensures ProcShapes(p')
  {
    if a.LookupKey? || a.InsertKey? || a.LookupDedup? || a.InsertDedup? { EarlyMoveShapes(env, s, a); }
    else { LateMoveShapes(env, s, a); }
  }

  lemma {:induction false} CommitShapes(env: Env, s: State, a: Action)
    requires Shapes(s) && Enabled(env, s, a) && IsCommit(a)
    ensures Shapes(Next(env, s, a))
  {
    var s', p := Next(env, s, a), s.procs[a.r];
    CommitMovesOne(env, s, a);
    assert ProcShapes(p) && s'.procs[a.r].pending == map[];
    forall x | x in s'.idem ensures Shape(s'.idem[x]) {
      if x in p.pending { assert PendingShape(p, x); }
    }
  }

  lemma {:induction false} StepKeepsShapes(env: Env, s: State, a: Action)
    requires ProcsOk(env, s) && Shapes(s) && Enabled(env, s, a)
    ensures Shapes(Next(env, s, a))
  {
    if IsMove(a) {
      MoveIsLocal(env, s, a);
      assert ProcOk(env, s, a.r) && ProcShapes(s.procs[a.r]);
      MoveShapes(env, s, a, Next(env, s, a).procs[a.r]);
    } else if IsCommit(a) {
      CommitShapes(env, s, a);
    }
  }

  lemma {:induction false} RunKeepsShapes(env: Env, tr: seq<State>, acts: seq<Action>, i: nat)
    requires Run(env, tr, acts) && i < |tr|
    ensures Inv(env, tr[i]) && Shapes(tr[i])
  {
    RunKeepsInv(env, tr, acts, i);
    forall k: nat ensures ShapesStep(tr, k) {
      if k < |acts| && Shapes(tr[k]) { RunStepKeepsShapes(env, tr, acts, k); }
    }
    ShapesLast(tr, i);
  }

  ghost predicate ShapesStep(tr: seq<State>, k: nat) { k + 1 < |tr| && Shapes(tr[k]) ==> Shapes(tr[k + 1]) }

  lemma {:induction false} ShapesLast(tr: seq<State>, i: nat)
    requires i < |tr| && tr[0] == INITIAL && forall k: nat :: ShapesStep(tr, k)
    ensures Shapes(tr[i])
  {
    if i > 0 {
      ShapesLast(tr, i - 1);
      assert ShapesStep(tr, i - 1);
    }
  }

  lemma {:induction false} RunStepKeepsShapes(env: Env, tr: seq<State>, acts: seq<Action>, k: nat)
    requires Run(env, tr, acts) && k < |acts| && Shapes(tr[k])
    ensures Shapes(tr[k + 1])
  {
    RunKeepsInv(env, tr, acts, k);
    StepKeepsShapes(env, tr[k], acts[k]);
  }

  // ---- When the layer answers `duplicate` -------------------------------------------------------------

  /** Step i is the last commit of a request that completes the record of slot x. */
  ghost predicate Completes(tr: seq<State>, acts: seq<Action>, i: nat, x: Slot)
    requires |tr| == |acts| + 1
  {
    && i < |acts| && acts[i].CommitAnswer? && acts[i].r in tr[i].procs
    && x in tr[i].procs[acts[i].r].pending && !tr[i].procs[acts[i].r].pending[x].processing
  }

  /** Before step j some request completed the record of slot x, which has not expired by then. */
  ghost predicate CompletedBefore(tr: seq<State>, acts: seq<Action>, j: nat, x: Slot)
    requires |tr| == |acts| + 1 && j < |tr|
  {
    exists i: nat :: i < j && Completes(tr, acts, i, x) && tr[j].clock < tr[i].procs[acts[i].r].pending[x].expires
  }

  ghost predicate Settled(s: State, x: Slot, expires: int) {
    x in s.idem && !s.idem[x].processing && s.idem[x].expires == expires
  }

  lemma {:induction false} CommitKeepsSettled(env: Env, s: State, a: Action, x: Slot, expires: int)
    requires Enabled(env, s, a) && IsCommit(a) && Settled(s, x, expires)
    requires PendingOk(env, s, a.r) && ProcShapes(s.procs[a.r])
    ensures Settled(Next(env, s, a), x, expires)
  {
    var p := s.procs[a.r];
    CommitMovesOne(env, s, a);
    if x in p.pending { assert PendingShape(p, x) && SameInsert(p.pending[x], s.idem[x]); }
  }

  lemma {:induction false} OtherKeepsSettled(env: Env, s: State, a: Action, x: Slot, expires: int)
    requires Enabled(env, s, a) && !IsCommit(a) && Settled(s, x, expires) && s.clock < expires
    ensures Settled(Next(env, s, a), x, expires)
  {
    if IsMove(a) { MoveIsLocal(env, s, a); }
  }

  lemma {:induction false} RunStepKeepsSettled(env: Env, tr: seq<State>, acts: seq<Action>, j: nat, x: Slot, expires: int)
    requires Run(env, tr, acts) && j < |acts| && Settled(tr[j], x, expires) && tr[j].clock < expires
    ensures Settled(tr[j + 1], x, expires)
  {
    var s, a := tr[j], acts[j];
    if IsCommit(a) {
      RunKeepsShapes(env, tr, acts, j);
      assert ProcOk(env, s, a.r) && PendingOk(env, s, a.r) && ProcShapes(s.procs[a.r]);
      CommitKeepsSettled(env, s, a, x, expires);
    } else {
      OtherKeepsSettled(env, s, a, x, expires);
    }
  }

  lemma {:induction false} SettledStays(env: Env, tr: seq<State>, acts: seq<Action>, i: nat, j: nat, x: Slot, expires: int)
    requires Run(env, tr, acts) && i <= j < |tr| && Settled(tr[i], x, expires) && tr[j].clock < expires
    ensures Settled(tr[j], x, expires)
    decreases j - i
  {
    if i < j {
      ClockNeverGoesBack(env, tr, acts, i, j);
      RunStepKeepsSettled(env, tr, acts, i, x, expires);
      SettledStays(env, tr, acts, i + 1, j, x, expires);
    }
  }

  lemma {:induction false} CompletionSettles(env: Env, tr: seq<State>, acts: seq<Action>, i: nat, x: Slot)
    requires Run(env, tr, acts) && Completes(tr, acts, i, x)
    ensures Settled(tr[i + 1], x, tr[i].procs[acts[i].r].pending[x].expires)
  {
    CommitMovesOne(env, tr[i], acts[i]);
  }

  /** A record becomes complete only by such a commit. */
  lemma {:induction false} StepSettles(env: Env, s: State, a: Action, x: Slot)
    requires Enabled(env, s, a) && (IsCommit(a) ==> ProcShapes(s.procs[a.r]))
    requires x in Next(env, s, a).idem && !Next(env, s, a).idem[x].processing
    ensures || (x in s.idem && s.idem[x] == Next(env, s, a).idem[x])
            || (a.CommitAnswer? && x in s.procs[a.r].pending && s.procs[a.r].pending[x] == Next(env, s, a).idem[x])
  {
    if IsMove(a) {
      MoveIsLocal(env, s, a);
    } else if IsCommit(a) {
      CommitMovesOne(env, s, a);
      if x in s.procs[a.r].pending { assert PendingShape(s.procs[a.r], x); }
    }
  }

  ghost predicate SettlesAt(tr: seq<State>, acts: seq<Action>, j: nat, x: Slot)
    requires |tr| == |acts| + 1 && j < |acts|
  {
    x in tr[j + 1].idem && !tr[j + 1].idem[x].processing ==>
      || (x in tr[j].idem && tr[j].idem[x] == tr[j + 1].idem[x])
      || (Completes(tr, acts, j, x) && tr[j].procs[acts[j].r].pending[x] == tr[j + 1].idem[x])
  }

  lemma {:induction false} RunStepSettles(env: Env, tr: seq<State>, acts: seq<Action>, j: nat, x: Slot)
    requires Run(env, tr, acts) && j < |acts|
    ensures SettlesAt(tr, acts, j, x)
  {
    RunKeepsShapes(env, tr, acts, j);
    if x in tr[j + 1].idem && !tr[j + 1].idem[x].processing { StepSettles(env, tr[j], acts[j], x); }
  }

  lemma {:induction false} FindCompletion(tr: seq<State>, acts: seq<Action>, j: nat, x: Slot) returns (i: nat)
    requires |tr| == |acts| + 1 && tr[0] == INITIAL && j < |tr| && x in tr[j].idem && !tr[j].idem[x].processing
    requires forall k: nat :: k < |acts| ==> SettlesAt(tr, acts, k, x)
    ensures i < j && Completes(tr, acts, i, x) && tr[i].procs[acts[i].r].pending[x].expires == tr[j].idem[x].expires
  {
    assert SettlesAt(tr, acts, j - 1, x);
    if x in tr[j - 1].idem && tr[j - 1].idem[x] == tr[j].idem[x] {
      i := FindCompletion(tr, acts, j - 1, x);
    } else {
      i := j - 1;
    }
  }

  lemma {:induction false} CompleteRecordWasCompleted(env: Env, tr: seq<State>, acts: seq<Action>, j: nat, x: Slot)
    returns (i: nat)
    requires Run(env, tr, acts) && j < |tr| && x in tr[j].idem && !tr[j].idem[x].processing
    ensures i < j && Completes(tr, acts, i, x) && tr[i].procs[acts[i].r].pending[x].expires == tr[j].idem[x].expires
  {
    forall k: nat | k < |acts| ensures SettlesAt(tr, acts, k, x) { RunStepSettles(env, tr, acts, k, x); }
    i := FindCompletion(tr, acts, j, x);
  }

  /** The lookup itself. */
  lemma {:induction false} LookupFindsComplete(env: Env, s: State, r: nat)
    requires Enabled(env, s, LookupDedup(r)) && PendingOk(env, s, r) && Shapes(s)
    ensures var x, pc := DedupSlot(env, s.procs[r].req.op), Next(env, s, LookupDedup(r)).procs[r].pc;
            && (pc.ClosingDup? <==> x in s.idem && !s.idem[x].processing && s.clock < s.idem[x].expires)
            && (!pc.ClosingDup? ==> pc.DedupAbsent? || pc.DedupHeld?)
  {
    var p, x := s.procs[r], DedupSlot(env, s.procs[r].req.op);
    assert ProcShapes(p);
    if x in p.pending { assert PendingShape(p, x); }
    if x in s.idem { assert Shape(s.idem[x]); }
  }

  /** In every run a request is answered `duplicate` if and only if some request completed the
      deduplication record of its operation before and that record has not expired; otherwise
      the layer lets it proceed. A request that is still at work, or that died after its first
      commit, completes nothing and therefore stops nobody. */
  lemma {:induction false} DuplicateExactlyWhenCompleted(env: Env, tr: seq<State>, acts: seq<Action>, j: nat, r: nat)
    requires Run(env, tr, acts) && j < |acts| && acts[j] == LookupDedup(r)
    ensures tr[j + 1].procs[r].pc.ClosingDup? <==> CompletedBefore(tr, acts, j, DedupSlot(env, tr[j].procs[r].req.op))
    ensures var pc := tr[j + 1].procs[r].pc; !pc.ClosingDup? ==> pc.DedupAbsent? || pc.DedupHeld?
  {
    var s, x := tr[j], DedupSlot(env, tr[j].procs[r].req.op);
    RunKeepsShapes(env, tr, acts, j);
    assert ProcOk(env, s, r);
    LookupFindsComplete(env, s, r);
    if CompletedBefore(tr, acts, j, x) {
      var i: nat :| i < j && Completes(tr, acts, i, x) && s.clock < tr[i].procs[acts[i].r].pending[x].expires;
      CompletionSettles(env, tr, acts, i, x);
      SettledStays(env, tr, acts, i + 1, j, x, tr[i].procs[acts[i].r].pending[x].expires);
    }
    if x in s.idem && !s.idem[x].processing && s.clock < s.idem[x].expires {
      var i := CompleteRecordWasCompleted(env, tr, acts, j, x);
    }
  }

  // ---- Who completed it -----------------------------------------------------------------------------------

  /** No client of the run uses slot x as its own key. */
  ghost predicate ClientsAvoid(acts: seq<Action>, x: Slot) {
    forall i :: 0 <= i < |acts| && acts[i].Arrive? ==> ClientSlot(acts[i].req) != x
  }

  ghost predicate NoClient(s: State, x: Slot) { forall r :: r in s.procs ==> ClientSlot(s.procs[r].req) != x }

  lemma {:induction false} StepKeepsNoClient(env: Env, s: State, a: Action, x: Slot)
    requires NoClient(s, x) && Enabled(env, s, a) && (a.Arrive? ==> ClientSlot(a.req) != x)
    ensures NoClient(Next(env, s, a), x)
  {
    if IsMove(a) { MoveIsLocal(env, s, a); }
    else if IsCommit(a) { CommitMovesOne(env, s, a); }
  }

  lemma {:induction false} RunKeepsNoClient(env: Env, tr: seq<State>, acts: seq<Action>, i: nat, x: Slot)
    requires Run(env, tr, acts) && i < |tr| && ClientsAvoid(acts, x)
    ensures NoClient(tr[i], x)
  {
    if i > 0 {
      RunKeepsNoClient(env, tr, acts, i - 1, x);
      StepKeepsNoClient(env, tr[i - 1], acts[i - 1], x);
    }
  }

  /** Whoever completes a slot that no client uses has executed the operation of that slot, in a
      request that reached its third commit. */
  lemma {:induction false} CompletedByTheOperation(env: Env, tr: seq<State>, acts: seq<Action>, i: nat, x: Slot)
    requires Run(env, tr, acts) && ClientsAvoid(acts, x) && Completes(tr, acts, i, x)
    ensures var p := tr[i].procs[acts[i].r];
            && DedupSlot(env, p.req.op) == x && p.pc.Closing?
            && p.pc.e in tr[i].execs && tr[i].execs[p.pc.e] == Execution(p.req.key, p.req.op, p.pc.j, acts[i].r)
  {
    var s, r := tr[i], acts[i].r;
    RunKeepsShapes(env, tr, acts, i);
    RunKeepsNoClient(env, tr, acts, i, x);
    assert ProcOk(env, s, r) && PendingOk(env, s, r) && ProcShapes(s.procs[r]) && PendingShape(s.procs[r], x);
  }

  // ---- Which execution a duplicate names -----------------------------------------------------------------

  /** Execution e was created for an operation that slot x deduplicates. */
  predicate Names(env: Env, s: State, x: Slot, e: nat) {
    e in s.execs && DedupSlot(env, s.execs[e].op) == x
  }

  predicate NamedBody(env: Env, s: State, x: Slot, b: Body) {
    b.Deduplicated? && b.original.Some? && Names(env, s, x, b.original.value)
  }

  ghost predicate RecordNames(env: Env, s: State, x: Slot) {
    x in s.idem && !s.idem[x].processing ==>
      s.idem[x].body.Some? && s.idem[x].body.value.Marker? && Names(env, s, x, s.idem[x].body.value.execution)
  }

  ghost predicate ProcNames(env: Env, s: State, r: nat, x: Slot)
    requires r in s.procs
  {
    var p := s.procs[r];
    && (x in p.pending && !p.pending[x].processing ==>
          (p.pc.ClosingKey? || p.pc.Closing?) && p.pending[x].body == Some(Marker(p.pc.e)))
    && (p.pc.ClosingDup? ==> NamedBody(env, s, x, p.pc.body))
    && (Computed(p.pc).Some? ==> Computed(p.pc).value.Created? || NamedBody(env, s, x, Computed(p.pc).value))
  }

  ghost predicate AllNames(env: Env, s: State, x: Slot) {
    && RecordNames(env, s, x)
    && forall r :: r in s.procs && DedupSlot(env, s.procs[r].req.op) == x ==> ProcNames(env, s, r, x)
  }

  lemma {:induction false} EarlyMoveNames(env: Env, s: State, a: Action, x: Slot)
    requires Enabled(env, s, a) && (a.LookupKey? || a.InsertKey? || a.LookupDedup? || a.InsertDedup?)
    requires PendingOk(env, s, a.r) && ProcShapes(s.procs[a.r]) && ClientSlot(s.procs[a.r].req) != x
    requires DedupSlot(env, s.procs[a.r].req.op) == x && ProcNames(env, s, a.r, x) && RecordNames(env, s, x)
    ensures ProcNames(env, Next(env, s, a), a.r, x)
  {
    if x in s.procs[a.r].pending { assert PendingShape(s.procs[a.r], x); }
  }

  lemma {:induction false} LateMoveNames(env: Env, s: State, a: Action, x: Slot)
    requires Enabled(env, s, a) && IsMove(a) && !a.LookupKey? && !a.InsertKey? && !a.LookupDedup? && !a.InsertDedup?
    requires PendingOk(env, s, a.r) && ProcShapes(s.procs[a.r]) && ClientSlot(s.procs[a.r].req) != x
    requires DedupSlot(env, s.procs[a.r].req.op) == x && ProcNames(env, s, a.r, x)
    ensures ProcNames(env, Next(env, s, a), a.r, x)
  {
    if x in s.procs[a.r].pending { assert PendingShape(s.procs[a.r], x); }
  }

  lemma {:induction false} MoveNames(env: Env, s: State, a: Action, x: Slot, s': State)
    requires Enabled(env, s, a) && IsMove(a) && a.r in s.procs && s' == Next(env, s, a) && a.r in s'.procs
    requires PendingOk(env, s, a.r) && ProcShapes(s.procs[a.r]) && ClientSlot(s.procs[a.r].req) != x
    requires DedupSlot(env, s.procs[a.r].req.op) == x && ProcNames(env, s, a.r, x) && RecordNames(env, s, x)
    ensures ProcNames(env, s', a.r, x)
  {
    if a.LookupKey? || a.InsertKey? || a.LookupDedup? || a.InsertDedup? { EarlyMoveNames(env, s, a, x); }
    else { LateMoveNames(env, s, a, x); }
  }

  lemma {:induction false} MoveKeepsNames(env: Env, s: State, a: Action, x: Slot)
    requires ProcsOk(env, s) && Shapes(s) && NoClient(s, x) && AllNames(env, s, x) && Enabled(env, s, a) && IsMove(a)
    ensures AllNames(env, Next(env, s, a), x)
  {
    var s' := Next(env, s, a);
    MoveIsLocal(env, s, a);
    forall k | k in s'.procs && DedupSlot(env, s'.procs[k].req.op) == x ensures ProcNames(env, s', k, x) {
      assert ProcNames(env, s, k, x);
      if k == a.r {
        assert ProcOk(env, s, k) && ProcShapes(s.procs[k]);
        MoveNames(env, s, a, x, s');
      }
    }
  }

  lemma {:induction false} CommitRecordNames(env: Env, s: State, a: Action, x: Slot, s': State)
    requires Enabled(env, s, a) && IsCommit(a) && s' == Next(env, s, a) && RecordNames(env, s, x)
    requires ProcOk(env, s, a.r) && ClientSlot(s.procs[a.r].req) != x
    requires DedupSlot(env, s.procs[a.r].req.op) == x ==> ProcNames(env, s, a.r, x)
    requires s'.idem == s.idem + s.procs[a.r].pending && forall e :: e in s.execs ==> e in s'.execs && s'.execs[e] == s.execs[e]
    ensures RecordNames(env, s', x)
  {
    assert PendingOk(env, s, a.r);
  }

  lemma {:induction false} CommitProcNames(env: Env, s: State, a: Action, x: Slot)
    requires Enabled(env, s, a) && IsCommit(a) && ProcNames(env, s, a.r, x)
    requires a.CommitExecution? ==> s.procs[a.r].pc.e !in s.execs
    ensures ProcNames(env, Next(env, s, a), a.r, x)
  {
  }

  lemma {:induction false} CommitKeepsExecutions(env: Env, s: State, a: Action)
    requires Enabled(env, s, a) && IsCommit(a) && ProcOk(env, s, a.r)
    ensures forall e :: e in s.execs ==> e in Next(env, s, a).execs && Next(env, s, a).execs[e] == s.execs[e]
  {
  }

  lemma {:induction false} CommitKeepsProcNames(env: Env, s: State, a: Action, x: Slot, s': State)
    requires AllNames(env, s, x) && Enabled(env, s, a) && IsCommit(a) && ProcOk(env, s, a.r) && s' == Next(env, s, a)
    requires s'.procs.Keys == s.procs.Keys && s'.procs[a.r].req == s.procs[a.r].req
    requires forall k :: k in s.procs && k != a.r ==> s'.procs[k] == s.procs[k]
    requires forall e :: e in s.execs ==> e in s'.execs && s'.execs[e] == s.execs[e]
    ensures forall k :: k in s'.procs && DedupSlot(env, s'.procs[k].req.op) == x ==> ProcNames(env, s', k, x)
  {
    forall k | k in s'.procs && DedupSlot(env, s'.procs[k].req.op) == x ensures ProcNames(env, s', k, x) {
      assert ProcNames(env, s, k, x);
      if k == a.r { CommitProcNames(env, s, a, x); } else { OthersNames(env, s, s', k, x); }
    }
  }

  lemma {:induction false} OthersNames(env: Env, s: State, s': State, k: nat, x: Slot)
    requires k in s.procs && k in s'.procs && s'.procs[k] == s.procs[k] && ProcNames(env, s, k, x)
    requires forall e :: e in s.execs ==> e in s'.execs && s'.execs[e] == s.execs[e]
    ensures ProcNames(env, s', k, x)
  {
  }

  lemma {:induction false} CommitKeepsNames(env: Env, s: State, a: Action, x: Slot)
    requires ProcsOk(env, s) && NoClient(s, x) && AllNames(env, s, x) && Enabled(env, s, a) && IsCommit(a)
    ensures AllNames(env, Next(env, s, a), x)
  {
    assert ProcOk(env, s, a.r);
    CommitMovesOne(env, s, a);
    CommitKeepsExecutions(env, s, a);
    CommitRecordNames(env, s, a, x, Next(env, s, a));
    CommitKeepsProcNames(env, s, a, x, Next(env, s, a));
  }

  lemma {:induction false} OtherKeepsNames(env: Env, s: State, a: Action, x: Slot)
    requires AllNames(env, s, x) && Enabled(env, s, a) && (a.Arrive? || a.Tick? || a.Purge?)
    ensures AllNames(env, Next(env, s, a), x)
  {
    var s' := Next(env, s, a);
    forall k | k in s'.procs && DedupSlot(env, s'.procs[k].req.op) == x ensures ProcNames(env, s', k, x) {
      assert k in s.procs ==> ProcNames(env, s, k, x);
    }
  }

  lemma {:induction false} RunKeepsNames(env: Env, tr: seq<State>, acts: seq<Action>, i: nat, x: Slot)
    requires Run(env, tr, acts) && i < |tr| && ClientsAvoid(acts, x)
    ensures AllNames(env, tr[i], x)
  {
    if i > 0 {
      RunKeepsNames(env, tr, acts, i - 1, x);
      RunKeepsShapes(env, tr, acts, i - 1);
      RunKeepsNoClient(env, tr, acts, i - 1, x);
      if IsMove(acts[i - 1]) { MoveKeepsNames(env, tr[i - 1], acts[i - 1], x); }
      else if IsCommit(acts[i - 1]) { CommitKeepsNames(env, tr[i - 1], acts[i - 1], x); }
      else { OtherKeepsNames(env, tr[i - 1], acts[i - 1], x); }
    }
  }

  /** The steps only matter when they are part of the deduplication key. */
  predicate SameOp(env: Env, a: Op, b: Op) {
    a.user == b.user && a.pipeline == b.pipeline && a.dataset == b.dataset && (env.includeSteps ==> a.steps == b.steps)
  }

  /** Two operations that only a collision of the step hash puts in one slot. */
  predicate Collide(env: Env, a: Op, b: Op) {
    && a.user == b.user && a.pipeline == b.pipeline && a.dataset == b.dataset
    && env.includeSteps && a.steps != b.steps && env.hashSteps(a.steps) == env.hashSteps(b.steps)
  }

  /** Two operations share a deduplication slot exactly when they are the same, or their step
      hashes collide. */
  lemma {:induction false} SameSlotSameOp(env: Env, a: Op, b: Op)
    ensures DedupSlot(env, a) == DedupSlot(env, b) <==> SameOp(env, a, b) || Collide(env, a, b)
  {
    var ha := if env.includeSteps then env.hashSteps(a.steps) else "";
    var hb := if env.includeSteps then env.hashSteps(b.steps) else "";
    if DedupSlot(env, a) == DedupSlot(env, b) {
      Keys.DedupKeyInjective(a.user, a.pipeline, a.dataset, ha, b.user, b.pipeline, b.dataset, hb);
    }
  }

  /** Whenever a request is answered `duplicate` and no client of the run uses the operation's
      deduplication key as its own, the execution it names exists and was created for the same
      user, pipeline, dataset and steps, unless the hashes of these two step lists collide. */
  lemma {:induction false} DuplicateNamesTheSameOperation(env: Env, tr: seq<State>, acts: seq<Action>, i: nat, r: nat,
                                                          body: Body)
    requires Run(env, tr, acts) && i < |tr| && r in tr[i].procs && body.Deduplicated?
    requires ClientsAvoid(acts, DedupSlot(env, tr[i].procs[r].req.op))
    requires tr[i].procs[r].pc == ClosingDup(body) || Computed(tr[i].procs[r].pc) == Some(body)
    ensures body.original.Some? && body.original.value in tr[i].execs
    ensures var a, b := tr[i].execs[body.original.value].op, tr[i].procs[r].req.op;
            SameOp(env, a, b) || Collide(env, a, b)
  {
    var x := DedupSlot(env, tr[i].procs[r].req.op);
    RunKeepsNames(env, tr, acts, i, x);
    assert ProcNames(env, tr[i], r, x);
    SameSlotSameOp(env, tr[i].execs[body.original.value].op, tr[i].procs[r].req.op);
  }

  // ---- Running an operation twice -----------------------------------------------------------------------

  lemma {:induction false} NotYetCreated(env: Env, tr: seq<State>, acts: seq<Action>, j: nat, r: nat)
    requires Run(env, tr, acts) && j < |tr| && r in tr[j].procs && tr[j].procs[r].Inserting()
    ensures forall e :: e in tr[j].execs ==> tr[j].execs[e].creator != r
  {
    RunKeepsInv(env, tr, acts, j);
    assert ProcOk(env, tr[j], r);
    forall e | e in tr[j].execs ensures tr[j].execs[e].creator != r { assert ExecOk(tr[j], e); }
  }

  /** A request on its way to a duplicate answer never creates an execution. */
  lemma {:induction false} DuplicateCreatesNothing(env: Env, tr: seq<State>, acts: seq<Action>, j: nat, k: nat, r: nat)
    requires Run(env, tr, acts) && j <= k < |tr| && r in tr[j].procs && tr[j].procs[r].pc.ClosingDup?
    ensures r in tr[k].procs && forall e :: e in tr[k].execs ==> tr[k].execs[e].creator != r
    ensures var pc := tr[k].procs[r].pc;
            pc == tr[j].procs[r].pc || pc.Aborted? || Computed(pc) == Some(tr[j].procs[r].pc.body)
    decreases k
  {
    if j == k {
      NotYetCreated(env, tr, acts, k, r);
    } else {
      DuplicateCreatesNothing(env, tr, acts, j, k - 1, r);
      StepOfOthers(env, tr[k - 1], acts[k - 1], r);
    }
  }

  lemma {:induction false} StepOfOthers(env: Env, s: State, a: Action, r: nat)
    requires Enabled(env, s, a) && r in s.procs
    requires s.procs[r].pc.ClosingDup? || s.procs[r].pc.Aborted? || s.procs[r].pc.Answered?
    requires forall e :: e in s.execs ==> s.execs[e].creator != r
    ensures var s' := Next(env, s, a);
            && r in s'.procs && (forall e :: e in s'.execs ==> s'.execs[e].creator != r)
            && (s'.procs[r].pc == s.procs[r].pc
                || (s.procs[r].pc.ClosingDup? &&
                    (s'.procs[r].pc.Aborted? || Computed(s'.procs[r].pc) == Some(s.procs[r].pc.body))))
  {
  }

  /** A request that the deduplication layer has let through. */
  predicate Through(pc: Pc) {
    pc.DedupAbsent? || pc.DedupHeld? || pc.RowAdded? || pc.Persisted? || pc.Sent? || pc.Linked? || pc.ClosingKey? || pc.Closing?
  }

  ghost predicate LetThrough(s: State, r: nat) {
    (r in s.procs && Through(s.procs[r].pc)) || (exists e :: e in s.execs && s.execs[e].creator == r)
  }

  lemma {:induction false} StepLetsThrough(env: Env, s: State, a: Action, r: nat)
    requires Enabled(env, s, a) && LetThrough(Next(env, s, a), r)
    ensures LetThrough(s, r) || (a == LookupDedup(r) && !Next(env, s, a).procs[r].pc.ClosingDup?)
  {
    var s' := Next(env, s, a);
    if e :| e in s'.execs && s'.execs[e].creator == r {
      assert (e in s.execs && s.execs[e] == s'.execs[e]) || (a.CommitExecution? && a.r == r);
    }
  }

  ghost predicate LetsThroughAt(env: Env, tr: seq<State>, acts: seq<Action>, k: nat, r: nat)
    requires |tr| == |acts| + 1 && k < |acts|
  {
    LetThrough(tr[k + 1], r) ==>
      || LetThrough(tr[k], r)
      || (acts[k] == LookupDedup(r) && r in tr[k + 1].procs && !tr[k + 1].procs[r].pc.ClosingDup?)
  }

  lemma {:induction false} RunStepLetsThrough(env: Env, tr: seq<State>, acts: seq<Action>, k: nat, r: nat)
    requires Run(env, tr, acts) && k < |acts|
    ensures LetsThroughAt(env, tr, acts, k, r)
  {
    if LetThrough(tr[k + 1], r) { StepLetsThrough(env, tr[k], acts[k], r); }
  }

  lemma {:induction false} FindLookup(env: Env, tr: seq<State>, acts: seq<Action>, k: nat, r: nat) returns (j: nat)
    requires |tr| == |acts| + 1 && tr[0] == INITIAL && k < |tr| && LetThrough(tr[k], r)
    requires forall i: nat :: i < |acts| ==> LetsThroughAt(env, tr, acts, i, r)
    ensures j < k && acts[j] == LookupDedup(r) && r in tr[j + 1].procs && !tr[j + 1].procs[r].pc.ClosingDup?
  {
    assert LetsThroughAt(env, tr, acts, k - 1, r);
    if LetThrough(tr[k - 1], r) { j := FindLookup(env, tr, acts, k - 1, r); } else { j := k - 1; }
  }

  lemma {:induction false} LetThroughByLookup(env: Env, tr: seq<State>, acts: seq<Action>, k: nat, r: nat) returns (j: nat)
    requires Run(env, tr, acts) && k < |tr| && LetThrough(tr[k], r)
    ensures j < k && acts[j] == LookupDedup(r) && r in tr[j + 1].procs && !tr[j + 1].procs[r].pc.ClosingDup?
  {
    forall i: nat | i < |acts| ensures LetsThroughAt(env, tr, acts, i, r) { RunStepLetsThrough(env, tr, acts, i, r); }
    j := FindLookup(env, tr, acts, k, r);
  }

  lemma {:induction false} RequestStays(env: Env, tr: seq<State>, acts: seq<Action>, j: nat, k: nat, r: nat)
    requires Run(env, tr, acts) && j <= k < |tr| && r in tr[j].procs
    ensures r in tr[k].procs && tr[k].procs[r].req == tr[j].procs[r].req
    decreases k
  {
    if j < k {
      RequestStays(env, tr, acts, j, k - 1, r);
      StepKeepsRequest(env, tr[k - 1], acts[k - 1], r);
    }
  }

  lemma {:induction false} StepKeepsRequest(env: Env, s: State, a: Action, r: nat)
    requires Enabled(env, s, a) && r in s.procs
    ensures r in Next(env, s, a).procs && Next(env, s, a).procs[r].req == s.procs[r].req
  {
  }

  /** Every execution was created by a request that looked up its operation at a time when no
      request had completed the operation's record, or that record had expired. So an operation
      is executed again only after the earlier one has expired, or while the earlier one is at
      work, or after the earlier one died before its third commit. */
  lemma {:induction false} ExecutedOnlyWhenNotCompleted(env: Env, tr: seq<State>, acts: seq<Action>, k: nat, e: nat)
    returns (j: nat)
    requires Run(env, tr, acts) && k < |tr| && e in tr[k].execs
    ensures j < k && acts[j] == LookupDedup(tr[k].execs[e].creator)
    ensures !CompletedBefore(tr, acts, j, DedupSlot(env, tr[k].execs[e].op))
  {
    var r := tr[k].execs[e].creator;
    RunKeepsInv(env, tr, acts, k);
    assert ExecOk(tr[k], e);
    j := LetThroughByLookup(env, tr, acts, k, r);
    RequestStays(env, tr, acts, j, k, r);
    DuplicateExactlyWhenCompleted(env, tr, acts, j, r);
  }

  /** Requests for one operation create no second execution while a completed record of the
      operation lives: a request that reaches the deduplication layer then is answered
      `duplicate` and never creates an execution; one that reaches it at any other time is let
      through. (No client uses the operation's deduplication key as its own.) */
  lemma {:induction false} NoSecondExecutionInTheWindow(env: Env, tr: seq<State>, acts: seq<Action>, j: nat, k: nat, r: nat)
    requires Run(env, tr, acts) && j < k < |tr| && acts[j] == LookupDedup(r)
    requires ClientsAvoid(acts, DedupSlot(env, tr[j].procs[r].req.op))
    ensures tr[j + 1].procs[r].pc.ClosingDup? <==> FinishedBefore(env, tr, acts, j, tr[j].procs[r].req.op)
    ensures FinishedBefore(env, tr, acts, j, tr[j].procs[r].req.op) ==>
              forall e :: e in tr[k].execs ==> tr[k].execs[e].creator != r
    ensures !FinishedBefore(env, tr, acts, j, tr[j].procs[r].req.op) ==> Through(tr[j + 1].procs[r].pc)
  {
    var op := tr[j].procs[r].req.op;
    var x := DedupSlot(env, op);
    DuplicateExactlyWhenCompleted(env, tr, acts, j, r);
    if CompletedBefore(tr, acts, j, x) {
      var i: nat :| i < j && Completes(tr, acts, i, x) && tr[j].clock < tr[i].procs[acts[i].r].pending[x].expires;
      CompletedByTheOperation(env, tr, acts, i, x);
      SameSlotSameOp(env, tr[i].procs[acts[i].r].req.op, op);
      DuplicateCreatesNothing(env, tr, acts, j + 1, k, r);
    }
    if FinishedBefore(env, tr, acts, j, op) {
      var i: nat :| i < j && Finishes(env, tr, acts, i, op) && tr[j].clock < tr[i].procs[acts[i].r].pending[x].expires;
      FinishCompletes(env, tr, acts, i, op);
    }
  }

  /** Step i is the third commit of a request that executed operation op (or one whose step hash
      collides with it), with the deduplication record still there to be completed. */
  ghost predicate Finishes(env: Env, tr: seq<State>, acts: seq<Action>, i: nat, op: Op)
    requires |tr| == |acts| + 1
  {
    && i < |acts| && acts[i].CommitAnswer? && acts[i].r in tr[i].procs
    && var p := tr[i].procs[acts[i].r];
       p.pc.Closing? && (SameOp(env, p.req.op, op) || Collide(env, p.req.op, op)) && DedupSlot(env, op) in p.pending
  }

  ghost predicate FinishedBefore(env: Env, tr: seq<State>, acts: seq<Action>, j: nat, op: Op)
    requires |tr| == |acts| + 1 && j < |tr|
  {
    exists i: nat :: i < j && Finishes(env, tr, acts, i, op)
                     && tr[j].clock < tr[i].procs[acts[i].r].pending[DedupSlot(env, op)].expires
  }

  lemma {:induction false} FinishCompletes(env: Env, tr: seq<State>, acts: seq<Action>, i: nat, op: Op)
    requires Run(env, tr, acts) && Finishes(env, tr, acts, i, op)
    ensures Completes(tr, acts, i, DedupSlot(env, op))
  {
    RunKeepsShapes(env, tr, acts, i);
    assert ProcShapes(tr[i].procs[acts[i].r]);
    assert PendingShape(tr[i].procs[acts[i].r], DedupSlot(env, op));
  }
}
