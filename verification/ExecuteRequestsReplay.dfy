/** What is stored under a client's key, in every run and for every key that is not also a
    deduplication key of the same user; other requests may use any keys. What happens under the
    remaining keys is shown in ExecuteRequestsLimits. */
module ExecuteRequestsReplay {
  import opened Options
  import opened ExecuteRequests
  import opened ExecuteRequestsProofs

  /** A key is the deduplication key of some operation of that user. */
  ghost predicate IsDedupKey(env: Env, user: nat, key: string) {
    exists op: Op :: op.user == user && DedupKeyOf(env, op) == key
  }

  /** A slot that only clients use. */
  ghost predicate ForClients(env: Env, x: Slot) { !IsDedupKey(env, x.user, x.key) }

  lemma {:induction false} NotADedupSlot(env: Env, x: Slot, op: Op)
    requires ForClients(env, x)
    ensures DedupSlot(env, op) != x
  {
  }

  // ---- The invariant of one slot --------------------------------------------------------------------

  /** The record of slot x holds what its creator has computed, and is complete exactly when
      the creator has computed an answer. */
  ghost predicate RecordAnswer(s: State, x: Slot) {
    x in s.idem ==>
      var rec := s.idem[x];
      && rec.creator in s.procs && ClientSlot(s.procs[rec.creator].req) == x
      && (rec.processing <==> rec.body.None?) && Computed(s.procs[rec.creator].pc) == rec.body
  }

  ghost predicate PendingAnswer(p: Process, x: Slot)
    requires x in p.pending
  {
    var rec := p.pending[x];
    if p.pc.ClosingDup? then !rec.processing && rec.body == Some(p.pc.body)
    else if p.pc.ClosingKey? || p.pc.Closing? then !rec.processing && rec.body == Some(Created(p.pc.e, p.pc.j))
    else rec.processing && rec.body.None?
  }

  ghost predicate ProcAnswer(s: State, r: nat, x: Slot)
    requires r in s.procs
  {
    var p := s.procs[r];
    && (x in p.pending ==> PendingAnswer(p, x))
    && (p.Owning() ==> x in s.idem && s.idem[x].processing)
    && (p.pc.ClosingKey? || p.pc.Closing? ==> x in p.pending)
  }

  ghost predicate ProcAnswers(s: State, x: Slot) {
    forall r :: r in s.procs && ClientSlot(s.procs[r].req) == x ==> ProcAnswer(s, r, x)
  }

  ghost predicate Answers(s: State, x: Slot) { RecordAnswer(s, x) && ProcAnswers(s, x) }

  // ---- Steps ----------------------------------------------------------------------------------------------

  predicate IsMove(a: Action) {
    a.LookupKey? || a.InsertKey? || a.LookupDedup? || a.InsertDedup? || a.InsertExecution? || a.CompleteKey?
    || a.CompleteDedup? || a.Send? || a.CommitLinks? || a.Abort?
  }

  lemma {:induction false} MoveIsLocal(env: Env, s: State, a: Action)
    requires Enabled(env, s, a) && IsMove(a)
    ensures a.r in s.procs && s.procs[a.r].Active()
    ensures var s' := Next(env, s, a);
            && Moved(s, a.r, s'.procs[a.r], s') && s'.procs[a.r].req == s.procs[a.r].req
            && Computed(s'.procs[a.r].pc).None?
  {
  }

  lemma {:induction false} EarlyMoveAnswer(env: Env, s: State, a: Action, x: Slot)
    requires Enabled(env, s, a) && (a.LookupKey? || a.InsertKey? || a.LookupDedup? || a.InsertDedup?)
    requires ForClients(env, x) && PendingOk(env, s, a.r) && ClientSlot(s.procs[a.r].req) == x && ProcAnswer(s, a.r, x)
    ensures ProcAnswer(Next(env, s, a), a.r, x)
  {
    NotADedupSlot(env, x, s.procs[a.r].req.op);
  }

  lemma {:induction false} LateMoveAnswer(env: Env, s: State, a: Action, x: Slot)
    requires Enabled(env, s, a) && (a.InsertExecution? || a.CompleteKey? || a.CompleteDedup?)
    requires ForClients(env, x) && PendingOk(env, s, a.r) && ClientSlot(s.procs[a.r].req) == x && ProcAnswer(s, a.r, x)
    ensures ProcAnswer(Next(env, s, a), a.r, x)
  {
    NotADedupSlot(env, x, s.procs[a.r].req.op);
  }

  lemma {:induction false} PlainMoveAnswer(env: Env, s: State, a: Action, x: Slot)
    requires Enabled(env, s, a) && (a.Send? || a.CommitLinks? || a.Abort?)
    requires PendingOk(env, s, a.r) && ClientSlot(s.procs[a.r].req) == x && ProcAnswer(s, a.r, x)
    ensures ProcAnswer(Next(env, s, a), a.r, x)
  {
  }

  lemma {:induction false} MoveAnswer(env: Env, s: State, a: Action, x: Slot, s': State)
    requires Enabled(env, s, a) && IsMove(a) && s' == Next(env, s, a) && a.r in s.procs && a.r in s'.procs
    requires ForClients(env, x) && PendingOk(env, s, a.r) && ClientSlot(s.procs[a.r].req) == x && ProcAnswer(s, a.r, x)
    ensures ProcAnswer(s', a.r, x)
  {
    if a.Send? || a.CommitLinks? || a.Abort? { PlainMoveAnswer(env, s, a, x); }
    else if a.InsertExecution? || a.CompleteKey? || a.CompleteDedup? { LateMoveAnswer(env, s, a, x); }
    else { EarlyMoveAnswer(env, s, a, x); }
  }

  lemma {:induction false} MoveKeepsAnswers(env: Env, s: State, a: Action, x: Slot)
    requires ForClients(env, x) && Answers(s, x) && Enabled(env, s, a) && IsMove(a)
    requires a.r in s.procs ==> PendingOk(env, s, a.r)
    ensures Answers(Next(env, s, a), x)
  {
    var s' := Next(env, s, a);
    MoveIsLocal(env, s, a);
    forall k | k in s'.procs && ClientSlot(s'.procs[k].req) == x ensures ProcAnswer(s', k, x) {
      assert ProcAnswer(s, k, x);
      if k == a.r { MoveAnswer(env, s, a, x, s'); }
    }
  }

  /** A commit of a request for slot x publishes what it has computed. */
  lemma {:induction false} CommitOwnAnswer(env: Env, s: State, a: Action, x: Slot)
    requires Enabled(env, s, a) && IsCommit(a) && ProcOk(env, s, a.r) && ClientSlot(s.procs[a.r].req) == x
    requires ProcAnswer(s, a.r, x)
    ensures var s' := Next(env, s, a);
            && x in s.procs[a.r].pending && x in s'.idem && s'.idem[x] == s.procs[a.r].pending[x]
            && s'.idem[x].creator == a.r && RecordAnswer(s', x) && ProcAnswer(s', a.r, x)
  {
    assert PendingOk(env, s, a.r);
  }

  /** ... and takes the mark from nobody else's key. */
  lemma {:induction false} CommitOtherAnswer(env: Env, s: State, a: Action, x: Slot, k: nat)
    requires Enabled(env, s, a) && IsCommit(a) && k in s.procs && k != a.r && ProcAnswer(s, k, x)
    requires ProcOk(env, s, a.r) && ProcOk(env, s, k) && ClientSlot(s.procs[k].req) == x
    requires x in s.procs[a.r].pending ==> ClientSlot(s.procs[a.r].req) == x
    ensures ProcAnswer(Next(env, s, a), k, x)
  {
    assert PendingOk(env, s, a.r);
  }

  lemma {:induction false} CommitElsewhere(env: Env, s: State, a: Action, x: Slot)
    requires Enabled(env, s, a) && IsCommit(a) && x !in s.procs[a.r].pending && RecordAnswer(s, x)
    requires ClientSlot(s.procs[a.r].req) != x
    ensures RecordAnswer(Next(env, s, a), x)
  {
  }

  lemma {:induction false} CommitKeepsRecord(env: Env, s: State, a: Action, x: Slot)
    requires ForClients(env, x) && Answers(s, x) && Enabled(env, s, a) && IsCommit(a) && ProcOk(env, s, a.r)
    ensures RecordAnswer(Next(env, s, a), x)
    ensures ClientSlot(s.procs[a.r].req) == x ==> ProcAnswer(Next(env, s, a), a.r, x)
    ensures x in s.procs[a.r].pending ==> ClientSlot(s.procs[a.r].req) == x
  {
    assert PendingOk(env, s, a.r);
    NotADedupSlot(env, x, s.procs[a.r].req.op);
    if ClientSlot(s.procs[a.r].req) == x {
      assert ProcAnswer(s, a.r, x);
      CommitOwnAnswer(env, s, a, x);
    } else {
      CommitElsewhere(env, s, a, x);
    }
  }

  lemma {:induction false} CommitKeepsProcs(env: Env, s: State, a: Action, x: Slot, s': State)
    requires ProcsOk(env, s) && ProcAnswers(s, x) && Enabled(env, s, a) && IsCommit(a) && s' == Next(env, s, a)
    requires x in s.procs[a.r].pending ==> ClientSlot(s.procs[a.r].req) == x
    requires a.r in s'.procs && s'.procs.Keys == s.procs.Keys && s'.procs[a.r].req == s.procs[a.r].req
    requires forall k :: k in s.procs && k != a.r ==> s'.procs[k] == s.procs[k]
    requires ClientSlot(s.procs[a.r].req) == x ==> ProcAnswer(s', a.r, x)
    ensures ProcAnswers(s', x)
  {
    assert ProcOk(env, s, a.r);
    forall k | k in s'.procs && ClientSlot(s'.procs[k].req) == x ensures ProcAnswer(s', k, x) {
      if k != a.r {
        assert ProcAnswer(s, k, x) && ProcOk(env, s, k);
        CommitOtherAnswer(env, s, a, x, k);
      }
    }
  }

  lemma {:induction false} CommitMovesOne(env: Env, s: State, a: Action)
    requires Enabled(env, s, a) && IsCommit(a)
    ensures var s' := Next(env, s, a);
            && a.r in s'.procs && s'.procs.Keys == s.procs.Keys && s'.procs[a.r].req == s.procs[a.r].req
            && (forall k :: k in s.procs && k != a.r ==> s'.procs[k] == s.procs[k])
            && s'.idem == s.idem + s.procs[a.r].pending && s'.clock == s.clock
  {
  }

  lemma {:induction false} CommitKeepsAnswers(env: Env, s: State, a: Action, x: Slot)
    requires ForClients(env, x) && ProcsOk(env, s) && Answers(s, x) && Enabled(env, s, a) && IsCommit(a)
    ensures Answers(Next(env, s, a), x)
  {
    assert ProcOk(env, s, a.r);
    CommitKeepsRecord(env, s, a, x);
    CommitMovesOne(env, s, a);
    CommitKeepsProcs(env, s, a, x, Next(env, s, a));
  }

  lemma {:induction false} ArriveKeepsAnswers(env: Env, s: State, r: nat, req: Request, x: Slot)
    requires Answers(s, x) && r !in s.procs
    ensures Answers(Next(env, s, Arrive(r, req)), x)
  {
    var s' := Next(env, s, Arrive(r, req));
    forall k | k in s'.procs && ClientSlot(s'.procs[k].req) == x ensures ProcAnswer(s', k, x) {
      if k != r { assert ProcAnswer(s, k, x); }
    }
  }

  lemma {:induction false} AgeKeepsAnswers(env: Env, s: State, a: Action, x: Slot)
    requires ProcsOk(env, s) && Answers(s, x) && Enabled(env, s, a) && (a.Tick? || a.Purge?)
    ensures Answers(Next(env, s, a), x)
  {
    var s' := Next(env, s, a);
    forall k | k in s'.procs && ClientSlot(s'.procs[k].req) == x ensures ProcAnswer(s', k, x) {
      assert ProcAnswer(s, k, x) && ProcOk(env, s, k);
    }
  }

  lemma {:induction false} StepKeepsAnswers(env: Env, s: State, a: Action, x: Slot)
    requires ForClients(env, x) && Inv(env, s) && Answers(s, x) && Enabled(env, s, a)
    ensures Answers(Next(env, s, a), x)
  {
    if a.Arrive? { ArriveKeepsAnswers(env, s, a.r, a.req, x); }
    else if a.Tick? || a.Purge? { AgeKeepsAnswers(env, s, a, x); }
    else if IsCommit(a) { CommitKeepsAnswers(env, s, a, x); }
    else {
      assert a.r in s.procs ==> ProcOk(env, s, a.r);
      MoveKeepsAnswers(env, s, a, x);
    }
  }

  lemma {:induction false} RunKeepsAnswers(env: Env, tr: seq<State>, acts: seq<Action>, i: nat, x: Slot)
    requires Run(env, tr, acts) && i < |tr| && ForClients(env, x)
    ensures Answers(tr[i], x)
  {
    if i > 0 {
      RunKeepsAnswers(env, tr, acts, i - 1, x);
      RunKeepsInv(env, tr, acts, i - 1);
      StepKeepsAnswers(env, tr[i - 1], acts[i - 1], x);
    }
  }

  // ---- Main results over every run -------------------------------------------------------------------------

  /** A complete record under the slot. */
  predicate Stored(s: State, slot: Slot, rec: Record) {
    slot in s.idem && s.idem[slot] == rec && !rec.processing
  }

  /** No transaction that is about to commit has written a record whose answer is stored. */
  lemma {:induction false} StoredIsUntouched(env: Env, s: State, r: nat, x: Slot, rec: Record)
    requires r in s.procs && Stored(s, x, rec) && ForClients(env, x) && Answers(s, x) && ProcOk(env, s, r)
    ensures x !in s.procs[r].pending
  {
    assert PendingOk(env, s, r);
    NotADedupSlot(env, x, s.procs[r].req.op);
    if ClientSlot(s.procs[r].req) == x { assert ProcAnswer(s, r, x); }
  }

  lemma {:induction false} StepKeepsStored(env: Env, s: State, a: Action, slot: Slot, rec: Record)
    requires Enabled(env, s, a) && Stored(s, slot, rec) && s.clock < rec.expires
    requires IsCommit(a) ==> slot !in s.procs[a.r].pending
    ensures Stored(Next(env, s, a), slot, rec)
  {
    if IsMove(a) { MoveIsLocal(env, s, a); }
  }

  lemma {:induction false} RunStepKeepsStored(env: Env, tr: seq<State>, acts: seq<Action>, j: nat, slot: Slot, rec: Record)
    requires Run(env, tr, acts) && j < |acts| && Stored(tr[j], slot, rec) && tr[j].clock < rec.expires
    requires ForClients(env, slot)
    ensures Stored(tr[j + 1], slot, rec)
  {
    var s, a := tr[j], acts[j];
    if IsCommit(a) {
      RunKeepsInv(env, tr, acts, j);
      RunKeepsAnswers(env, tr, acts, j, slot);
      assert ProcOk(env, s, a.r);
      StoredIsUntouched(env, s, a.r, slot, rec);
    }
    StepKeepsStored(env, s, a, slot, rec);
  }

  lemma {:induction false} StepKeepsClock(env: Env, s: State, a: Action)
    requires Enabled(env, s, a)
    ensures s.clock <= Next(env, s, a).clock
  {
  }

  lemma {:induction false} RunStepKeepsClock(env: Env, tr: seq<State>, acts: seq<Action>, i: nat)
    requires Run(env, tr, acts) && i < |acts|
    ensures tr[i].clock <= tr[i + 1].clock
  {
    StepKeepsClock(env, tr[i], acts[i]);
  }

  predicate ClockSteps(tr: seq<State>, i: nat) { i + 1 < |tr| ==> tr[i].clock <= tr[i + 1].clock }

  lemma {:induction false} ClocksAscend(tr: seq<State>, i: nat, j: nat)
    requires i <= j < |tr| && forall k: nat :: ClockSteps(tr, k)
    ensures tr[i].clock <= tr[j].clock
    decreases j
  {
    if i < j {
      ClocksAscend(tr, i, j - 1);
      assert ClockSteps(tr, j - 1);
    }
  }

  lemma {:induction false} ClockNeverGoesBack(env: Env, tr: seq<State>, acts: seq<Action>, i: nat, j: nat)
    requires Run(env, tr, acts) && i <= j < |tr|
    ensures tr[i].clock <= tr[j].clock
  {
    forall k: nat ensures ClockSteps(tr, k) {
      if k + 1 < |tr| { RunStepKeepsClock(env, tr, acts, k); }
    }
    ClocksAscend(tr, i, j);
  }

  lemma {:induction false} StoredStays(env: Env, tr: seq<State>, acts: seq<Action>, i: nat, j: nat, slot: Slot, rec: Record)
    requires Run(env, tr, acts) && i <= j < |tr| && Stored(tr[i], slot, rec) && tr[j].clock < rec.expires
    requires ForClients(env, slot)
    ensures Stored(tr[j], slot, rec)
    decreases j - i
  {
    if i < j {
      ClockNeverGoesBack(env, tr, acts, i, j);
      RunStepKeepsStored(env, tr, acts, i, slot, rec);
      StoredStays(env, tr, acts, i + 1, j, slot, rec);
    }
  }

  /** Once an answer is stored for a key, it is the answer its own request computed, and until
      the key expires every request with that key is answered by it: the same body is replayed
      to a request with the same body, and any other body is refused. The key is any that is not
      a deduplication key of its user; the other requests of the run are arbitrary. */
  lemma {:induction false} StoredAnswerIsReplayed(env: Env, tr: seq<State>, acts: seq<Action>, i: nat, j: nat,
                                                  slot: Slot, rec: Record, r: nat)
    requires Run(env, tr, acts) && i <= j < |acts| && Stored(tr[i], slot, rec) && !IsDedupKey(env, slot.user, slot.key)
    requires acts[j] == LookupKey(r) && ClientSlot(tr[j].procs[r].req) == slot && tr[j].clock < rec.expires
    ensures rec.creator in tr[i].procs && ClientSlot(tr[i].procs[rec.creator].req) == slot
    ensures rec.body.Some? && Computed(tr[i].procs[rec.creator].pc) == rec.body
    ensures tr[j + 1].procs[r].pc ==
            Answered(if tr[j].procs[r].req.bodyHash == rec.hash then Replay(rec.body) else BodyConflict)
  {
    RunKeepsAnswers(env, tr, acts, i, slot);
    StoredStays(env, tr, acts, i, j, slot, rec);
  }

  /** A request that finds a live record of its key and body is answered with what the record's
      creator has computed; when that is nothing, because the creator is still at work or has
      died, it is refused as concurrent. Marking a key as failed is rolled back with the request
      that failed, so a key whose request died after its first commit stays busy until it expires. */
  lemma {:induction false} FailedKeyStaysBusy(env: Env, tr: seq<State>, acts: seq<Action>, i: nat, r: nat)
    requires Run(env, tr, acts) && i < |acts| && acts[i] == LookupKey(r)
    requires var slot := ClientSlot(tr[i].procs[r].req);
             && Live(tr[i].idem, slot, tr[i].clock) && tr[i].idem[slot].hash == tr[i].procs[r].req.bodyHash
             && !IsDedupKey(env, slot.user, slot.key)
    ensures var creator := tr[i].idem[ClientSlot(tr[i].procs[r].req)].creator;
            && creator in tr[i].procs
            && tr[i + 1].procs[r].pc == Answered(match Computed(tr[i].procs[creator].pc)
                                                 case Some(b) => Replay(Some(b))
                                                 case None => Busy)
  {
    RunKeepsAnswers(env, tr, acts, i, ClientSlot(tr[i].procs[r].req));
  }
}
