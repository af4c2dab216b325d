/** What every run of the request-side state machine keeps, whatever the client keys are. */
module ExecuteRequestsProofs {
  import opened ExecuteRequests

  // ---- The invariant ------------------------------------------------------------------------

  predicate SameInsert(a: Record, b: Record) {
    a.hash == b.hash && a.expires == b.expires && a.since == b.since && a.creator == b.creator
  }

  /** What an open transaction has written, and what it may rely on. */
  ghost predicate PendingOk(env: Env, s: State, r: nat)
    requires r in s.procs
  {
    var p := s.procs[r];
    var slot := ClientSlot(p.req);
    && p.pending.Keys <= {slot, DedupSlot(env, p.req.op)}
    && (!p.Inserting() && !p.pc.ClosingKey? && !p.pc.Closing? ==> p.pending == map[])
    && (p.Inserting() ==>
          && slot in p.pending && p.pending[slot].hash == p.req.bodyHash && p.pending[slot].expires == p.deadline
          && forall x :: x in p.pending ==> x !in s.idem && p.pending[x].creator == r && p.pending[x].since <= s.clock)
    && (p.pc.ClosingKey? || p.pc.Closing? ==>
          forall x :: x in p.pending ==> x in s.idem && SameInsert(p.pending[x], s.idem[x]))
  }

  ghost predicate ProcOk(env: Env, s: State, r: nat)
    requires r in s.procs
  {
    var p := s.procs[r];
    var slot := ClientSlot(p.req);
    && PendingOk(env, s, r)
    && (p.Active() && !p.pc.Arrived? ==> s.clock < p.deadline)
    && (p.pc.RowAdded? ==> p.pc.e < s.nextExec && p.pc.e !in s.execs && !Taken(s.execs, p.req.key))
    && (p.Owning() ==>
          && slot in s.idem && s.idem[slot].creator == r && s.idem[slot].expires == p.deadline
          && s.idem[slot].hash == p.req.bodyHash && r in s.grants
          && p.pc.e in s.execs && s.execs[p.pc.e] == Execution(p.req.key, p.req.op, p.pc.j, r))
    && (r in s.grants ==> !p.Inserting() && !p.pc.Arrived? && !p.pc.Absent?)
  }

  ghost predicate PairOk(s: State, r1: nat, r2: nat)
    requires r1 in s.procs && r2 in s.procs
  {
    r1 != r2 ==>
      && s.procs[r1].pending.Keys !! s.procs[r2].pending.Keys
      && (s.procs[r1].pc.RowAdded? && s.procs[r2].pc.RowAdded? ==>
            s.procs[r1].req.key != s.procs[r2].req.key && s.procs[r1].pc.e != s.procs[r2].pc.e)
  }

  ghost predicate ExecOk(s: State, e: nat)
    requires e in s.execs
  {
    var x := s.execs[e];
    e < s.nextExec && x.creator in s.procs && s.procs[x.creator].req.key == x.key && s.procs[x.creator].req.op == x.op
    && x.creator in s.grants
  }

  ghost predicate SameKeySameExecution(s: State, e1: nat, e2: nat)
    requires e1 in s.execs && e2 in s.execs
  {
    s.execs[e1].key == s.execs[e2].key ==> e1 == e2
  }

  ghost predicate RecordOk(env: Env, s: State, x: Slot)
    requires x in s.idem
  {
    var c := s.idem[x].creator;
    c in s.procs && (x == ClientSlot(s.procs[c].req) || x == DedupSlot(env, s.procs[c].req.op))
  }

  ghost predicate GrantOk(s: State, r: nat)
    requires r in s.grants
  {
    var g := s.grants[r];
    && r in s.procs && g.slot == ClientSlot(s.procs[r].req) && g.since <= s.clock
    && (g.until <= s.clock || (g.slot in s.idem && s.idem[g.slot].creator == r && s.idem[g.slot].expires == g.until))
  }

  /** Two grants of one key never overlap in time. */
  ghost predicate Apart(g1: Grant, g2: Grant) {
    g1.slot == g2.slot ==> g1.until <= g2.since || g2.until <= g1.since
  }

  ghost predicate GrantsBefore(s: State, r: nat, p: Process) {
    var slot := ClientSlot(p.req);
    p.Inserting() && slot in p.pending ==>
      forall g :: g in s.grants && s.grants[g].slot == slot ==> s.grants[g].until <= p.pending[slot].since
  }

  ghost predicate ProcsOk(env: Env, s: State) {
    forall r :: r in s.procs ==> ProcOk(env, s, r) && GrantsBefore(s, r, s.procs[r])
  }

  ghost predicate PairsOk(s: State) {
    forall r1, r2 :: r1 in s.procs && r2 in s.procs ==> PairOk(s, r1, r2)
  }

  ghost predicate ExecsOk(s: State) {
    && (forall e :: e in s.execs ==> ExecOk(s, e))
    && (forall e1, e2 :: e1 in s.execs && e2 in s.execs ==> SameKeySameExecution(s, e1, e2))
  }

  ghost predicate RecordsOk(env: Env, s: State) {
    forall x :: x in s.idem ==> RecordOk(env, s, x)
  }

  ghost predicate GrantsOk(s: State) {
    && (forall r :: r in s.grants ==> GrantOk(s, r))
    && (forall r1, r2 :: r1 in s.grants && r2 in s.grants && r1 != r2 ==> Apart(s.grants[r1], s.grants[r2]))
  }

  ghost predicate Inv(env: Env, s: State) {
    ProcsOk(env, s) && PairsOk(s) && ExecsOk(s) && RecordsOk(env, s) && GrantsOk(s)
  }

  // ---- Steps that change one process only -----------------------------------------------------

  /** The committed tables are the same, and no request has gone or changed its content. */
  ghost predicate TablesKept(s: State, s': State) {
    && s'.clock == s.clock && s'.idem == s.idem && s'.execs == s.execs && s'.grants == s.grants
    && s.nextExec <= s'.nextExec
    && forall k :: k in s.procs ==> k in s'.procs && s'.procs[k].req == s.procs[k].req
  }

  lemma {:induction false} ExecsKept(s: State, s': State)
    requires ExecsOk(s) && TablesKept(s, s')
    ensures ExecsOk(s')
  {
    forall e | e in s'.execs ensures ExecOk(s', e) { assert ExecOk(s, e); }
    forall e1, e2 | e1 in s'.execs && e2 in s'.execs ensures SameKeySameExecution(s', e1, e2) {
      assert SameKeySameExecution(s, e1, e2);
    }
  }

  lemma {:induction false} RecordsKept(env: Env, s: State, s': State)
    requires RecordsOk(env, s) && TablesKept(s, s')
    ensures RecordsOk(env, s')
  {
    forall x | x in s'.idem ensures RecordOk(env, s', x) { assert RecordOk(env, s, x); }
  }

  lemma {:induction false} GrantsKept(s: State, s': State)
    requires GrantsOk(s) && TablesKept(s, s')
    ensures GrantsOk(s')
  {
    forall g | g in s'.grants ensures GrantOk(s', g) { assert GrantOk(s, g); }
  }

  /** A process that did not take the step. */
  lemma {:induction false} ProcKept(env: Env, s: State, s': State, k: nat)
    requires TablesKept(s, s') && k in s.procs && s'.procs[k] == s.procs[k]
    requires ProcOk(env, s, k) && GrantsBefore(s, k, s.procs[k])
    ensures ProcOk(env, s', k) && GrantsBefore(s', k, s'.procs[k])
  {
    assert PendingOk(env, s', k);
  }

  /** `s'` is s with process r replaced by p (and possibly ids taken from the sequences). */
  ghost predicate Moved(s: State, r: nat, p: Process, s': State) {
    s' == Put(s, r, p).(nextExec := s'.nextExec, nextJob := s'.nextJob) && s.nextExec <= s'.nextExec
  }

  lemma {:induction false} MoveKeepsProcs(env: Env, s: State, r: nat, p: Process, s': State)
    requires ProcsOk(env, s) && Moved(s, r, p, s') && r in s.procs && p.req == s.procs[r].req
    requires ProcOk(env, s', r) && GrantsBefore(s, r, p)
    ensures ProcsOk(env, s')
  {
    forall k | k in s'.procs ensures ProcOk(env, s', k) && GrantsBefore(s', k, s'.procs[k]) {
      if k != r { ProcKept(env, s, s', k); }
    }
  }

  lemma {:induction false} MoveKeepsPairs(s: State, r: nat, p: Process, s': State)
    requires PairsOk(s) && Moved(s, r, p, s') && r in s.procs
    requires forall k :: k in s.procs && k != r ==> PairOk(s', r, k) && PairOk(s', k, r)
    ensures PairsOk(s')
  {
    forall r1, r2 | r1 in s'.procs && r2 in s'.procs ensures PairOk(s', r1, r2) {
      assert r1 != r && r2 != r ==> PairOk(s, r1, r2);
    }
  }

  lemma {:induction false} MoveKeepsInv(env: Env, s: State, r: nat, p: Process, s': State)
    requires Inv(env, s) && Moved(s, r, p, s') && r in s.procs && p.req == s.procs[r].req
    requires ProcOk(env, s', r) && GrantsBefore(s, r, p)
    requires forall k :: k in s.procs && k != r ==> PairOk(s', r, k) && PairOk(s', k, r)
    ensures Inv(env, s')
  {
    MoveKeepsProcs(env, s, r, p, s');
    MoveKeepsPairs(s, r, p, s');
    assert TablesKept(s, s');
    ExecsKept(s, s');
    RecordsKept(env, s, s');
    GrantsKept(s, s');
  }

  /** The same for a process that writes nothing new. */
  lemma {:induction false} QuietMoveKeepsInv(env: Env, s: State, r: nat, p: Process, s': State)
    requires Inv(env, s) && Moved(s, r, p, s') && r in s.procs && p.req == s.procs[r].req
    requires p.pending == map[] || (p.pending == s.procs[r].pending && p.Inserting() && s.procs[r].Inserting())
    requires ProcOk(env, s', r) && !p.pc.RowAdded?
    ensures Inv(env, s')
  {
    assert GrantsBefore(s, r, s.procs[r]);
    forall k | k in s.procs && k != r ensures PairOk(s', r, k) && PairOk(s', k, r) {
      assert PairOk(s, r, k) && PairOk(s, k, r);
    }
    MoveKeepsInv(env, s, r, p, s');
  }

  /** ... and for one that writes a record nobody else has locked. */
  lemma {:induction false} LockingMoveKeepsInv(env: Env, s: State, r: nat, p: Process, slot: Slot)
    requires Inv(env, s) && r in s.procs && p.req == s.procs[r].req
    requires p.pending.Keys <= s.procs[r].pending.Keys + {slot} && !LockedByOther(s, r, slot)
    requires ProcOk(env, Put(s, r, p), r) && GrantsBefore(s, r, p) && !p.pc.RowAdded?
    ensures Inv(env, Put(s, r, p))
  {
    var s' := Put(s, r, p);
    forall k | k in s.procs && k != r ensures PairOk(s', r, k) && PairOk(s', k, r) {
      assert PairOk(s, r, k) && PairOk(s, k, r);
    }
    MoveKeepsInv(env, s, r, p, s');
  }

  lemma {:induction false} ArriveProc(env: Env, s: State, r: nat, req: Request)
    requires r !in s.procs && (r in s.grants ==> GrantOk(s, r))
    ensures var s' := Next(env, s, Arrive(r, req));
            && TablesKept(s, s') && ProcOk(env, s', r) && GrantsBefore(s', r, s'.procs[r])
            && s'.procs[r].pending == map[] && !s'.procs[r].pc.RowAdded?
            && s'.procs.Keys == s.procs.Keys + {r} && forall k :: k in s.procs ==> s'.procs[k] == s.procs[k]
  {
  }

  lemma {:induction false} ArriveKeepsInv(env: Env, s: State, r: nat, req: Request)
    requires Inv(env, s) && r !in s.procs
    ensures Inv(env, Next(env, s, Arrive(r, req)))
  {
    var s' := Next(env, s, Arrive(r, req));
    assert r in s.grants ==> GrantOk(s, r);
    ArriveProc(env, s, r, req);
    forall k | k in s'.procs ensures ProcOk(env, s', k) && GrantsBefore(s', k, s'.procs[k]) {
      if k != r { ProcKept(env, s, s', k); }
    }
    forall r1, r2 | r1 in s'.procs && r2 in s'.procs ensures PairOk(s', r1, r2) {
      assert r1 != r && r2 != r ==> PairOk(s, r1, r2);
    }
    ExecsKept(s, s');
    RecordsKept(env, s, s');
    GrantsKept(s, s');
  }

  lemma {:induction false} LookupKeyKeepsInv(env: Env, s: State, r: nat)
    requires Inv(env, s) && Enabled(env, s, LookupKey(r))
    ensures Inv(env, Next(env, s, LookupKey(r)))
  {
    assert ProcOk(env, s, r);
    LookupKeyProc(env, s, r);
    QuietMoveKeepsInv(env, s, r, AfterLookupKey(s, s.procs[r]), Next(env, s, LookupKey(r)));
  }

  lemma {:induction false} LookupKeyProc(env: Env, s: State, r: nat)
    requires Enabled(env, s, LookupKey(r)) && ProcOk(env, s, r)
    ensures var p, s' := AfterLookupKey(s, s.procs[r]), Next(env, s, LookupKey(r));
            && ProcOk(env, s', r) && Moved(s, r, p, s') && p.req == s.procs[r].req && p.pending == map[]
            && !p.pc.RowAdded?
  {
  }

  lemma {:induction false} InsertKeyProc(env: Env, s: State, r: nat)
    requires Enabled(env, s, InsertKey(r)) && ProcOk(env, s, r)
    ensures ProcOk(env, Next(env, s, InsertKey(r)), r)
  {
  }

  lemma {:induction false} InsertKeyKeepsInv(env: Env, s: State, r: nat)
    requires Inv(env, s) && Enabled(env, s, InsertKey(r))
    ensures Inv(env, Next(env, s, InsertKey(r)))
  {
    var p := s.procs[r];
    var slot := ClientSlot(p.req);
    var p' := AfterInsertKey(s, r, p);
    InsertKeyProc(env, s, r);
    assert PendingOk(env, s, r);
    assert GrantsBefore(s, r, p') by {
      forall g | g in s.grants && s.grants[g].slot == slot && slot !in s.idem ensures s.grants[g].until <= s.clock {
        assert GrantOk(s, g);
      }
    }
    LockingMoveKeepsInv(env, s, r, p', slot);
  }

  lemma {:induction false} LookupDedupProc(env: Env, s: State, r: nat)
    requires Enabled(env, s, LookupDedup(r)) && ProcOk(env, s, r) && GrantsBefore(s, r, s.procs[r])
    ensures ProcOk(env, Next(env, s, LookupDedup(r)), r)
    ensures var p' := AfterLookupDedup(env, s, r, s.procs[r]);
            && GrantsBefore(s, r, p') && p'.req == s.procs[r].req && !p'.pc.RowAdded?
            && p'.pending.Keys <= s.procs[r].pending.Keys
  {
  }

  lemma {:induction false} LookupDedupKeepsInv(env: Env, s: State, r: nat)
    requires Inv(env, s) && Enabled(env, s, LookupDedup(r))
    ensures Inv(env, Next(env, s, LookupDedup(r)))
  {
    var slot := ClientSlot(s.procs[r].req);
    LookupDedupProc(env, s, r);
    assert PendingOk(env, s, r) && s.procs[r].Inserting();
    assert !LockedByOther(s, r, slot) by {
      forall k | k in s.procs && k != r ensures slot !in s.procs[k].pending { assert PairOk(s, r, k); }
    }
    LockingMoveKeepsInv(env, s, r, AfterLookupDedup(env, s, r, s.procs[r]), slot);
  }

  lemma {:induction false} InsertDedupProc(env: Env, s: State, r: nat)
    requires Enabled(env, s, InsertDedup(r)) && ProcOk(env, s, r) && GrantsBefore(s, r, s.procs[r])
    ensures ProcOk(env, Next(env, s, InsertDedup(r)), r)
    ensures GrantsBefore(s, r, AfterInsertDedup(env, s, r, s.procs[r]))
  {
  }

  lemma {:induction false} InsertDedupKeepsInv(env: Env, s: State, r: nat)
    requires Inv(env, s) && Enabled(env, s, InsertDedup(r))
    ensures Inv(env, Next(env, s, InsertDedup(r)))
  {
    InsertDedupProc(env, s, r);
    LockingMoveKeepsInv(env, s, r, AfterInsertDedup(env, s, r, s.procs[r]), DedupSlot(env, s.procs[r].req.op));
  }

  lemma {:induction false} InsertExecutionProc(env: Env, s: State, r: nat)
    requires Enabled(env, s, InsertExecution(r)) && ProcOk(env, s, r) && GrantsBefore(s, r, s.procs[r])
    requires s.nextExec !in s.execs
    ensures var s' := Next(env, s, InsertExecution(r));
            && ProcOk(env, s', r) && GrantsBefore(s, r, s'.procs[r]) && Moved(s, r, s'.procs[r], s')
            && s'.procs[r].pending.Keys <= s.procs[r].pending.Keys && s'.procs[r].req == s.procs[r].req
            && (s'.procs[r].pc.RowAdded? ==> s'.procs[r].pc.e == s.nextExec)
  {
  }

  lemma {:induction false} InsertExecutionPairs(env: Env, s: State, r: nat, k: nat)
    requires Enabled(env, s, InsertExecution(r)) && k in s.procs && k != r && ProcOk(env, s, k)
    requires PairOk(s, r, k) && PairOk(s, k, r)
    ensures var s' := Next(env, s, InsertExecution(r)); PairOk(s', r, k) && PairOk(s', k, r)
  {
  }

  lemma {:induction false} InsertExecutionKeepsInv(env: Env, s: State, r: nat)
    requires Inv(env, s) && Enabled(env, s, InsertExecution(r))
    ensures Inv(env, Next(env, s, InsertExecution(r)))
  {
    var s' := Next(env, s, InsertExecution(r));
    assert s.nextExec in s.execs ==> ExecOk(s, s.nextExec);
    InsertExecutionProc(env, s, r);
    forall k | k in s.procs && k != r ensures PairOk(s', r, k) && PairOk(s', k, r) {
      InsertExecutionPairs(env, s, r, k);
    }
    MoveKeepsInv(env, s, r, s'.procs[r], s');
  }

  lemma {:induction false} CompleteKeyProc(env: Env, s: State, r: nat)
    requires Enabled(env, s, CompleteKey(r)) && ProcOk(env, s, r) && GrantsBefore(s, r, s.procs[r])
    ensures var p := AfterCompleteKey(s, r, s.procs[r]);
            && Next(env, s, CompleteKey(r)) == Put(s, r, p) && ProcOk(env, Put(s, r, p), r) && GrantsBefore(s, r, p)
            && p.req == s.procs[r].req && !p.pc.RowAdded?
            && p.pending.Keys <= s.procs[r].pending.Keys + {ClientSlot(s.procs[r].req)}
  {
  }

  lemma {:induction false} CompleteKeyKeepsInv(env: Env, s: State, r: nat)
    requires Inv(env, s) && Enabled(env, s, CompleteKey(r))
    ensures Inv(env, Next(env, s, CompleteKey(r)))
  {
    assert ProcOk(env, s, r) && GrantsBefore(s, r, s.procs[r]);
    CompleteKeyProc(env, s, r);
    LockingMoveKeepsInv(env, s, r, AfterCompleteKey(s, r, s.procs[r]), ClientSlot(s.procs[r].req));
  }

  lemma {:induction false} CompleteDedupProc(env: Env, s: State, r: nat)
    requires Enabled(env, s, CompleteDedup(r)) && ProcOk(env, s, r) && GrantsBefore(s, r, s.procs[r])
    ensures var p := AfterCompleteDedup(env, s, r, s.procs[r]);
            && Next(env, s, CompleteDedup(r)) == Put(s, r, p) && ProcOk(env, Put(s, r, p), r) && GrantsBefore(s, r, p)
            && p.req == s.procs[r].req && !p.pc.RowAdded?
            && p.pending.Keys <= s.procs[r].pending.Keys + {DedupSlot(env, s.procs[r].req.op)}
  {
  }

  lemma {:induction false} CompleteDedupKeepsInv(env: Env, s: State, r: nat)
    requires Inv(env, s) && Enabled(env, s, CompleteDedup(r))
    ensures Inv(env, Next(env, s, CompleteDedup(r)))
  {
    assert ProcOk(env, s, r) && GrantsBefore(s, r, s.procs[r]);
    CompleteDedupProc(env, s, r);
    LockingMoveKeepsInv(env, s, r, AfterCompleteDedup(env, s, r, s.procs[r]), DedupSlot(env, s.procs[r].req.op));
  }

  lemma {:induction false} OtherMoveProc(env: Env, s: State, a: Action)
    requires Enabled(env, s, a) && (a.Send? || a.CommitLinks? || a.Abort?) && ProcOk(env, s, a.r)
    ensures var s' := Next(env, s, a);
            && ProcOk(env, s', a.r) && Moved(s, a.r, s'.procs[a.r], s') && s'.procs[a.r].req == s.procs[a.r].req
            && s'.procs[a.r].pending == map[] && !s'.procs[a.r].pc.RowAdded?
  {
  }

  /** Dispatching, the second commit and giving up. */
  lemma {:induction false} OtherMoveKeepsInv(env: Env, s: State, a: Action)
    requires Inv(env, s) && Enabled(env, s, a) && (a.Send? || a.CommitLinks? || a.Abort?)
    ensures Inv(env, Next(env, s, a))
  {
    OtherMoveProc(env, s, a);
    QuietMoveKeepsInv(env, s, a.r, Next(env, s, a).procs[a.r], Next(env, s, a));
  }

  // ---- Commits --------------------------------------------------------------------------------

  /** s' is s after transaction r became visible, possibly with its new execution. */
  ghost predicate Published(s: State, r: nat, s': State)
    requires r in s.procs
  {
    && r in s'.procs && s' == Publish(s.(execs := s'.execs), r, s'.procs[r].pc)
    && (forall e :: e in s.execs ==> e in s'.execs && s'.execs[e] == s.execs[e])
    && (forall e :: e in s'.execs && e !in s.execs ==>
          && s.procs[r].pc.RowAdded? && e == s.procs[r].pc.e
          && s'.execs[e] == Execution(s.procs[r].req.key, s.procs[r].req.op, s.procs[r].pc.j, r))
  }

  /** Records other transactions rely on keep their insert part. */
  lemma {:induction false} PublishKeepsRecords(env: Env, s: State, r: nat, s': State, x: Slot)
    requires r in s.procs && Published(s, r, s') && PendingOk(env, s, r) && x in s.idem
    ensures x in s'.idem && SameInsert(s'.idem[x], s.idem[x])
  {
  }

  lemma {:induction false} PublishOther(env: Env, s: State, r: nat, s': State, k: nat)
    requires r in s.procs && Published(s, r, s') && ProcOk(env, s, r) && k in s.procs && k != r
    requires ProcOk(env, s, k) && GrantsBefore(s, k, s.procs[k]) && PairOk(s, r, k)
    ensures ProcOk(env, s', k) && GrantsBefore(s', k, s'.procs[k])
  {
    var p := s.procs[k];
    assert PendingOk(env, s, r) && PendingOk(env, s, k);
    forall x | x in s.idem ensures x in s'.idem && SameInsert(s'.idem[x], s.idem[x]) {
      PublishKeepsRecords(env, s, r, s', x);
    }
    assert Taken(s'.execs, p.req.key) ==> Taken(s.execs, p.req.key) || (s.procs[r].pc.RowAdded? && s.procs[r].req.key == p.req.key);
    assert PendingOk(env, s', k);
  }

  lemma {:induction false} PublishGrants(env: Env, s: State, r: nat, s': State)
    requires Inv(env, s) && r in s.procs && Published(s, r, s')
    ensures forall g :: g in s'.grants ==> GrantOk(s', g)
    ensures forall r1, r2 :: r1 in s'.grants && r2 in s'.grants && r1 != r2 ==> Apart(s'.grants[r1], s'.grants[r2])
  {
    assert ProcOk(env, s, r) && PendingOk(env, s, r) && GrantsBefore(s, r, s.procs[r]);
    forall g | g in s'.grants ensures GrantOk(s', g) {
      if g in s.grants {
        assert GrantOk(s, g);
        var x := s.grants[g].slot;
        if x in s.idem { PublishKeepsRecords(env, s, r, s', x); }
      }
    }
  }

  lemma {:induction false} PublishExecutions(env: Env, s: State, r: nat, s': State)
    requires Inv(env, s) && r in s.procs && Published(s, r, s')
    ensures forall e :: e in s'.execs ==> ExecOk(s', e)
    ensures forall e1, e2 :: e1 in s'.execs && e2 in s'.execs ==> SameKeySameExecution(s', e1, e2)
  {
    assert ProcOk(env, s, r) && PendingOk(env, s, r);
    forall e | e in s'.execs ensures ExecOk(s', e) { assert e in s.execs ==> ExecOk(s, e); }
    forall e1, e2 | e1 in s'.execs && e2 in s'.execs ensures SameKeySameExecution(s', e1, e2) {
      assert e1 in s.execs && e2 in s.execs ==> SameKeySameExecution(s, e1, e2);
    }
  }

  lemma {:induction false} PublishRecord(env: Env, s: State, r: nat, s': State, x: Slot)
    requires r in s.procs && Published(s, r, s') && PendingOk(env, s, r) && x in s'.idem
    requires x in s.idem ==> RecordOk(env, s, x)
    requires forall k :: k in s.procs ==> k in s'.procs && s'.procs[k].req == s.procs[k].req
    ensures RecordOk(env, s', x)
  {
    if x in s.idem { PublishKeepsRecords(env, s, r, s', x); }
  }

  lemma {:induction false} PublishProcs(env: Env, s: State, r: nat, s': State)
    requires Inv(env, s) && r in s.procs && Published(s, r, s') && ProcOk(env, s', r)
    ensures forall k :: k in s'.procs ==> ProcOk(env, s', k) && GrantsBefore(s', k, s'.procs[k])
  {
    assert ProcOk(env, s, r);
    forall k | k in s'.procs ensures ProcOk(env, s', k) && GrantsBefore(s', k, s'.procs[k]) {
      if k != r {
        assert ProcOk(env, s, k) && GrantsBefore(s, k, s.procs[k]) && PairOk(s, r, k);
        PublishOther(env, s, r, s', k);
      }
    }
  }

  lemma {:induction false} PublishPairs(env: Env, s: State, r: nat, s': State)
    requires Inv(env, s) && r in s.procs && Published(s, r, s') && !s'.procs[r].Inserting()
    ensures forall r1, r2 :: r1 in s'.procs && r2 in s'.procs ==> PairOk(s', r1, r2)
  {
    forall r1, r2 | r1 in s'.procs && r2 in s'.procs ensures PairOk(s', r1, r2) { assert PairOk(s, r1, r2); }
  }

  lemma {:induction false} PublishKeepsInv(env: Env, s: State, r: nat, s': State)
    requires Inv(env, s) && r in s.procs && Published(s, r, s') && ProcOk(env, s', r)
    requires !s'.procs[r].Inserting()
    ensures Inv(env, s')
  {
    PublishProcs(env, s, r, s');
    PublishPairs(env, s, r, s');
    PublishGrants(env, s, r, s');
    PublishExecutions(env, s, r, s');
    assert ProcOk(env, s, r) && PendingOk(env, s, r);
    forall x | x in s'.idem ensures RecordOk(env, s', x) { PublishRecord(env, s, r, s', x); }
  }

  predicate IsCommit(a: Action) { a.CommitExecution? || a.CommitAnswer? }

  lemma {:induction false} CommitProc(env: Env, s: State, a: Action)
    requires Enabled(env, s, a) && IsCommit(a) && ProcOk(env, s, a.r)
    ensures var s' := Next(env, s, a);
            Published(s, a.r, s') && ProcOk(env, s', a.r) && !s'.procs[a.r].Inserting()
  {
    assert PendingOk(env, s, a.r);
  }

  lemma {:induction false} CommitKeepsInv(env: Env, s: State, a: Action)
    requires Inv(env, s) && Enabled(env, s, a) && IsCommit(a)
    ensures Inv(env, Next(env, s, a))
  {
    CommitProc(env, s, a);
    PublishKeepsInv(env, s, a.r, Next(env, s, a));
  }

  // ---- Time and the sweeper ---------------------------------------------------------------------

  /** Time passes and unlocked expired records go. */
  ghost predicate Aged(s: State, s': State) {
    && s' == s.(clock := s'.clock, idem := s'.idem) && s.clock <= s'.clock
    && (forall x :: x in s'.idem ==> x in s.idem && s'.idem[x] == s.idem[x])
    && (forall x :: x in s.idem && x !in s'.idem ==> s.idem[x].expires <= s.clock && !Locked(s, x))
    && (forall r :: r in s.procs && s.procs[r].Active() && !s.procs[r].pc.Arrived? ==> s'.clock < s.procs[r].deadline)
  }

  lemma {:induction false} AgedProc(env: Env, s: State, s': State, k: nat)
    requires Aged(s, s') && k in s.procs && ProcOk(env, s, k) && GrantsBefore(s, k, s.procs[k])
    ensures ProcOk(env, s', k) && GrantsBefore(s', k, s'.procs[k])
  {
    var p := s.procs[k];
    assert PendingOk(env, s, k);
    assert PendingOk(env, s', k);
  }

  lemma {:induction false} AgingKeepsInv(env: Env, s: State, s': State)
    requires Inv(env, s) && Aged(s, s')
    ensures Inv(env, s')
  {
    forall k | k in s'.procs ensures ProcOk(env, s', k) && GrantsBefore(s', k, s'.procs[k]) {
      assert ProcOk(env, s, k) && GrantsBefore(s, k, s.procs[k]);
      AgedProc(env, s, s', k);
    }
    forall r1, r2 | r1 in s'.procs && r2 in s'.procs ensures PairOk(s', r1, r2) { assert PairOk(s, r1, r2); }
    forall e | e in s'.execs ensures ExecOk(s', e) { assert ExecOk(s, e); }
    forall e1, e2 | e1 in s'.execs && e2 in s'.execs ensures SameKeySameExecution(s', e1, e2) {
      assert SameKeySameExecution(s, e1, e2);
    }
    forall x | x in s'.idem ensures RecordOk(env, s', x) { assert RecordOk(env, s, x); }
    forall g | g in s'.grants ensures GrantOk(s', g) { assert GrantOk(s, g); }
  }

  lemma {:induction false} AgeKeepsInv(env: Env, s: State, a: Action)
    requires Inv(env, s) && Enabled(env, s, a) && (a.Tick? || a.Purge?)
    ensures Inv(env, Next(env, s, a))
  {
    forall r | r in s.procs && s.procs[r].Active() && !s.procs[r].pc.Arrived? ensures s.clock < s.procs[r].deadline {
      assert ProcOk(env, s, r);
    }
    AgingKeepsInv(env, s, Next(env, s, a));
  }

  predicate IsInsert(a: Action) { a.InsertKey? || a.InsertDedup? || a.InsertExecution? || a.CompleteKey? || a.CompleteDedup? }

  lemma {:induction false} InsertKeepsInv(env: Env, s: State, a: Action)
    requires Inv(env, s) && Enabled(env, s, a) && IsInsert(a)
    ensures Inv(env, Next(env, s, a))
  {
    match a
    case InsertKey(r) => InsertKeyKeepsInv(env, s, r);
    case InsertDedup(r) => InsertDedupKeepsInv(env, s, r);
    case InsertExecution(r) => InsertExecutionKeepsInv(env, s, r);
    case CompleteKey(r) => CompleteKeyKeepsInv(env, s, r);
    case CompleteDedup(r) => CompleteDedupKeepsInv(env, s, r);
  }

  lemma {:induction false} StepKeepsInv(env: Env, s: State, a: Action)
    requires Inv(env, s) && Enabled(env, s, a)
    ensures Inv(env, Next(env, s, a))
  {
    if a.Tick? || a.Purge? { AgeKeepsInv(env, s, a); }
    else if IsCommit(a) { CommitKeepsInv(env, s, a); }
    else if IsInsert(a) { InsertKeepsInv(env, s, a); }
    else if a.Arrive? { ArriveKeepsInv(env, s, a.r, a.req); }
    else if a.LookupKey? { LookupKeyKeepsInv(env, s, a.r); }
    else if a.LookupDedup? { LookupDedupKeepsInv(env, s, a.r); }
    else { OtherMoveKeepsInv(env, s, a); }
  }

  lemma {:induction false} RunKeepsInv(env: Env, tr: seq<State>, acts: seq<Action>, i: nat)
    requires Run(env, tr, acts) && i < |tr|
    ensures Inv(env, tr[i])
  {
    if i > 0 {
      RunKeepsInv(env, tr, acts, i - 1);
      StepKeepsInv(env, tr[i - 1], acts[i - 1]);
    }
  }

  // ---- Main results over every run --------------------------------------------------------------

  /** `proceed` is granted at most once per live record: the committed grants of one
      (user, key) never overlap in time. */
  lemma {:induction false} GrantsNeverOverlap(env: Env, tr: seq<State>, acts: seq<Action>, i: nat, r1: nat, r2: nat)
    requires Run(env, tr, acts) && i < |tr|
    requires r1 in tr[i].grants && r2 in tr[i].grants && r1 != r2
    requires tr[i].grants[r1].slot == tr[i].grants[r2].slot
    ensures tr[i].grants[r1].until <= tr[i].grants[r2].since || tr[i].grants[r2].until <= tr[i].grants[r1].since
  {
    RunKeepsInv(env, tr, acts, i);
    assert Apart(tr[i].grants[r1], tr[i].grants[r2]);
  }

  /** ... and no two requests are between their "proceed" and their end at the same time. */
  lemma {:induction false} OneProceedAtATime(env: Env, tr: seq<State>, acts: seq<Action>, i: nat, r1: nat, r2: nat)
    requires Run(env, tr, acts) && i < |tr| && r1 in tr[i].procs && r2 in tr[i].procs
    requires ClientSlot(tr[i].procs[r1].req) == ClientSlot(tr[i].procs[r2].req)
    requires tr[i].procs[r1].Inserting() || tr[i].procs[r1].Owning()
    requires tr[i].procs[r2].Inserting() || tr[i].procs[r2].Owning()
    ensures r1 == r2
  {
    var s := tr[i];
    RunKeepsInv(env, tr, acts, i);
    assert ProcOk(env, s, r1) && ProcOk(env, s, r2) && PendingOk(env, s, r1) && PendingOk(env, s, r2);
    assert PairOk(s, r1, r2);
  }

  /** At most one execution is ever committed per Idempotency-Key, whoever sends it; and it
      belongs to a request with that very key and operation, which was granted `proceed`. */
  lemma {:induction false} OneExecutionPerKey(env: Env, tr: seq<State>, acts: seq<Action>, i: nat, j: nat, e1: nat, e2: nat)
    requires Run(env, tr, acts) && i <= j < |tr|
    requires e1 in tr[i].execs && e2 in tr[j].execs && tr[i].execs[e1].key == tr[j].execs[e2].key
    ensures e1 == e2 && tr[j].execs[e1] == tr[i].execs[e1]
    ensures var x := tr[i].execs[e1];
            && x.creator in tr[i].grants && x.creator in tr[i].procs
            && tr[i].procs[x.creator].req.key == x.key && tr[i].procs[x.creator].req.op == x.op
  {
    RunKeepsInv(env, tr, acts, i);
    RunKeepsInv(env, tr, acts, j);
    ExecutionsStay(env, tr, acts, i, j, e1);
    assert ExecOk(tr[i], e1) && SameKeySameExecution(tr[j], e1, e2);
  }

  lemma {:induction false} ExecutionsStay(env: Env, tr: seq<State>, acts: seq<Action>, i: nat, j: nat, e: nat)
    requires Run(env, tr, acts) && i <= j < |tr| && e in tr[i].execs
    ensures e in tr[j].execs && tr[j].execs[e] == tr[i].execs[e]
  {
    forall k: nat ensures ExecsStep(tr, k) {
      if k < |acts| {
        forall x | x in tr[k].execs ensures x in tr[k + 1].execs && tr[k + 1].execs[x] == tr[k].execs[x] {
          RunStepKeepsExecution(env, tr, acts, k, x);
        }
      }
    }
    ExecsLast(tr, i, j, e);
  }

  ghost predicate ExecsStep(tr: seq<State>, k: nat) {
    k + 1 < |tr| ==> forall e :: e in tr[k].execs ==> e in tr[k + 1].execs && tr[k + 1].execs[e] == tr[k].execs[e]
  }

  lemma {:induction false} ExecsLast(tr: seq<State>, i: nat, j: nat, e: nat)
    requires i <= j < |tr| && e in tr[i].execs && forall k: nat :: ExecsStep(tr, k)
    ensures e in tr[j].execs && tr[j].execs[e] == tr[i].execs[e]
    decreases j
  {
    if i < j {
      ExecsLast(tr, i, j - 1, e);
      assert ExecsStep(tr, j - 1);
    }
  }

  lemma {:induction false} RunStepKeepsExecution(env: Env, tr: seq<State>, acts: seq<Action>, i: nat, e: nat)
    requires Run(env, tr, acts) && i < |acts| && e in tr[i].execs
    ensures e in tr[i + 1].execs && tr[i + 1].execs[e] == tr[i].execs[e]
  {
    RunKeepsInv(env, tr, acts, i);
    assert acts[i].CommitExecution? ==> ProcOk(env, tr[i], acts[i].r);
    StepKeepsExecutions(env, tr[i], acts[i], e);
  }

  lemma {:induction false} StepKeepsExecutions(env: Env, s: State, a: Action, e: nat)
    requires Enabled(env, s, a) && e in s.execs && (a.CommitExecution? ==> ProcOk(env, s, a.r))
    ensures e in Next(env, s, a).execs && Next(env, s, a).execs[e] == s.execs[e]
  {
  }
}
