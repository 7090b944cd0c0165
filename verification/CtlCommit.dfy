/** Step by step: the accesses of `stm_wbctl_commit` and `stm_wbctl_rollback`. */
module CtlCommit {
  import opened CommitHistory
  import opened CtlMachine
  import opened CtlInvariant
  import opened CtlProof
  import opened CtlSteps

  /** The other threads keep their clauses; what is left are the acting thread and the clauses about all. */
  lemma Assemble(s: State, i: nat, r: After)
    requires Inv(s) && i < |s.txs| && GoodAfter(s.sh, r)
    requires forall j :: 0 <= j < |s.txs| && j != i ==> Env(s.sh, r.sh, j)
    requires TxOk(r.sh, i, r.tx) && PastOk(r.sh)
    requires Shape(State(r.sh, s.txs[i := r.tx]))
    requires var s' := State(r.sh, s.txs[i := r.tx]);
             OwnersOk(s') && PendingOk(s') && VersionsOk(s') && MemoryOk(s')
    ensures Inv(State(r.sh, s.txs[i := r.tx]))
  {
    hide OwnersOk, PendingOk, MemoryOk, PastOk, TxOk, Env, TxShape;
    var s' := State(r.sh, s.txs[i := r.tx]);
    forall j | 0 <= j < |s'.txs|
      ensures TxOk(r.sh, j, s'.txs[j])
    {
      if j != i {
        assert TxShape(s.sh, s.txs[j]) && TxShape(r.sh, s'.txs[j]) && TxOk(s.sh, j, s.txs[j]);
        TxStable(s.sh, r.sh, j, s.txs[j]);
      }
    }
  }

  lemma NextShape(s: State, i: nat, c: Command)
    requires Inv(s) && i < |s.txs|
    ensures var r := Step(s.sh, i, s.txs[i], c);
            GoodAfter(s.sh, r) && Shape(State(r.sh, s.txs[i := r.tx]))
  {
    hide Step, TxShape, GoodAfter, TxsOk, OwnersOk, PendingOk, VersionsOk, MemoryOk, PastOk;
    assert TxShape(s.sh, s.txs[i]);
    ShapeOfStep(s.sh, i, s.txs[i], c);
    ShapeKept(s, i, c);
  }

  // ---- acquire ----

  lemma EntryIndex(sh: Shared, tx: Tx, k: nat)
    requires SharedShape(sh) && TxShape(sh, tx) && k < |tx.writes|
    ensures |tx.noDrop| == |tx.writes| == |tx.version|
    ensures tx.writes[k].addr < |sh.mem| && Lk(sh, tx.writes[k].addr) < |sh.locks|
  {
  }

  lemma SetsLengths(sh: Shared, tx: Tx)
    requires TxShape(sh, tx)
    ensures |tx.noDrop| == |tx.writes| == |tx.version|
  {
  }

  /** Moving on without touching a lock. */
  lemma LocksPc(sh: Shared, i: nat, tx: Tx, pc': Pc)
    requires SharedShape(sh) && TxShape(sh, tx) && TxShape(sh, tx.(pc := pc')) && LocksOk(sh, i, tx)
    requires Ts(pc') == 0 || Ts(pc') == Ts(tx.pc)
    requires forall k :: 0 <= k < |tx.writes| && Holds(tx.(pc := pc'), k) ==> Holds(tx, k)
    requires forall k :: From(tx.(pc := pc')) <= k < |tx.writes| && k < From(tx) ==> EntryCovered(sh, i, tx, k)
    requires Marks(tx.(pc := pc'))
    ensures LocksOk(sh, i, tx.(pc := pc'))
  {
    hide SetsShape, PcShape, Marks, Holds, From;
    var tx' := tx.(pc := pc');
    forall k | 0 <= k < |tx.writes| && Holds(tx', k)
      ensures EntryHeld(sh, i, tx', k)
    {
      assert EntryHeld(sh, i, tx, k);
    }
    forall k | From(tx') <= k < |tx.writes|
      ensures EntryCovered(sh, i, tx', k)
    {
      assert EntryCovered(sh, i, tx, k);
    }
  }

  /** Nothing moves but the program counter, and the locks are accounted for. */
  lemma MoveInv(s: State, i: nat, pc': Pc)
    requires Inv(s) && i < |s.txs| && TxShape(s.sh, s.txs[i])
    requires var tx' := s.txs[i].(pc := pc');
             TxShape(s.sh, tx') && SameRole(s.txs[i], tx') && LocksOk(s.sh, i, tx') && PcOk(s.sh, tx')
                 && StampOk(s.sh, i, tx')
    ensures Inv(State(s.sh, s.txs[i := s.txs[i].(pc := pc')]))
  {
    hide OwnersOk, PendingOk, MemoryOk, PastOk, VersionsOk, LogOk, SnapshotOk, TxShape, LocksOk, SameRole, PcOk,
         StampOk;
    var tx := s.txs[i];
    assert TxOk(s.sh, i, tx);
    SnapshotPc(s.sh, tx, pc');
    assert s.sh.(finished := s.sh.finished) == s.sh;
    LocalInv(s, i, tx.(pc := pc'), s.sh.finished);
  }

  lemma OwnEntryLater(s: State, i: nat, k: nat)
    requires Inv(s) && i < |s.txs| && s.txs[i].pc.AcqLoad? && s.txs[i].pc.k == k
    requires 0 < k <= |s.txs[i].writes| && TxShape(s.sh, s.txs[i])
    requires var w := s.sh.locks[Lk(s.sh, s.txs[i].writes[k - 1].addr)]; w.Held? && w.owner == i
    ensures EntryCovered(s.sh, i, s.txs[i], k - 1)
  {
    hide PendingOk, MemoryOk, PastOk, VersionsOk, LogOk, SnapshotOk, PcOk;
    var tx := s.txs[i];
    assert TxOk(s.sh, i, tx);
    assert Owned(s, Lk(s.sh, tx.writes[k - 1].addr));
  }

  lemma AcqLoadInv(s: State, i: nat, c: Command)
    requires Inv(s) && i < |s.txs| && s.txs[i].pc.AcqLoad?
    ensures Inv(Next(s, i, c))
  {
    hide OwnersOk, PendingOk, MemoryOk, PastOk, VersionsOk, LogOk, SnapshotOk, SetsShape, Marks, LocksOk;
    var tx := s.txs[i];
    assert TxShape(s.sh, tx) && TxOk(s.sh, i, tx);
    var pc' := StepAcqLoad(s.sh, i, tx).tx.pc;
    AcqLoadLocks(s, i);
    MoveInv(s, i, pc');
  }

  lemma AcqLoadLocks(s: State, i: nat)
    requires Inv(s) && i < |s.txs| && s.txs[i].pc.AcqLoad? && TxShape(s.sh, s.txs[i])
    ensures var tx' := StepAcqLoad(s.sh, i, s.txs[i]).tx;
            TxShape(s.sh, tx') && LocksOk(s.sh, i, tx') && SameRole(s.txs[i], tx')
  {
    hide OwnersOk, PendingOk, MemoryOk, PastOk, VersionsOk, LogOk, SnapshotOk, SetsShape, Marks, PcOk, StampOk,
         LocksOk, EntryCovered;
    var tx := s.txs[i];
    assert TxOk(s.sh, i, tx);
    var k := tx.pc.k;
    EntryIndex(s.sh, tx, k - 1);
    var w := s.sh.locks[Lk(s.sh, tx.writes[k - 1].addr)];
    var pc' := StepAcqLoad(s.sh, i, tx).tx.pc;
    if w.Held? && w.owner == i {
      OwnEntryLater(s, i, k);
    }
    LocksMarks(s.sh, i, tx);
    MarksAcqLoad(tx, pc');
    MarksCount(tx);
    CountNone(tx.noDrop, |tx.noDrop|);
    LocksPc(s.sh, i, tx, pc');
  }

  lemma LocksMarks(sh: Shared, i: nat, tx: Tx)
    requires SharedShape(sh) && TxShape(sh, tx) && LocksOk(sh, i, tx)
    ensures Marks(tx)
  {
  }

  lemma MarksCount(tx: Tx)
    requires |tx.noDrop| == |tx.writes| && Marks(tx)
    requires tx.pc.AcqLoad? || tx.pc.AcqCas? || tx.pc.TakeTime? || tx.pc.Validate?
    ensures tx.acquired == Count(tx.noDrop, |tx.noDrop|)
  {
  }

  lemma MarksAcqLoad(tx: Tx, pc': Pc)
    requires |tx.noDrop| == |tx.writes| && tx.pc.AcqLoad? && 0 < tx.pc.k && Marks(tx)
    requires pc' == NextAcquire(tx.pc.k) || pc' == RollbackPc(tx) || (pc'.AcqCas? && pc'.k == tx.pc.k)
    ensures Marks(tx.(pc := pc'))
  {
  }

  lemma {:induction false} CountMark(noDrop: seq<bool>, k: nat, n: nat)
    requires k < |noDrop| && n <= |noDrop| && noDrop[k]
    ensures Count(noDrop[k := false], n) == Count(noDrop, n) + if k < n then 1 else 0
  {
    if n > 0 {
      CountMark(noDrop, k, n - 1);
    }
  }

  /** Lock words and memory play no part in what was read. */
  lemma SnapshotLocks(sh: Shared, sh': Shared, tx: Tx, tx': Tx)
    requires SharedShape(sh) && SharedShape(sh') && sh'.h == sh.h && SnapshotOk(sh, tx)
    requires tx'.log == tx.log && tx'.rset == tx.rset && tx'.readOnly == tx.readOnly
    requires tx'.start == tx.start && tx'.end == tx.end
    ensures SnapshotOk(sh', tx')
  {
    hide ReadsHold;
    forall k {:trigger tx'.log[k]} | 0 <= k < |tx'.log| && tx'.log[k].Read?
      ensures match tx'.log[k].source
              case Memory(v, _) => tx'.readOnly || REntry(Lk(sh, tx'.log[k].addr), v) in tx'.rset
              case Buffer => true
              case UnderOwnLock(_) => false
    {
      assert tx.log[k] == tx'.log[k];
    }
  }

  lemma PastLocks(sh: Shared, sh': Shared)
    requires SharedShape(sh) && SharedShape(sh') && sh'.h == sh.h && sh'.finished == sh.finished
             && |sh'.mem| == |sh.mem|
    requires PastOk(sh)
    ensures PastOk(sh')
  {
    hide LogOk, ReadsHold, LogAgrees;
    forall t | 0 < t <= sh'.clock
      ensures CommitOk(sh', t)
    {
      assert CommitOk(sh, t);
    }
    forall k | 0 <= k < |sh'.finished|
      ensures FinishedOk(sh', sh'.finished[k])
    {
      assert FinishedOk(sh, sh.finished[k]);
    }
  }

  lemma CasFails(s: State, i: nat)
    requires Inv(s) && i < |s.txs| && s.txs[i].pc.AcqCas? && TxShape(s.sh, s.txs[i])
    ensures Inv(State(s.sh, s.txs[i := s.txs[i].(pc := AcqLoad(s.txs[i].pc.k))]))
  {
    hide OwnersOk, PendingOk, MemoryOk, PastOk, VersionsOk, LogOk, SnapshotOk, SetsShape;
    var tx := s.txs[i];
    assert TxOk(s.sh, i, tx);
    EntryIndex(s.sh, tx, tx.pc.k - 1);
    LocksPc(s.sh, i, tx, AcqLoad(tx.pc.k));
    MoveInv(s, i, AcqLoad(tx.pc.k));
  }

  lemma AcqCasInv(s: State, i: nat, c: Command)
    requires Inv(s) && i < |s.txs| && s.txs[i].pc.AcqCas?
    ensures Inv(Next(s, i, c))
  {
    hide OwnersOk, PendingOk, MemoryOk, PastOk, VersionsOk, LogOk, SnapshotOk, SetsShape, LocksOk, Env, SameRole,
         GoodAfter;
    var tx := s.txs[i];
    assert TxShape(s.sh, tx) && TxOk(s.sh, i, tx);
    var r := StepAcqCas(s.sh, i, tx);
    EntryIndex(s.sh, tx, tx.pc.k - 1);
    if s.sh.locks[Lk(s.sh, tx.writes[tx.pc.k - 1].addr)] != Free(tx.pc.v) {
      CasFails(s, i);
    } else {
      NextShape(s, i, c);
      assert SharedShape(r.sh) && TxShape(r.sh, r.tx) by { GoodParts(s.sh, r); }
      AcqCasLocks(s, i);
      SnapshotLocks(s.sh, r.sh, tx, r.tx);
      assert TxOk(r.sh, i, r.tx);
      AcqCasGlobal(s, i);
      PastLocks(s.sh, r.sh);
      Assemble(s, i, r);
    }
  }

  lemma GoodParts(sh: Shared, r: After)
    requires GoodAfter(sh, r)
    ensures SharedShape(r.sh) && TxShape(r.sh, r.tx) && SameFrame(sh, r.sh)
  {
  }

  /** The compare-and-swap of `stm_wbctl_commit` succeeds. */
  predicate CasWins(sh: Shared, tx: Tx)
    requires SharedShape(sh) && TxShape(sh, tx) && tx.pc.AcqCas?
  {
    sh.locks[Lk(sh, tx.writes[tx.pc.k - 1].addr)] == Free(tx.pc.v)
  }

  lemma AcqCasLocks(s: State, i: nat)
    requires Inv(s) && i < |s.txs| && s.txs[i].pc.AcqCas? && TxShape(s.sh, s.txs[i]) && CasWins(s.sh, s.txs[i])
    requires GoodAfter(s.sh, StepAcqCas(s.sh, i, s.txs[i]))
    ensures LocksOk(StepAcqCas(s.sh, i, s.txs[i]).sh, i, StepAcqCas(s.sh, i, s.txs[i]).tx)
  {
    hide OwnersOk, PendingOk, MemoryOk, PastOk, LogOk, SnapshotOk, SetsShape, PcOk, StampOk, Touches;
    var tx := s.txs[i];
    assert TxOk(s.sh, i, tx);
    var AcqCas(k, v) := tx.pc;
    var r := StepAcqCas(s.sh, i, tx);
    EntryIndex(s.sh, tx, k - 1);
    var l := Lk(s.sh, tx.writes[k - 1].addr);
    assert s.sh.vers[l] == v <= s.sh.clock;
    assert Marks(r.tx) by {
      CountMark(tx.noDrop, k - 1, |tx.noDrop|);
    }
    AcqCasEntries(s.sh, i, tx);
  }

  lemma AcqCasEntries(sh: Shared, i: nat, tx: Tx)
    requires SharedShape(sh) && TxShape(sh, tx) && tx.pc.AcqCas? && CasWins(sh, tx) && LocksOk(sh, i, tx)
    requires GoodAfter(sh, StepAcqCas(sh, i, tx))
    requires sh.vers[Lk(sh, tx.writes[tx.pc.k - 1].addr)] == tx.pc.v <= sh.clock
    ensures var r := StepAcqCas(sh, i, tx);
            && (forall e :: 0 <= e < |tx.writes| && Holds(r.tx, e) ==> EntryHeld(r.sh, i, r.tx, e))
            && (forall e :: From(r.tx) <= e < |tx.writes| ==> EntryCovered(r.sh, i, r.tx, e))
  {
    hide Marks, SetsShape;
    var AcqCas(k, v) := tx.pc;
    var r := StepAcqCas(sh, i, tx);
    EntryIndex(sh, tx, k - 1);
    forall e | 0 <= e < |tx.writes| && Holds(r.tx, e)
      ensures EntryHeld(r.sh, i, r.tx, e)
    {
      EntryIndex(sh, tx, e);
      if e != k - 1 {
        assert EntryHeld(sh, i, tx, e);
      }
    }
    forall e | From(r.tx) <= e < |tx.writes|
      ensures EntryCovered(r.sh, i, r.tx, e)
    {
      EntryIndex(sh, tx, e);
      if e >= k {
        assert EntryCovered(sh, i, tx, e);
      }
    }
  }

  lemma AcqCasGlobal(s: State, i: nat)
    requires Inv(s) && i < |s.txs| && s.txs[i].pc.AcqCas? && TxShape(s.sh, s.txs[i]) && CasWins(s.sh, s.txs[i])
    requires var r := StepAcqCas(s.sh, i, s.txs[i]);
             GoodAfter(s.sh, r) && Shape(State(r.sh, s.txs[i := r.tx]))
    ensures var r := StepAcqCas(s.sh, i, s.txs[i]);
            var s' := State(r.sh, s.txs[i := r.tx]);
            OwnersOk(s') && PendingOk(s') && VersionsOk(s') && MemoryOk(s')
    ensures forall j :: 0 <= j < |s.txs| && j != i ==> Env(s.sh, StepAcqCas(s.sh, i, s.txs[i]).sh, j)
  {
    hide PastOk, TxsOk, SetsShape, Touches, ValueAt, Apply, Grows;
    var tx := s.txs[i];
    var AcqCas(k, v) := tx.pc;
    var r := StepAcqCas(s.sh, i, tx);
    var s' := State(r.sh, s.txs[i := r.tx]);
    EntryIndex(s.sh, tx, k - 1);
    assert forall j :: 0 <= j < k ==> tx.noDrop[j] by { AcquireMarks(s, i); }
    GrowsSame(s.sh.h);
    forall m | 0 <= m < |s'.sh.locks|
      ensures Owned(s', m)
    {
      assert Owned(s, m);
    }
    forall m, t {:trigger Touches(s.sh.h, t, m)} | 0 <= m < |s.sh.locks| && s.sh.vers[m] < t <= s.sh.clock
        && !s.sh.h.commits[t - 1].status.Aborted? && Touches(s.sh.h, t, m)
      ensures Newest(s', m, t)
    {
      assert Newest(s, m, t) && Owned(s, m);
    }
    forall a | 0 <= a < |s.sh.mem|
      ensures WordOk(s', a)
    {
      assert WordOk(s, a) && Owned(s, Lk(s.sh, a));
    }
  }

  lemma GrowsSame(h: History)
    ensures Grows(h, h)
  {
  }

  lemma AcquireMarks(s: State, i: nat)
    requires Inv(s) && i < |s.txs| && s.txs[i].pc.AcqCas? && TxShape(s.sh, s.txs[i])
    ensures forall j :: 0 <= j < s.txs[i].pc.k ==> s.txs[i].noDrop[j]
  {
    hide PastOk, OwnersOk, PendingOk, VersionsOk, MemoryOk;
    assert TxOk(s.sh, i, s.txs[i]);
  }
}
