/** Step by step: writing back, releasing the locks, and undoing an unsuccessful acquisition. */
module CtlInstall {
  import opened CommitHistory
  import opened CtlMachine
  import opened CtlInvariant
  import opened CtlProof
  import opened CtlSteps
  import opened CtlCommit
  import opened CtlTimestamp

  // ---- stores ----

  /** The lock over the entry being installed is held, so no other thread looks after that word. */
  lemma InstallHolds(s: State, i: nat, k: nat)
    requires Inv(s) && i < |s.txs| && TxShape(s.sh, s.txs[i]) && From(s.txs[i]) <= k < |s.txs[i].writes|
    ensures s.txs[i].writes[k].addr < |s.sh.mem|
    ensures var w := s.sh.locks[Lk(s.sh, s.txs[i].writes[k].addr)];
            w.Held? && w.owner == i && k <= w.entry < |s.txs[i].writes|
  {
    hide OwnersOk, PendingOk, MemoryOk, PastOk, VersionsOk, LogOk, SnapshotOk, SetsShape, PcOk, StampOk;
    EntryIndex(s.sh, s.txs[i], k);
    assert TxOk(s.sh, i, s.txs[i]);
    assert EntryCovered(s.sh, i, s.txs[i], k);
  }

  lemma ApplyNext(us: seq<Update>, k: nat, x: Word, a: nat)
    requires k < |us|
    ensures Apply(us[..k + 1], x, a)
         == if us[k].addr == a then Merge(Apply(us[..k], x, a), us[k].value, us[k].mask) else Apply(us[..k], x, a)
  {
    hide Merge;
    assert us[..k + 1][..k] == us[..k];
  }

  /** Storing `x` in the word of entry k, which is what the entry makes of the word's content. */
  lemma StoreInv(s: State, i: nat, k: nat, x: Word)
    requires Inv(s) && i < |s.txs| && TxShape(s.sh, s.txs[i]) && k < |s.txs[i].writes|
             && s.txs[i].writes[k].addr < |s.sh.mem|
    requires s.txs[i].pc == Install(Ts(s.txs[i].pc), k) || (s.txs[i].pc.Mix? && s.txs[i].pc.k == k)
    requires var u := s.txs[i].writes[k]; x == Merge(s.sh.mem[u.addr], u.value, u.mask)
    requires Ts(s.txs[i].pc) > 0
    ensures Inv(State(s.sh.(mem := s.sh.mem[s.txs[i].writes[k].addr := x]),
                      s.txs[i := s.txs[i].(pc := Release(Ts(s.txs[i].pc), k))]))
  {
    hide OwnersOk, PendingOk, MemoryOk, PastOk, VersionsOk, LogOk, SnapshotOk, SetsShape, LocksOk, Env, GoodAfter,
         Grows, Merge;
    var tx := s.txs[i];
    var t := Ts(tx.pc);
    assert TxOk(s.sh, i, tx);
    var r := After(s.sh.(mem := s.sh.mem[tx.writes[k].addr := x]), tx.(pc := Release(t, k)));
    StoreShape(s, i, k, x);
    SnapshotLocks(s.sh, r.sh, tx, r.tx);
    StoreLocks(s, i, k, x);
    assert TxOk(r.sh, i, r.tx);
    StoreGlobal(s, i, k, x);
    StoreMemory(s, i, k, x);
    PastLocks(s.sh, r.sh);
    Assemble(s, i, r);
  }

  lemma StoreShape(s: State, i: nat, k: nat, x: Word)
    requires Inv(s) && i < |s.txs| && TxShape(s.sh, s.txs[i]) && k < |s.txs[i].writes|
             && s.txs[i].writes[k].addr < |s.sh.mem|
    requires 0 < Ts(s.txs[i].pc)
    ensures var r :=
            After(s.sh.(mem := s.sh.mem[s.txs[i].writes[k].addr := x]), s.txs[i].(pc := Release(Ts(s.txs[i].pc), k)));
            GoodAfter(s.sh, r) && Shape(State(r.sh, s.txs[i := r.tx]))
  {
    hide OwnersOk, PendingOk, MemoryOk, PastOk, VersionsOk, TxsOk, SetsShape;
  }

  lemma StoreLocks(s: State, i: nat, k: nat, x: Word)
    requires Inv(s) && i < |s.txs| && TxShape(s.sh, s.txs[i]) && k < |s.txs[i].writes|
             && s.txs[i].writes[k].addr < |s.sh.mem|
    requires s.txs[i].pc == Install(Ts(s.txs[i].pc), k) || (s.txs[i].pc.Mix? && s.txs[i].pc.k == k)
    requires var sh' := s.sh.(mem := s.sh.mem[s.txs[i].writes[k].addr := x]);
             SharedShape(sh') && TxShape(sh', s.txs[i].(pc := Release(Ts(s.txs[i].pc), k)))
    ensures LocksOk(s.sh.(mem := s.sh.mem[s.txs[i].writes[k].addr := x]), i,
                    s.txs[i].(pc := Release(Ts(s.txs[i].pc), k)))
  {
    hide OwnersOk, PendingOk, MemoryOk, PastOk, VersionsOk, LogOk, SnapshotOk, SetsShape, PcOk, StampOk;
    var tx := s.txs[i];
    assert TxOk(s.sh, i, tx);
    var tx' := tx.(pc := Release(Ts(tx.pc), k));
    var sh' := s.sh.(mem := s.sh.mem[tx.writes[k].addr := x]);
    forall e | 0 <= e < |tx.writes| && Holds(tx', e)
      ensures EntryHeld(sh', i, tx', e)
    {
      EntryIndex(s.sh, tx, e);
      assert EntryHeld(s.sh, i, tx, e);
    }
    forall e | From(tx') <= e < |tx.writes|
      ensures EntryCovered(sh', i, tx', e)
    {
      EntryIndex(s.sh, tx, e);
      assert EntryCovered(s.sh, i, tx, e);
    }
  }

  lemma StoreGlobal(s: State, i: nat, k: nat, x: Word)
    requires Inv(s) && i < |s.txs| && TxShape(s.sh, s.txs[i]) && k < |s.txs[i].writes|
             && s.txs[i].writes[k].addr < |s.sh.mem|
    requires s.txs[i].pc == Install(Ts(s.txs[i].pc), k) || (s.txs[i].pc.Mix? && s.txs[i].pc.k == k)
    requires var sh' := s.sh.(mem := s.sh.mem[s.txs[i].writes[k].addr := x]);
             SharedShape(sh') && Shape(State(sh', s.txs[i := s.txs[i].(pc := Release(Ts(s.txs[i].pc), k))]))
    ensures var s' := State(s.sh.(mem := s.sh.mem[s.txs[i].writes[k].addr := x]),
                            s.txs[i := s.txs[i].(pc := Release(Ts(s.txs[i].pc), k))]);
            OwnersOk(s') && PendingOk(s') && VersionsOk(s')
            && forall j :: 0 <= j < |s.txs| && j != i ==> Env(s.sh, s'.sh, j)
  {
    hide PastOk, TxsOk, SetsShape, PcShape, Touches, MemoryOk, Grows;
    var tx := s.txs[i];
    var s' := State(s.sh.(mem := s.sh.mem[tx.writes[k].addr := x]), s.txs[i := tx.(pc := Release(Ts(tx.pc), k))]);
    GrowsSame(s.sh.h);
    InstallHolds(s, i, k);
    forall m | 0 <= m < |s'.sh.locks|
      ensures Owned(s', m)
    {
      assert Owned(s, m);
    }
    forall m, t {:trigger Touches(s.sh.h, t, m)} | 0 <= m < |s.sh.locks| && s.sh.vers[m] < t <= s.sh.clock
        && !s.sh.h.commits[t - 1].status.Aborted? && Touches(s.sh.h, t, m)
      ensures Newest(s', m, t)
    {
      assert Newest(s, m, t) && Owned(s, m);
    }
  }

  lemma StoreMemory(s: State, i: nat, k: nat, x: Word)
    requires Inv(s) && i < |s.txs| && TxShape(s.sh, s.txs[i]) && k < |s.txs[i].writes|
             && s.txs[i].writes[k].addr < |s.sh.mem|
    requires s.txs[i].pc == Install(Ts(s.txs[i].pc), k) || (s.txs[i].pc.Mix? && s.txs[i].pc.k == k)
    requires var u := s.txs[i].writes[k]; x == Merge(s.sh.mem[u.addr], u.value, u.mask)
    requires var sh' := s.sh.(mem := s.sh.mem[s.txs[i].writes[k].addr := x]);
             SharedShape(sh') && Shape(State(sh', s.txs[i := s.txs[i].(pc := Release(Ts(s.txs[i].pc), k))]))
    ensures MemoryOk(State(s.sh.(mem := s.sh.mem[s.txs[i].writes[k].addr := x]),
                           s.txs[i := s.txs[i].(pc := Release(Ts(s.txs[i].pc), k))]))
  {
    hide PastOk, TxsOk, SetsShape, OwnersOk, VersionsOk, PendingOk, ValueAt, Apply, Merge;
    var tx := s.txs[i];
    var s' := State(s.sh.(mem := s.sh.mem[tx.writes[k].addr := x]), s.txs[i := tx.(pc := Release(Ts(tx.pc), k))]);
    InstallHolds(s, i, k);
    forall a | 0 <= a < |s.sh.mem|
      ensures WordOk(s', a)
    {
      assert WordOk(s, a);
      var l := s.sh.locks[Lk(s.sh, a)];
      if l.Held? && l.owner == i {
        ApplyNext(tx.writes, k, ValueAt(s.sh.h, Ts(tx.pc) - 1, a), a);
      }
    }
  }

  /** An entry with an empty mask changes nothing. */
  lemma SkipInv(s: State, i: nat)
    requires Inv(s) && i < |s.txs| && TxShape(s.sh, s.txs[i]) && s.txs[i].pc.Install?
    requires s.txs[i].pc.k < |s.txs[i].writes| && s.txs[i].writes[s.txs[i].pc.k].mask == 0
    ensures Inv(State(s.sh, s.txs[i := s.txs[i].(pc := Release(s.txs[i].pc.t, s.txs[i].pc.k))]))
  {
    hide OwnersOk, PendingOk, MemoryOk, PastOk, VersionsOk, TxsOk, SetsShape, Merge;
    var tx := s.txs[i];
    var Install(t, k) := tx.pc;
    InstallHolds(s, i, k);
    var a := tx.writes[k].addr;
    MergeNone(s.sh.mem[a], tx.writes[k].value);
    StoreInv(s, i, k, s.sh.mem[a]);
    assert s.sh.mem[a := s.sh.mem[a]] == s.sh.mem;
    assert s.sh.(mem := s.sh.mem) == s.sh;
  }

  lemma MixInv(s: State, i: nat, c: Command)
    requires Inv(s) && i < |s.txs| && s.txs[i].pc.Mix?
    ensures Inv(Next(s, i, c))
  {
    hide OwnersOk, PendingOk, MemoryOk, PastOk, VersionsOk, LogOk, SnapshotOk, LocksOk, StampOk, SetsShape, Merge;
    var tx := s.txs[i];
    assert TxShape(s.sh, tx) && TxOk(s.sh, i, tx);
    var Mix(t, k, x) := tx.pc;
    InstallHolds(s, i, k);
    StoreInv(s, i, k, Merge(x, tx.writes[k].value, tx.writes[k].mask));
  }

  lemma InstallLoadInv(s: State, i: nat)
    requires Inv(s) && i < |s.txs| && s.txs[i].pc.Install? && TxShape(s.sh, s.txs[i])
    requires s.txs[i].pc.k < |s.txs[i].writes| && s.txs[i].writes[s.txs[i].pc.k].addr < |s.sh.mem|
    ensures var tx := s.txs[i];
            Inv(State(s.sh, s.txs[i := tx.(pc := Mix(tx.pc.t, tx.pc.k, s.sh.mem[tx.writes[tx.pc.k].addr]))]))
  {
    hide OwnersOk, PendingOk, MemoryOk, PastOk, VersionsOk, LogOk, SnapshotOk, SetsShape;
    var tx := s.txs[i];
    assert TxOk(s.sh, i, tx);
    var pc' := Mix(tx.pc.t, tx.pc.k, s.sh.mem[tx.writes[tx.pc.k].addr]);
    LocksPc(s.sh, i, tx, pc');
    MoveInv(s, i, pc');
  }

  lemma InstallEndInv(s: State, i: nat)
    requires Inv(s) && i < |s.txs| && s.txs[i].pc.Install? && TxShape(s.sh, s.txs[i])
             && s.txs[i].pc.k == |s.txs[i].writes|
    ensures Inv(State(s.sh, s.txs[i := s.txs[i].(pc := Idle)]))
  {
    hide OwnersOk, PendingOk, MemoryOk, PastOk, VersionsOk, LogOk, SnapshotOk, SetsShape;
    var tx := s.txs[i];
    assert TxOk(s.sh, i, tx);
    LocksPc(s.sh, i, tx, Idle);
    MoveInv(s, i, Idle);
  }

  lemma InstallInv(s: State, i: nat, c: Command)
    requires Inv(s) && i < |s.txs| && s.txs[i].pc.Install?
    ensures Inv(Next(s, i, c))
  {
    hide OwnersOk, PendingOk, MemoryOk, PastOk, VersionsOk, TxsOk, SetsShape, Merge;
    var tx := s.txs[i];
    assert TxShape(s.sh, tx);
    var k := tx.pc.k;
    if k == |tx.writes| {
      InstallEndInv(s, i);
    } else {
      InstallHolds(s, i, k);
      if tx.writes[k].mask == ALL_BITS {
        MergeAll(s.sh.mem[tx.writes[k].addr], tx.writes[k].value);
        StoreInv(s, i, k, tx.writes[k].value);
      } else if tx.writes[k].mask != 0 {
        InstallLoadInv(s, i);
      } else {
        SkipInv(s, i);
      }
    }
  }

  // ---- releasing ----

  /** The entry a lock points to is the last one under that lock: whoever releases has installed them all. */
  lemma LastUnderLock(s: State, i: nat, k: nat, j: nat)
    requires Inv(s) && i < |s.txs| && TxShape(s.sh, s.txs[i]) && s.txs[i].pc.Release? && s.txs[i].pc.k == k
    requires k < j < |s.txs[i].writes| && !s.txs[i].noDrop[k]
    ensures Lk(s.sh, s.txs[i].writes[j].addr) != Lk(s.sh, s.txs[i].writes[k].addr)
  {
    hide OwnersOk, PendingOk, MemoryOk, PastOk, VersionsOk, LogOk, SnapshotOk, SetsShape, PcOk, StampOk;
    var tx := s.txs[i];
    assert TxOk(s.sh, i, tx);
    SetsLengths(s.sh, tx);
    assert EntryHeld(s.sh, i, tx, k);
    InstallHolds(s, i, j);
  }

  lemma ReleaseSkipInv(s: State, i: nat)
    requires Inv(s) && i < |s.txs| && s.txs[i].pc.Release? && TxShape(s.sh, s.txs[i]) && s.txs[i].noDrop[s.txs[i].pc.k]
    ensures Inv(State(s.sh, s.txs[i := s.txs[i].(pc := Install(s.txs[i].pc.t, s.txs[i].pc.k + 1))]))
  {
    hide OwnersOk, PendingOk, MemoryOk, PastOk, VersionsOk, LogOk, SnapshotOk, SetsShape;
    var tx := s.txs[i];
    assert TxOk(s.sh, i, tx);
    var pc' := Install(tx.pc.t, tx.pc.k + 1);
    LocksPc(s.sh, i, tx, pc');
    MoveInv(s, i, pc');
  }

  lemma ReleaseDropInv(s: State, i: nat, c: Command)
    requires Inv(s) && i < |s.txs| && s.txs[i].pc.Release? && TxShape(s.sh, s.txs[i]) && !s.txs[i].noDrop[s.txs[i].pc.k]
    ensures Inv(Next(s, i, c))
  {
    hide OwnersOk, PendingOk, MemoryOk, PastOk, VersionsOk, LogOk, SnapshotOk, SetsShape, LocksOk, Env, GoodAfter,
         Grows;
    var tx := s.txs[i];
    assert TxOk(s.sh, i, tx);
    var r := StepRelease(s.sh, tx);
    NextShape(s, i, c);
    GoodParts(s.sh, r);
    SnapshotLocks(s.sh, r.sh, tx, r.tx);
    ReleaseLocks(s, i);
    assert TxOk(r.sh, i, r.tx);
    ReleaseGlobal(s, i);
    ReleaseMemory(s, i);
    PastLocks(s.sh, r.sh);
    Assemble(s, i, r);
  }

  lemma ReleaseLocks(s: State, i: nat)
    requires Inv(s) && i < |s.txs| && s.txs[i].pc.Release? && TxShape(s.sh, s.txs[i]) && !s.txs[i].noDrop[s.txs[i].pc.k]
    requires GoodAfter(s.sh, StepRelease(s.sh, s.txs[i]))
    ensures LocksOk(StepRelease(s.sh, s.txs[i]).sh, i, StepRelease(s.sh, s.txs[i]).tx)
  {
    hide OwnersOk, PendingOk, MemoryOk, PastOk, VersionsOk, LogOk, SnapshotOk, SetsShape, PcOk, StampOk;
    var tx := s.txs[i];
    var k := tx.pc.k;
    assert TxOk(s.sh, i, tx);
    var r := StepRelease(s.sh, tx);
    EntryIndex(s.sh, tx, k);
    forall e | 0 <= e < |tx.writes| && Holds(r.tx, e)
      ensures EntryHeld(r.sh, i, r.tx, e)
    {
      EntryIndex(s.sh, tx, e);
      assert EntryHeld(s.sh, i, tx, e);
      LastUnderLock(s, i, k, e);
    }
    forall e | From(r.tx) <= e < |tx.writes|
      ensures EntryCovered(r.sh, i, r.tx, e)
    {
      EntryIndex(s.sh, tx, e);
      assert EntryCovered(s.sh, i, tx, e);
      LastUnderLock(s, i, k, e);
    }
  }

  lemma ReleaseGlobal(s: State, i: nat)
    requires Inv(s) && i < |s.txs| && s.txs[i].pc.Release? && TxShape(s.sh, s.txs[i]) && !s.txs[i].noDrop[s.txs[i].pc.k]
    requires var r := StepRelease(s.sh, s.txs[i]);
             GoodAfter(s.sh, r) && Shape(State(r.sh, s.txs[i := r.tx]))
    ensures var r := StepRelease(s.sh, s.txs[i]);
            var s' := State(r.sh, s.txs[i := r.tx]);
            OwnersOk(s') && PendingOk(s') && VersionsOk(s')
            && forall j :: 0 <= j < |s.txs| && j != i ==> Env(s.sh, s'.sh, j)
  {
    hide PastOk, TxsOk, SetsShape, PcShape, Touches, MemoryOk, Grows;
    var tx := s.txs[i];
    var Release(t, k) := tx.pc;
    var r := StepRelease(s.sh, tx);
    var s' := State(r.sh, s.txs[i := r.tx]);
    GrowsSame(s.sh.h);
    ReleaseFacts(s, i);
    var l := Lk(s.sh, tx.writes[k].addr);
    forall m | 0 <= m < |s'.sh.locks|
      ensures Owned(s', m)
    {
      assert Owned(s, m);
    }
    forall m, u {:trigger Touches(s.sh.h, u, m)} | 0 <= m < |s.sh.locks| && s'.sh.vers[m] < u <= s.sh.clock
        && !s.sh.h.commits[u - 1].status.Aborted? && Touches(s.sh.h, u, m)
      ensures Newest(s', m, u)
    {
      assert Newest(s, m, u) && Owned(s, m);
    }
  }

  lemma ReleaseFacts(s: State, i: nat)
    requires Inv(s) && i < |s.txs| && s.txs[i].pc.Release? && TxShape(s.sh, s.txs[i]) && !s.txs[i].noDrop[s.txs[i].pc.k]
    ensures var Release(t, k) := s.txs[i].pc;
            && 0 < t <= s.sh.clock && k < |s.txs[i].writes| && s.txs[i].writes[k].addr < |s.sh.mem|
            && var l := Lk(s.sh, s.txs[i].writes[k].addr);
            && l < |s.sh.locks| && s.sh.locks[l] == Held(i, k) && s.sh.vers[l] < t
            && s.sh.h.commits[t - 1].status.Committed? && s.sh.h.commits[t - 1].writes == s.txs[i].writes
  {
    hide OwnersOk, PendingOk, MemoryOk, PastOk, VersionsOk, LogOk, SnapshotOk, SetsShape, PcOk;
    var tx := s.txs[i];
    assert TxOk(s.sh, i, tx);
    EntryIndex(s.sh, tx, tx.pc.k);
    assert EntryHeld(s.sh, i, tx, tx.pc.k);
  }

  /** At its release a lock uncovers words that are completely written. */
  lemma ReleasedWord(s: State, i: nat, a: nat)
    requires Inv(s) && i < |s.txs| && s.txs[i].pc.Release? && TxShape(s.sh, s.txs[i]) && !s.txs[i].noDrop[s.txs[i].pc.k]
    requires s.txs[i].pc.k < |s.txs[i].writes|
    requires a < |s.sh.mem| && Lk(s.sh, a) == Lk(s.sh, s.txs[i].writes[s.txs[i].pc.k].addr)
    ensures s.sh.mem[a] == ValueAt(s.sh.h, s.sh.clock, a)
  {
    hide PastOk, TxsOk, SetsShape, PendingOk, Apply;
    var tx := s.txs[i];
    var Release(t, k) := tx.pc;
    ReleaseFacts(s, i);
    assert WordOk(s, a) && Owned(s, Lk(s.sh, a));
    forall j | k + 1 <= j < |tx.writes|
      ensures tx.writes[j].addr != a
    {
      LastUnderLock(s, i, k, j);
    }
    ApplyPrefix(tx.writes, k + 1, ValueAt(s.sh.h, t - 1, a), a);
    ValueQuiet(s.sh.h, t, s.sh.clock, a);
  }

  lemma ReleaseMemory(s: State, i: nat)
    requires Inv(s) && i < |s.txs| && s.txs[i].pc.Release? && TxShape(s.sh, s.txs[i]) && !s.txs[i].noDrop[s.txs[i].pc.k]
    requires var r := StepRelease(s.sh, s.txs[i]); Shape(State(r.sh, s.txs[i := r.tx]))
    ensures var r := StepRelease(s.sh, s.txs[i]); MemoryOk(State(r.sh, s.txs[i := r.tx]))
  {
    hide PastOk, TxsOk, SetsShape, OwnersOk, VersionsOk, PendingOk, ValueAt, Apply;
    var tx := s.txs[i];
    var r := StepRelease(s.sh, tx);
    var s' := State(r.sh, s.txs[i := r.tx]);
    ReleaseFacts(s, i);
    forall a | 0 <= a < |s.sh.mem|
      ensures WordOk(s', a)
    {
      assert WordOk(s, a);
      if Lk(s.sh, a) == Lk(s.sh, tx.writes[tx.pc.k].addr) {
        ReleasedWord(s, i, a);
      }
    }
  }

  lemma ReleaseInv(s: State, i: nat, c: Command)
    requires Inv(s) && i < |s.txs| && s.txs[i].pc.Release?
    ensures Inv(Next(s, i, c))
  {
    hide OwnersOk, PendingOk, MemoryOk, PastOk, VersionsOk, TxsOk;
    assert TxShape(s.sh, s.txs[i]);
    if s.txs[i].noDrop[s.txs[i].pc.k] {
      ReleaseSkipInv(s, i);
    } else {
      ReleaseDropInv(s, i, c);
    }
  }

  // ---- rollback ----

  /** The loop of `stm_wbctl_rollback` stops before it runs off the write set. */
  lemma UndoInRange(s: State, i: nat)
    requires Inv(s) && i < |s.txs| && s.txs[i].pc.Undo?
    ensures 0 < s.txs[i].pc.k <= |s.txs[i].writes| && 0 < s.txs[i].acquired
  {
    hide OwnersOk, PendingOk, MemoryOk, PastOk, VersionsOk, LogOk, SnapshotOk, PcOk, StampOk;
    assert TxShape(s.sh, s.txs[i]) && TxOk(s.sh, i, s.txs[i]);
  }

  lemma UndoSkipInv(s: State, i: nat)
    requires Inv(s) && i < |s.txs| && s.txs[i].pc.Undo? && TxShape(s.sh, s.txs[i])
    requires 0 < s.txs[i].pc.k <= |s.txs[i].noDrop| && s.txs[i].noDrop[s.txs[i].pc.k - 1]
    ensures Inv(State(s.sh, s.txs[i := s.txs[i].(pc := Undo(s.txs[i].pc.k - 1))]))
  {
    hide OwnersOk, PendingOk, MemoryOk, PastOk, VersionsOk, LogOk, SnapshotOk, SetsShape;
    var tx := s.txs[i];
    assert TxOk(s.sh, i, tx);
    var pc' := Undo(tx.pc.k - 1);
    LocksPc(s.sh, i, tx, pc');
    MoveInv(s, i, pc');
  }

  lemma UndoDropInv(s: State, i: nat, c: Command)
    requires Inv(s) && i < |s.txs| && s.txs[i].pc.Undo? && TxShape(s.sh, s.txs[i])
    requires 0 < s.txs[i].pc.k <= |s.txs[i].writes| && !s.txs[i].noDrop[s.txs[i].pc.k - 1]
    ensures Inv(Next(s, i, c))
  {
    hide OwnersOk, PendingOk, MemoryOk, PastOk, VersionsOk, LogOk, SnapshotOk, SetsShape, LocksOk, Env, GoodAfter,
         Grows;
    var tx := s.txs[i];
    assert TxOk(s.sh, i, tx);
    var r := StepUndo(s.sh, tx);
    NextShape(s, i, c);
    GoodParts(s.sh, r);
    SnapshotLocks(s.sh, r.sh, tx, r.tx);
    UndoLocks(s, i);
    assert TxOk(r.sh, i, r.tx);
    UndoGlobal(s, i);
    PastLocks(s.sh, r.sh);
    Assemble(s, i, r);
  }

  lemma UndoLocks(s: State, i: nat)
    requires Inv(s) && i < |s.txs| && s.txs[i].pc.Undo? && TxShape(s.sh, s.txs[i])
    requires 0 < s.txs[i].pc.k <= |s.txs[i].writes| && !s.txs[i].noDrop[s.txs[i].pc.k - 1]
    requires GoodAfter(s.sh, StepUndo(s.sh, s.txs[i]))
    ensures LocksOk(StepUndo(s.sh, s.txs[i]).sh, i, StepUndo(s.sh, s.txs[i]).tx)
  {
    hide OwnersOk, PendingOk, MemoryOk, PastOk, VersionsOk, LogOk, SnapshotOk, SetsShape, PcOk, StampOk;
    var tx := s.txs[i];
    var k := tx.pc.k;
    assert TxOk(s.sh, i, tx);
    var r := StepUndo(s.sh, tx);
    EntryIndex(s.sh, tx, k - 1);
    assert EntryHeld(s.sh, i, tx, k - 1);
    forall e | 0 <= e < |tx.writes| && Holds(r.tx, e)
      ensures EntryHeld(r.sh, i, r.tx, e)
    {
      EntryIndex(s.sh, tx, e);
      assert EntryHeld(s.sh, i, tx, e);
    }
  }

  lemma UndoGlobal(s: State, i: nat)
    requires Inv(s) && i < |s.txs| && s.txs[i].pc.Undo? && TxShape(s.sh, s.txs[i])
    requires 0 < s.txs[i].pc.k <= |s.txs[i].writes| && !s.txs[i].noDrop[s.txs[i].pc.k - 1]
    requires var r := StepUndo(s.sh, s.txs[i]);
             GoodAfter(s.sh, r) && Shape(State(r.sh, s.txs[i := r.tx]))
    ensures var r := StepUndo(s.sh, s.txs[i]);
            var s' := State(r.sh, s.txs[i := r.tx]);
            OwnersOk(s') && PendingOk(s') && VersionsOk(s') && MemoryOk(s')
            && forall j :: 0 <= j < |s.txs| && j != i ==> Env(s.sh, s'.sh, j)
  {
    hide PastOk, TxsOk, SetsShape, PcShape, Touches, Grows, ValueAt, Apply;
    var tx := s.txs[i];
    var k := tx.pc.k;
    var r := StepUndo(s.sh, tx);
    var s' := State(r.sh, s.txs[i := r.tx]);
    GrowsSame(s.sh.h);
    UndoFacts(s, i);
    forall m | 0 <= m < |s'.sh.locks|
      ensures Owned(s', m)
    {
      assert Owned(s, m);
    }
    forall m, u {:trigger Touches(s.sh.h, u, m)} | 0 <= m < |s.sh.locks| && s.sh.vers[m] < u <= s.sh.clock
        && !s.sh.h.commits[u - 1].status.Aborted? && Touches(s.sh.h, u, m)
      ensures Newest(s', m, u)
    {
      assert Newest(s, m, u) && Owned(s, m);
    }
    UndoWords(s, i);
    hide MemoryOk;
  }

  lemma UndoWords(s: State, i: nat)
    requires Inv(s) && i < |s.txs| && s.txs[i].pc.Undo? && TxShape(s.sh, s.txs[i])
    requires 0 < s.txs[i].pc.k <= |s.txs[i].writes| && !s.txs[i].noDrop[s.txs[i].pc.k - 1]
    requires var r := StepUndo(s.sh, s.txs[i]);
             GoodAfter(s.sh, r) && Shape(State(r.sh, s.txs[i := r.tx]))
    ensures var r := StepUndo(s.sh, s.txs[i]); MemoryOk(State(r.sh, s.txs[i := r.tx]))
  {
    hide PastOk, TxsOk, SetsShape, PcShape, Touches, Grows, ValueAt, Apply, PendingOk, VersionsOk;
    var r := StepUndo(s.sh, s.txs[i]);
    var s' := State(r.sh, s.txs[i := r.tx]);
    UndoFacts(s, i);
    forall a | 0 <= a < |s.sh.mem|
      ensures WordOk(s', a)
    {
      assert WordOk(s, a) && Owned(s, Lk(s.sh, a));
    }
  }

  lemma UndoFacts(s: State, i: nat)
    requires Inv(s) && i < |s.txs| && s.txs[i].pc.Undo? && TxShape(s.sh, s.txs[i])
    requires 0 < s.txs[i].pc.k <= |s.txs[i].writes| && !s.txs[i].noDrop[s.txs[i].pc.k - 1]
    ensures var tx := s.txs[i]; var k := tx.pc.k;
            && tx.writes[k - 1].addr < |s.sh.mem|
            && var l := Lk(s.sh, tx.writes[k - 1].addr);
            && l < |s.sh.locks| && s.sh.locks[l] == Held(i, k - 1) && s.sh.vers[l] == tx.version[k - 1]
            && (tx.acquired <= 1 ==> forall e :: 0 <= e < k - 1 ==> tx.noDrop[e])
  {
    hide OwnersOk, PendingOk, MemoryOk, PastOk, VersionsOk, LogOk, SnapshotOk, SetsShape, PcOk, StampOk;
    var tx := s.txs[i];
    assert TxOk(s.sh, i, tx);
    EntryIndex(s.sh, tx, tx.pc.k - 1);
    assert EntryHeld(s.sh, i, tx, tx.pc.k - 1);
    CountNone(tx.noDrop, tx.pc.k - 1);
  }

  lemma UndoInv(s: State, i: nat, c: Command)
    requires Inv(s) && i < |s.txs| && s.txs[i].pc.Undo?
    ensures Inv(Next(s, i, c))
  {
    hide OwnersOk, PendingOk, MemoryOk, PastOk, VersionsOk, TxsOk;
    assert TxShape(s.sh, s.txs[i]);
    UndoInRange(s, i);
    if s.txs[i].noDrop[s.txs[i].pc.k - 1] {
      UndoSkipInv(s, i);
    } else {
      UndoDropInv(s, i, c);
    }
  }
}
