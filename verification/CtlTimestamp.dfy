/** Step by step: taking a commit timestamp and validating the read set with it. */
module CtlTimestamp {
  import opened CommitHistory
  import opened CtlMachine
  import opened CtlInvariant
  import opened CtlProof
  import opened CtlSteps
  import opened CtlCommit

  // ---- the clock is incremented ----

  lemma AppendTouches(h: History, c: CommitHistory.Commit, t: nat, l: nat)
    requires 0 < t <= |h.commits|
    ensures Touches(h.(commits := h.commits + [c]), t, l) == Touches(h, t, l)
  {
  }

  lemma AppendedTouches(h: History, c: CommitHistory.Commit, l: nat)
    ensures Touches(h.(commits := h.commits + [c]), |h.commits| + 1, l) == Covers(h.lockOf, c.writes, l)
  {
  }

  lemma AppendGrows(h: History, c: CommitHistory.Commit)
    ensures Grows(h, h.(commits := h.commits + [c]))
  {
  }

  lemma TimeInv(s: State, i: nat, c: Command)
    requires Inv(s) && i < |s.txs| && s.txs[i].pc.TakeTime?
    ensures Inv(Next(s, i, c))
  {
    hide OwnersOk, PendingOk, MemoryOk, PastOk, VersionsOk, LogOk, SnapshotOk, SetsShape, LocksOk, Env, GoodAfter,
         Grows;
    var tx := s.txs[i];
    assert TxShape(s.sh, tx) && TxOk(s.sh, i, tx);
    var r := StepTime(s.sh, i, tx);
    var e := CommitHistory.Commit(i, Pending, tx.start, tx.writes, tx.log);
    NextShape(s, i, c);
    GoodParts(s.sh, r);
    AppendGrows(s.sh.h, e);
    SnapshotStable(s.sh, r.sh, tx);
    SnapshotPc(r.sh, tx, r.tx.pc);
    SnapshotBound(s.sh, tx);
    TimeLocks(s, i);
    assert TxOk(r.sh, i, r.tx);
    TimeGlobal(s, i);
    TimeMemory(s, i);
    PastGrows(s.sh, r.sh);
    Assemble(s, i, r);
  }

  /** What has been recorded stays valid when nothing new is recorded as committed. */
  lemma PastGrows(sh: Shared, sh': Shared)
    requires SharedShape(sh) && SharedShape(sh') && Grows(sh.h, sh'.h) && sh'.finished == sh.finished
             && |sh'.mem| == |sh.mem|
    requires PastOk(sh) && sh.clock <= sh'.clock
    requires forall t :: 0 < t <= sh'.clock && sh'.h.commits[t - 1].status.Committed? ==>
               t <= sh.clock && (sh.h.commits[t - 1] == sh'.h.commits[t - 1] || CommitOk(sh', t))
    ensures PastOk(sh')
  {
    hide LogOk, ReadsHold, LogAgrees, Grows;
    forall t | 0 < t <= sh'.clock
      ensures CommitOk(sh', t)
    {
      if t <= sh.clock && sh.h.commits[t - 1] == sh'.h.commits[t - 1] && sh.h.commits[t - 1].status.Committed? {
        assert CommitOk(sh, t);
        ReadsGrow(sh.h, sh'.h, sh.h.commits[t - 1].log, t - 1);
      }
    }
    forall k | 0 <= k < |sh'.finished|
      ensures FinishedOk(sh', sh'.finished[k])
    {
      assert FinishedOk(sh, sh.finished[k]);
      ReadsGrow(sh.h, sh'.h, sh.finished[k].log, sh.finished[k].end);
    }
  }

  lemma TimeLocks(s: State, i: nat)
    requires Inv(s) && i < |s.txs| && s.txs[i].pc.TakeTime? && TxShape(s.sh, s.txs[i])
    requires GoodAfter(s.sh, StepTime(s.sh, i, s.txs[i]))
    ensures LocksOk(StepTime(s.sh, i, s.txs[i]).sh, i, StepTime(s.sh, i, s.txs[i]).tx)
  {
    hide OwnersOk, PendingOk, MemoryOk, PastOk, VersionsOk, LogOk, SnapshotOk, SetsShape, PcOk, StampOk;
    var tx := s.txs[i];
    assert TxOk(s.sh, i, tx);
    var r := StepTime(s.sh, i, tx);
    forall e | 0 <= e < |tx.writes| && Holds(r.tx, e)
      ensures EntryHeld(r.sh, i, r.tx, e)
    {
      EntryIndex(s.sh, tx, e);
      assert EntryHeld(s.sh, i, tx, e);
    }
    forall e | From(r.tx) <= e < |tx.writes|
      ensures EntryCovered(r.sh, i, r.tx, e)
    {
      EntryIndex(s.sh, tx, e);
      assert EntryCovered(s.sh, i, tx, e);
    }
  }

  lemma TimeGlobal(s: State, i: nat)
    requires Inv(s) && i < |s.txs| && s.txs[i].pc.TakeTime? && TxShape(s.sh, s.txs[i])
    requires var r := StepTime(s.sh, i, s.txs[i]);
             GoodAfter(s.sh, r) && Shape(State(r.sh, s.txs[i := r.tx]))
    ensures var r := StepTime(s.sh, i, s.txs[i]);
            var s' := State(r.sh, s.txs[i := r.tx]);
            OwnersOk(s') && PendingOk(s') && VersionsOk(s')
    ensures forall j :: 0 <= j < |s.txs| && j != i ==> Env(s.sh, StepTime(s.sh, i, s.txs[i]).sh, j)
  {
    hide PastOk, TxsOk, SetsShape, TxShape, Touches, MemoryOk, Grows;
    var tx := s.txs[i];
    var r := StepTime(s.sh, i, tx);
    var s' := State(r.sh, s.txs[i := r.tx]);
    AppendGrows(s.sh.h, CommitHistory.Commit(i, Pending, tx.start, tx.writes, tx.log));
    forall m | 0 <= m < |s'.sh.locks|
      ensures Owned(s', m)
    {
      assert Owned(s, m);
    }
    forall m, t {:trigger Touches(s'.sh.h, t, m)} | 0 <= m < |s'.sh.locks| && s'.sh.vers[m] < t <= s'.sh.clock
        && !s'.sh.h.commits[t - 1].status.Aborted? && Touches(s'.sh.h, t, m)
      ensures Newest(s', m, t)
    {
      if t <= s.sh.clock {
        AppendTouches(s.sh.h, CommitHistory.Commit(i, Pending, tx.start, tx.writes, tx.log), t, m);
        assert Newest(s, m, t) && Owned(s, m);
      } else {
        AppendedTouches(s.sh.h, CommitHistory.Commit(i, Pending, tx.start, tx.writes, tx.log), m);
        AllHeld(s, i, m, tx.writes);
      }
    }
  }

  /** Once every lock is acquired, every lock that the write set needs is held. */
  lemma AllHeld(s: State, i: nat, m: nat, writes: seq<Update>)
    requires Inv(s) && i < |s.txs| && From(s.txs[i]) == 0 && writes == s.txs[i].writes
    requires Covers(s.sh.h.lockOf, writes, m)
    ensures m < |s.sh.locks| && s.sh.locks[m].Held? && s.sh.locks[m].owner == i
  {
    hide OwnersOk, PendingOk, MemoryOk, PastOk, VersionsOk, LogOk, SnapshotOk, SetsShape, PcOk, StampOk;
    var tx := s.txs[i];
    assert TxShape(s.sh, tx) && TxOk(s.sh, i, tx);
    var k :| 0 <= k < |writes| && LockIx(s.sh.h.lockOf, writes[k].addr) == m;
    EntryIndex(s.sh, tx, k);
    assert EntryCovered(s.sh, i, tx, k);
  }

  lemma TimeMemory(s: State, i: nat)
    requires Inv(s) && i < |s.txs| && s.txs[i].pc.TakeTime? && TxShape(s.sh, s.txs[i])
    requires var r := StepTime(s.sh, i, s.txs[i]); Shape(State(r.sh, s.txs[i := r.tx]))
    ensures var r := StepTime(s.sh, i, s.txs[i]); MemoryOk(State(r.sh, s.txs[i := r.tx]))
  {
    hide PastOk, SetsShape, TxShape, Touches, Apply, OwnersOk, VersionsOk, PendingOk, LogOk, SnapshotOk, LocksOk, PcOk;
    var tx := s.txs[i];
    var r := StepTime(s.sh, i, tx);
    var s' := State(r.sh, s.txs[i := r.tx]);
    var e := CommitHistory.Commit(i, Pending, tx.start, tx.writes, tx.log);
    forall a | 0 <= a < |s.sh.mem|
      ensures WordOk(s', a)
    {
      assert WordOk(s, a);
      ValueAppend(s.sh.h, e, s.sh.clock, a);
      var l := s.sh.locks[Lk(s.sh, a)];
      if l.Held? && l.owner < |s.txs| && Writing(s.txs[l.owner].pc) {
        assert TxOk(s.sh, l.owner, s.txs[l.owner]);
        assert Ts(s.txs[l.owner].pc) > 0 by { WritingStamp(s, l.owner); }
        ValueAppend(s.sh.h, e, Ts(s.txs[l.owner].pc) - 1, a);
      }
    }
  }

  lemma WritingStamp(s: State, o: nat)
    requires Inv(s) && o < |s.txs| && (Writing(s.txs[o].pc) || s.txs[o].pc.Validate?)
    ensures 0 < Ts(s.txs[o].pc) <= s.sh.clock
  {
    hide PastOk, TxsOk, MemoryOk, OwnersOk, VersionsOk, PendingOk;
    assert TxShape(s.sh, s.txs[o]);
  }

  // ---- the decision ----

  lemma RecordTouches(h: History, t: nat, st: Status, u: nat, l: nat)
    requires 0 < t <= |h.commits| && 0 < u <= |h.commits|
    ensures Touches(Record(h, t, st), u, l) == Touches(h, u, l)
  {
  }

  /** The clauses about locks and timestamps after a thread decides its own. */
  lemma DecideGlobal(s: State, i: nat, st: Status, pc': Pc)
    requires Inv(s) && i < |s.txs| && s.txs[i].pc.Validate? && st != Pending
    requires 0 < s.txs[i].pc.t <= s.sh.clock
    requires if st.Committed? then pc' == Install(s.txs[i].pc.t, 0) else pc' == RollbackPc(s.txs[i])
    ensures var sh' := s.sh.(h := Record(s.sh.h, s.txs[i].pc.t, st));
            var s' := State(sh', s.txs[i := s.txs[i].(pc := pc')]);
            && SharedShape(sh') && OwnersOk(s') && PendingOk(s') && VersionsOk(s') && Grows(s.sh.h, sh'.h)
    ensures var sh' := s.sh.(h := Record(s.sh.h, s.txs[i].pc.t, st));
            forall j :: 0 <= j < |s.txs| && j != i ==> Env(s.sh, sh', j)
  {
    hide PastOk, Touches, MemoryOk, Grows, SnapshotOk, LogOk, PcOk, Marks, Count;
    var tx := s.txs[i];
    var t := tx.pc.t;
    assert TxShape(s.sh, tx) && TxOk(s.sh, i, tx);
    RecordGrows(s.sh.h, t, st);
    var s' := State(s.sh.(h := Record(s.sh.h, t, st)), s.txs[i := tx.(pc := pc')]);
    CountNone(tx.noDrop, |tx.noDrop|);
    MarksCount(tx);
    forall m | 0 <= m < |s'.sh.locks|
      ensures Owned(s', m)
    {
      hide VersionsOk, PendingOk;
      assert Owned(s, m);
    }
    forall m, u {:trigger Touches(s'.sh.h, u, m)} | 0 <= m < |s'.sh.locks| && s'.sh.vers[m] < u <= s'.sh.clock
        && !s'.sh.h.commits[u - 1].status.Aborted? && Touches(s'.sh.h, u, m)
      ensures Newest(s', m, u)
    {
      RecordTouches(s.sh.h, t, st, u, m);
      assert Newest(s, m, u) && Owned(s, m);
    }
  }

  lemma WordUntouched(s: State, i: nat, t: nat, st: Status, e: nat, a: nat)
    requires Inv(s) && i < |s.txs| && s.txs[i].pc.Validate? && s.txs[i].pc.t == t && 0 < t <= s.sh.clock
    requires a < |s.sh.mem| && e <= s.sh.clock && !st.Pending?
    requires st.Aborted? || !(s.sh.locks[Lk(s.sh, a)].Held? && s.sh.locks[Lk(s.sh, a)].owner == i)
    ensures ValueAt(Record(s.sh.h, t, st), e, a) == ValueAt(s.sh.h, e, a)
  {
    hide OwnersOk, PendingOk, MemoryOk, PastOk, VersionsOk, LogOk, SnapshotOk, SetsShape, PcOk, LocksOk;
    assert TxShape(s.sh, s.txs[i]) && TxOk(s.sh, i, s.txs[i]);
    if st.Committed? {
      if Touches(s.sh.h, t, Lk(s.sh, a)) {
        AllHeld(s, i, Lk(s.sh, a), s.txs[i].writes);
      }
    }
    ValueRecord(s.sh.h, t, st, e, a);
  }

  /** A word under a lock of thread i has not changed since the timestamp of i was taken. */
  lemma SinceStamp(s: State, i: nat, a: nat)
    requires Inv(s) && i < |s.txs| && a < |s.sh.mem| && s.txs[i].pc.Validate?
    requires s.sh.locks[Lk(s.sh, a)].Held? && s.sh.locks[Lk(s.sh, a)].owner == i
    ensures 0 < s.txs[i].pc.t <= s.sh.clock
    ensures ValueAt(s.sh.h, s.sh.clock, a) == ValueAt(s.sh.h, s.txs[i].pc.t - 1, a)
  {
    hide PendingOk, MemoryOk, PastOk, LogOk, SnapshotOk, SetsShape, PcOk, ValueAt;
    var l := Lk(s.sh, a);
    var tx := s.txs[i];
    assert TxShape(s.sh, tx) && TxOk(s.sh, i, tx);
    assert Owned(s, l) && EntryHeld(s.sh, i, tx, s.sh.locks[l].entry);
    ValueQuiet(s.sh.h, tx.pc.t - 1, s.sh.clock, a);
  }

  lemma DecideMemory(s: State, i: nat, st: Status, pc': Pc)
    requires Inv(s) && i < |s.txs| && s.txs[i].pc.Validate? && st != Pending
    requires 0 < s.txs[i].pc.t <= s.sh.clock
    requires if st.Committed? then pc' == Install(s.txs[i].pc.t, 0) else pc' == RollbackPc(s.txs[i])
    requires Shape(State(s.sh.(h := Record(s.sh.h, s.txs[i].pc.t, st)), s.txs[i := s.txs[i].(pc := pc')]))
    ensures MemoryOk(State(s.sh.(h := Record(s.sh.h, s.txs[i].pc.t, st)), s.txs[i := s.txs[i].(pc := pc')]))
  {
    hide PastOk, SetsShape, TxShape, Touches, OwnersOk, VersionsOk, PendingOk, TxsOk, ValueAt, Apply;
    var tx := s.txs[i];
    var t := tx.pc.t;
    var sh' := s.sh.(h := Record(s.sh.h, t, st));
    var s' := State(sh', s.txs[i := tx.(pc := pc')]);
    forall a | 0 <= a < |s.sh.mem|
      ensures WordOk(s', a)
    {
      assert WordOk(s, a);
      var l := s.sh.locks[Lk(s.sh, a)];
      if l.Held? && l.owner == i {
        SinceStamp(s, i, a);
        ValueRecord(s.sh.h, t, st, t - 1, a) by { StampPending(s, i); }
        if st.Aborted? {
          WordUntouched(s, i, t, st, s.sh.clock, a);
        } else {
          ApplyNothing(tx.writes, ValueAt(s.sh.h, t - 1, a), a);
        }
      } else {
        WordUntouched(s, i, t, st, s.sh.clock, a);
        if l.Held? && l.owner < |s.txs| && Writing(s.txs[l.owner].pc) {
          WritingStamp(s, l.owner);
          WordUntouched(s, i, t, st, Ts(s.txs[l.owner].pc) - 1, a);
        }
      }
    }
  }

  lemma ApplyNothing(us: seq<Update>, x: Word, a: nat)
    ensures Apply(us[..0], x, a) == x
  {
  }

  lemma StampPending(s: State, i: nat)
    requires Inv(s) && i < |s.txs| && s.txs[i].pc.Validate?
    ensures 0 < s.txs[i].pc.t <= s.sh.clock && s.sh.h.commits[s.txs[i].pc.t - 1].status.Pending?
  {
    hide PastOk, OwnersOk, VersionsOk, PendingOk, MemoryOk, LogOk, SnapshotOk, PcOk, LocksOk;
    assert TxShape(s.sh, s.txs[i]) && TxOk(s.sh, i, s.txs[i]);
  }

  // ---- validation ----

  lemma ValidateNextInv(s: State, i: nat)
    requires Inv(s) && i < |s.txs| && s.txs[i].pc.Validate? && TxShape(s.sh, s.txs[i])
    requires s.txs[i].pc.k < |s.txs[i].rset| && EntryValid(s.sh, i, s.txs[i], s.txs[i].pc.k)
    ensures Inv(State(s.sh, s.txs[i := s.txs[i].(pc := Validate(s.txs[i].pc.t, s.txs[i].pc.k + 1))]))
  {
    hide OwnersOk, PendingOk, MemoryOk, PastOk, VersionsOk, LogOk, SnapshotOk, SetsShape, Quiet, EntryValid;
    var tx := s.txs[i];
    assert TxOk(s.sh, i, tx);
    ValidIsQuiet(s, i, tx.pc.k);
    var pc' := Validate(tx.pc.t, tx.pc.k + 1);
    LocksPc(s.sh, i, tx, pc');
    MoveInv(s, i, pc');
  }

  lemma ValidateFailInv(s: State, i: nat, c: Command)
    requires Inv(s) && i < |s.txs| && s.txs[i].pc.Validate? && TxShape(s.sh, s.txs[i])
    requires var tx := s.txs[i]; !((tx.pc.k == 0 && tx.start == tx.pc.t - 1) || tx.pc.k == |tx.rset|)
    requires s.txs[i].pc.k < |s.txs[i].rset| && !EntryValid(s.sh, i, s.txs[i], s.txs[i].pc.k)
    ensures Inv(Next(s, i, c))
  {
    hide OwnersOk, PendingOk, MemoryOk, PastOk, VersionsOk, LogOk, SnapshotOk, SetsShape, LocksOk, Env, GoodAfter,
         Grows, EntryValid;
    var tx := s.txs[i];
    assert TxOk(s.sh, i, tx);
    var r := StepValidate(s.sh, i, tx);
    NextShape(s, i, c);
    GoodParts(s.sh, r);
    DecideGlobal(s, i, Aborted, RollbackPc(tx));
    DecideMemory(s, i, Aborted, RollbackPc(tx));
    SnapshotStable(s.sh, r.sh, tx);
    SnapshotPc(r.sh, tx, r.tx.pc);
    AbortLocks(s, i);
    assert TxOk(r.sh, i, r.tx);
    PastGrows(s.sh, r.sh);
    Assemble(s, i, r);
  }

  lemma AbortLocks(s: State, i: nat)
    requires Inv(s) && i < |s.txs| && s.txs[i].pc.Validate? && TxShape(s.sh, s.txs[i])
    requires var sh' := s.sh.(h := Record(s.sh.h, s.txs[i].pc.t, Aborted));
             SharedShape(sh') && TxShape(sh', s.txs[i].(pc := RollbackPc(s.txs[i])))
    ensures LocksOk(s.sh.(h := Record(s.sh.h, s.txs[i].pc.t, Aborted)), i, s.txs[i].(pc := RollbackPc(s.txs[i])))
  {
    hide OwnersOk, PendingOk, MemoryOk, PastOk, VersionsOk, LogOk, SnapshotOk, SetsShape, PcOk, StampOk;
    var tx := s.txs[i];
    assert TxOk(s.sh, i, tx);
    SetsLengths(s.sh, tx);
    MarksCount(tx);
    var tx' := tx.(pc := RollbackPc(tx));
    forall e | 0 <= e < |tx.writes| && Holds(tx', e)
      ensures EntryHeld(s.sh.(h := Record(s.sh.h, tx.pc.t, Aborted)), i, tx', e)
    {
      EntryIndex(s.sh, tx, e);
      assert EntryHeld(s.sh, i, tx, e);
    }
  }

  /** The whole read set has been found valid, or nobody else has committed since the start. */
  lemma ReadsHoldAtCommit(sh: Shared, i: nat, tx: Tx)
    requires SharedShape(sh) && TxShape(sh, tx) && tx.pc.Validate? && SnapshotOk(sh, tx) && PcOk(sh, tx)
             && StampOk(sh, i, tx)
    requires (tx.pc.k == 0 && tx.start == tx.pc.t - 1) || tx.pc.k == |tx.rset|
    ensures ReadsHold(sh.h, tx.log, tx.pc.t - 1)
  {
    hide Quiet, NoPending, SetsShape;
    if tx.pc.k == |tx.rset| {
      SnapshotMoves(sh, tx, tx.pc.t - 1);
    }
  }

  lemma ValidateDoneInv(s: State, i: nat, c: Command)
    requires Inv(s) && i < |s.txs| && s.txs[i].pc.Validate? && TxShape(s.sh, s.txs[i])
    requires var tx := s.txs[i]; (tx.pc.k == 0 && tx.start == tx.pc.t - 1) || tx.pc.k == |tx.rset|
    ensures Inv(Next(s, i, c))
  {
    hide OwnersOk, PendingOk, MemoryOk, PastOk, VersionsOk, LogOk, SnapshotOk, SetsShape, LocksOk, Env, GoodAfter,
         Grows, EntryValid, QuietReads;
    var tx := s.txs[i];
    var t := tx.pc.t;
    assert TxOk(s.sh, i, tx);
    var r := StepValidate(s.sh, i, tx);
    NextShape(s, i, c);
    GoodParts(s.sh, r);
    DecideGlobal(s, i, Committed, Install(t, 0));
    DecideMemory(s, i, Committed, Install(t, 0));
    SnapshotStable(s.sh, r.sh, tx);
    SnapshotPc(r.sh, tx, r.tx.pc);
    CommitLocks(s, i);
    assert TxOk(r.sh, i, r.tx);
    CommitPast(s, i);
    Assemble(s, i, r);
  }

  lemma CommitPast(s: State, i: nat)
    requires Inv(s) && i < |s.txs| && s.txs[i].pc.Validate? && TxShape(s.sh, s.txs[i])
    requires var tx := s.txs[i]; (tx.pc.k == 0 && tx.start == tx.pc.t - 1) || tx.pc.k == |tx.rset|
    requires SharedShape(s.sh.(h := Record(s.sh.h, s.txs[i].pc.t, Committed)))
    requires Grows(s.sh.h, Record(s.sh.h, s.txs[i].pc.t, Committed))
    ensures PastOk(s.sh.(h := Record(s.sh.h, s.txs[i].pc.t, Committed)))
  {
    hide OwnersOk, PendingOk, MemoryOk, PastOk, VersionsOk, LogOk, ReadsHold, SetsShape, LocksOk, Grows, QuietReads;
    var tx := s.txs[i];
    var t := tx.pc.t;
    var sh' := s.sh.(h := Record(s.sh.h, t, Committed));
    assert TxOk(s.sh, i, tx);
    ReadsHoldAtCommit(s.sh, i, tx);
    ReadsGrow(s.sh.h, sh'.h, tx.log, t - 1);
    assert NoLockReads(tx.log) by { SourcesNoLock(s.sh, tx); }
    assert CommitOk(sh', t);
    PastGrows(s.sh, sh');
  }

  lemma SourcesNoLock(sh: Shared, tx: Tx)
    requires SourcesKnown(sh, tx)
    ensures NoLockReads(tx.log)
  {
  }

  lemma CommitLocks(s: State, i: nat)
    requires Inv(s) && i < |s.txs| && s.txs[i].pc.Validate? && TxShape(s.sh, s.txs[i])
    requires var sh' := s.sh.(h := Record(s.sh.h, s.txs[i].pc.t, Committed));
             SharedShape(sh') && TxShape(sh', s.txs[i].(pc := Install(s.txs[i].pc.t, 0)))
    ensures LocksOk(s.sh.(h := Record(s.sh.h, s.txs[i].pc.t, Committed)), i, s.txs[i].(pc := Install(s.txs[i].pc.t, 0)))
  {
    hide OwnersOk, PendingOk, MemoryOk, PastOk, VersionsOk, LogOk, SnapshotOk, SetsShape, PcOk, StampOk;
    var tx := s.txs[i];
    assert TxOk(s.sh, i, tx);
    var tx' := tx.(pc := Install(tx.pc.t, 0));
    var sh' := s.sh.(h := Record(s.sh.h, tx.pc.t, Committed));
    forall e | 0 <= e < |tx.writes| && Holds(tx', e)
      ensures EntryHeld(sh', i, tx', e)
    {
      EntryIndex(s.sh, tx, e);
      assert EntryHeld(s.sh, i, tx, e);
    }
    forall e | From(tx') <= e < |tx.writes|
      ensures EntryCovered(sh', i, tx', e)
    {
      EntryIndex(s.sh, tx, e);
      assert EntryCovered(s.sh, i, tx, e);
    }
  }

  lemma ValidateInv(s: State, i: nat, c: Command)
    requires Inv(s) && i < |s.txs| && s.txs[i].pc.Validate?
    ensures Inv(Next(s, i, c))
  {
    hide OwnersOk, PendingOk, MemoryOk, PastOk, VersionsOk, TxsOk, SetsShape, EntryValid;
    var tx := s.txs[i];
    assert TxShape(s.sh, tx);
    if (tx.pc.k == 0 && tx.start == tx.pc.t - 1) || tx.pc.k == |tx.rset| {
      ValidateDoneInv(s, i, c);
    } else if EntryValid(s.sh, i, tx, tx.pc.k) {
      ValidateNextInv(s, i);
    } else {
      ValidateFailInv(s, i, c);
    }
  }
}
