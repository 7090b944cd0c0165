/** What holds in every run of the encounter-time locking designs. */
module EtlTheorems {
  import opened CommitHistory
  import opened EtlMachine
  import opened EtlInvariant
  import opened EtlProof
  import opened EtlFrame
  import opened EtlChains
  import opened EtlSteps
  import opened EtlWrites
  import opened EtlCommit
  import opened EtlRelease

  lemma NextInv(s: State, i: nat, c: Command)
    requires Inv(s) && i < |s.txs|
    ensures Inv(Next(s, i, c))
  {
    hide TxsOk, OwnersOk, PendingOk, VersionsOk, MemoryOk, PastOk, Next, Shape;
    match s.txs[i].pc {
      case Idle => UserInv(s, i, c);
      case Active => UserInv(s, i, c);
      case RLoadLock(_) => LoadsInv(s, i, c);
      case RLoadValue(_, _) => LoadsInv(s, i, c);
      case RReloadLock(_, _, _) => ReloadInv(s, i, c);
      case RClock(_, _, _) => LoadsInv(s, i, c);
      case RExtend(_, _, _, _, _) => ExtendInv(s, i, c);
      case RRecheck(_, _, _) => RecheckInv(s, i, c);
      case ROwn(_) => LoadsInv(s, i, c);
      case WLoadLock(_, _, _) => WriteInv(s, i, c);
      case WCas(_, _, _, _) => CasInv(s, i, c);
      case WLoad(_, _, _) => if s.sh.design.WriteBack? { WLoadBackInv(s, i, c); } else { WLoadThroughInv(s, i, c); }
      case WStore(_, _, _, _) => WStoreInv(s, i, c);
      case TakeTime => TimeInv(s, i, c);
      case Validate(_, _) => ValidateInv(s, i, c);
      case Install(_, _) => InstallInv(s, i, c);
      case Release(_, _) => ReleaseInv(s, i, c);
      case Undo(_, _) => UndoInv(s, i, c);
      case UndoLock(_, _) => UndoLockInv(s, i, c);
    }
  }

  /** A schedule says which thread makes its next access, and what its program asks for. */
  datatype Turn = Turn(thread: nat, command: Command)

  function Exec(s: State, run: seq<Turn>): State
    decreases |run|
  {
    if run == [] then s else
      var n := |run| - 1;
      var before := Exec(s, run[..n]);
      if Shape(before) && run[n].thread < |before.txs| then Next(before, run[n].thread, run[n].command) else before
  }

  ghost predicate Reachable(s: State) {
    exists s0: State, run: seq<Turn> :: Initial(s0) && s == Exec(s0, run)
  }

  lemma {:induction false} ExecInv(s: State, run: seq<Turn>)
    requires Inv(s)
    ensures Inv(Exec(s, run))
    decreases |run|
  {
    hide TxsOk, OwnersOk, PendingOk, VersionsOk, MemoryOk, PastOk, Next, Shape;
    if run != [] {
      var n := |run| - 1;
      ExecInv(s, run[..n]);
      var before := Exec(s, run[..n]);
      if run[n].thread < |before.txs| {
        NextInv(before, run[n].thread, run[n].command);
      }
    }
  }

  lemma InitialReachable(s: State)
    requires Initial(s)
    ensures Reachable(s)
  {
    assert s == Exec(s, []);
  }

  lemma ReachableInv(s: State)
    requires Reachable(s)
    ensures Inv(s)
  {
    hide Inv, Initial, Shape;
    var s0: State, run: seq<Turn> :| Initial(s0) && s == Exec(s0, run);
    InitialInv(s0);
    ExecInv(s0, run);
  }

  /** At every moment, whatever a transaction, doomed or not, has read from unlocked words is the committed
      memory of its timestamp `end`; and as long as it has read nothing else, it could have run alone on it. */
  lemma UnlockedReadsAgree(s: State, i: nat)
    requires Reachable(s) && i < |s.txs|
    ensures var tx := s.txs[i];
            && tx.start <= tx.end <= |s.sh.h.commits|
            && (forall k :: 0 <= k < |tx.log| && tx.log[k].Read? && tx.log[k].source.Memory? ==>
                  tx.log[k].addr < |s.sh.h.init| && tx.log[k].source.base == MemoryAt(s.sh.h, tx.end)[tx.log[k].addr])
            && (NoLockReads(tx.log) ==> Replay(MemoryAt(s.sh.h, tx.end), tx.log).Legal?)
  {
    ReachableInv(s);
    TxFacts(s, i);
    assert SharedShape(s.sh);
    var tx := s.txs[i];
    hide Inv, TxShape, RunOk, PcOk, StampOk, ChainsOk, EntriesHeld, EntryValues, Untouched, Replay, ValueAt;
    forall k | 0 <= k < |tx.log| && tx.log[k].Read? && tx.log[k].source.Memory?
      ensures tx.log[k].source.base == ValueAt(s.sh.h, tx.end, tx.log[k].addr)
    {
      var op := tx.log[k];
      assert ReadHolds(s.sh.h, op, tx.end);
      QuietNoCommit(s.sh.h, LockIx(s.sh.h.lockOf, op.addr), op.source.version, tx.end);
      ValueQuiet(s.sh.h, op.source.version, tx.end, op.addr);
    }
    if NoLockReads(tx.log) {
      ReadsHoldSaw(s.sh.h, tx.log, tx.end);
      RunsAlone(s.sh.h, tx.log, tx.end);
    }
  }

  /** What a transaction that is not yet committing has read under its own locks is the newest committed
      memory, on top of which it has written. */
  lemma OwnReadsAreNewest(s: State, i: nat, k: nat)
    requires Reachable(s) && i < |s.txs| && Quiescent(s.txs[i].pc) && k < |s.txs[i].log|
    requires s.txs[i].log[k].Read? && s.txs[i].log[k].source.UnderOwnLock?
    ensures var op := s.txs[i].log[k];
            && op.addr < |s.sh.h.init|
            && op.source.base == MemoryAt(s.sh.h, |s.sh.h.commits|)[op.addr]
            && op.value == Effect(s.txs[i].log[..k], op.source.base, op.addr)
  {
    ReachableInv(s);
    TxFacts(s, i);
    assert SharedShape(s.sh);
    var tx := s.txs[i];
    assert OwnRead(s.sh, i, tx.log[k]);
    assert OpAgrees(tx.log, k);
    hide TxShape, SnapshotOk, PcOk, StampOk, ChainsOk, EntriesHeld, EntryValues, Untouched, Effect, Inv, ValueAt, Base;
    BaseIsLast(s, i, tx.log[k].addr);
  }

  /** Serializability in timestamp order: the t-th committed memory is the result of running the t-th
      transaction alone on its predecessor, or its predecessor itself when timestamp t was not used; and the
      transaction had started before any of the timestamps from `start` on was given out. */
  lemma Serializable(s: State, t: nat)
    requires Reachable(s) && 0 < t <= |s.sh.h.commits|
    ensures var c := s.sh.h.commits[t - 1];
            if c.status.Committed?
            then c.start < t && Replay(MemoryAt(s.sh.h, t - 1), c.log) == Legal(MemoryAt(s.sh.h, t))
            else MemoryAt(s.sh.h, t) == MemoryAt(s.sh.h, t - 1)
  {
    ReachableInv(s);
    hide OwnersOk, PendingOk, VersionsOk, MemoryOk, TxsOk, Replay, Apply, Effect, NoPending, Covers;
    var h := s.sh.h;
    var c := h.commits[t - 1];
    if c.status.Committed? {
      assert CommitOk(s.sh, t);
      forall k | 0 <= k < |c.log| && c.log[k].Read? && c.log[k].source.UnderOwnLock?
        ensures c.log[k].source.base == ValueAt(h, t - 1, c.log[k].addr)
      {
        assert OwnReadAt(h, c.log[k], t);
      }
      ReadsHoldSaw(h, c.log, t - 1);
      RunsAlone(h, c.log, t - 1);
      var m := Replay(MemoryAt(h, t - 1), c.log).mem;
      forall a | 0 <= a < |m|
        ensures m[a] == MemoryAt(h, t)[a]
      {
        assert EffectAt(h, c.log, c.writes, t, a);
        if !Covers(h.lockOf, c.writes, LockIx(h.lockOf, a)) {
          ApplyUncovered(h, c.writes, ValueAt(h, t - 1, a), a);
        }
      }
      assert m == MemoryAt(h, t);
    }
  }

  /** A write-free transaction takes effect at `end`, between its start and its return. */
  lemma WriteFree(s: State, k: nat)
    requires Reachable(s) && k < |s.sh.finished|
    ensures var f := s.sh.finished[k];
            && f.start <= f.end <= f.at <= |s.sh.h.commits|
            && Replay(MemoryAt(s.sh.h, f.end), f.log).Legal?
  {
    ReachableInv(s);
    hide OwnersOk, PendingOk, VersionsOk, MemoryOk, TxsOk, Replay;
    var f := s.sh.finished[k];
    assert FinishedOk(s.sh, f);
    ReadsHoldSaw(s.sh.h, f.log, f.end);
    RunsAlone(s.sh.h, f.log, f.end);
  }

  /** Words whose lock is free are the last committed memory, also when they have been written in place. */
  lemma FreeWordsAreCommitted(s: State, a: nat)
    requires Reachable(s) && a < |s.sh.mem| && LockIx(s.sh.h.lockOf, a) < |s.sh.locks|
    requires s.sh.locks[LockIx(s.sh.h.lockOf, a)].Free?
    ensures a < |s.sh.h.init| && s.sh.mem[a] == MemoryAt(s.sh.h, |s.sh.h.commits|)[a]
  {
    ReachableInv(s);
    hide OwnersOk, PendingOk, VersionsOk, TxsOk, PastOk;
    assert WordOk(s, a);
  }

  /** Isolation: a value loaded between two loads of the lock word that agree is committed, whatever was in
      the word's place in between. */
  lemma AgreedReadIsCommitted(s: State, i: nat, a: nat, v: Stamp, x: Word)
    requires Reachable(s) && i < |s.txs| && s.txs[i].pc == RReloadLock(a, v, x)
    requires LockIx(s.sh.h.lockOf, a) < |s.sh.locks| && s.sh.locks[LockIx(s.sh.h.lockOf, a)] == Free(v)
    ensures a < |s.sh.h.init| && x == MemoryAt(s.sh.h, |s.sh.h.commits|)[a]
  {
    ReachableInv(s);
    TxFacts(s, i);
    SeenIsFixed(s, a, v, x);
    assert SharedShape(s.sh);
    hide Inv, TxOk, ValueAt, NoPending;
    QuietNoCommit(s.sh.h, Lk(s.sh, a), v.version, s.sh.clock);
    ValueQuiet(s.sh.h, v.version, s.sh.clock, a);
  }

  /** The commit releases a lock at the last entry under it, and then every word it guards is the last
      committed memory. */
  lemma ReleaseComplete(s: State, i: nat, a: nat)
    requires Reachable(s) && i < |s.txs| && s.txs[i].pc.Release? && a < |s.sh.mem|
    requires s.txs[i].pc.k < |s.txs[i].entries| && s.txs[i].entries[s.txs[i].pc.k].next == 0
    requires LockIx(s.sh.h.lockOf, a) == LockIx(s.sh.h.lockOf, s.txs[i].entries[s.txs[i].pc.k].addr)
    ensures OwnLock(s.sh, i, LockIx(s.sh.h.lockOf, a))
    ensures forall j :: s.txs[i].pc.k < j < |s.txs[i].entries| ==>
              LockIx(s.sh.h.lockOf, s.txs[i].entries[j].addr) != LockIx(s.sh.h.lockOf, a)
    ensures a < |s.sh.h.init| && s.sh.mem[a] == MemoryAt(s.sh.h, |s.sh.h.commits|)[a]
  {
    ReachableInv(s);
    assert |s.sh.mem| == |s.sh.h.init|;
    HeldNow(s, i, s.txs[i].pc.k);
    LastUnderLock(s, i, s.txs[i].pc.k);
    ReleasedWord(s, i, a);
    hide Inv, EntryHeld;
  }

  /** The rollback releases a lock at the last entry under it, and then every word it guards is back to what
      it was when the lock was taken, which is the last committed memory. */
  lemma RollbackRestores(s: State, i: nat, a: nat)
    requires Reachable(s) && i < |s.txs| && s.txs[i].pc.UndoLock? && a < |s.sh.mem|
    requires s.txs[i].pc.k < |s.txs[i].entries| && s.txs[i].entries[s.txs[i].pc.k].next == 0
    requires LockIx(s.sh.h.lockOf, a) == LockIx(s.sh.h.lockOf, s.txs[i].entries[s.txs[i].pc.k].addr)
    ensures OwnLock(s.sh, i, LockIx(s.sh.h.lockOf, a)) && LockIx(s.sh.h.lockOf, a) < |s.sh.vers|
    ensures s.txs[i].entries[s.txs[i].pc.k].stamp == s.sh.vers[LockIx(s.sh.h.lockOf, a)]
    ensures s.sh.vers[LockIx(s.sh.h.lockOf, a)].version <= |s.sh.h.commits| && a < |s.sh.h.init|
    ensures s.sh.mem[a] == MemoryAt(s.sh.h, s.sh.vers[LockIx(s.sh.h.lockOf, a)].version)[a]
            == MemoryAt(s.sh.h, |s.sh.h.commits|)[a]
  {
    ReachableInv(s);
    assert |s.sh.mem| == |s.sh.h.init|;
    HeldNow(s, i, s.txs[i].pc.k);
    RestoredWord(s, i, a);
    hide Inv;
  }

  /** A held lock belongs to a transaction that is not over. */
  lemma NoLockLeft(s: State, l: nat)
    requires Reachable(s) && l < |s.sh.locks| && s.sh.locks[l].Held?
    ensures var o := s.sh.locks[l].owner;
            o < |s.txs| && !s.txs[o].pc.Idle? && CoversFrom(s.sh.h.lockOf, s.txs[o].entries, Pos(s.txs[o]), l)
  {
    ReachableInv(s);
    hide TxsOk, PendingOk, VersionsOk, MemoryOk, PastOk;
    assert Owned(s, l);
  }

  // ---- successive stamps of a lock, in the write-through design ----

  /** What one step may do to a lock: nothing, or it is taken, or it is released with a later stamp. */
  predicate LockMoves(w: LockWord, v: Stamp, w': LockWord, v': Stamp) {
    || (w' == w && v' == v)
    || (w.Free? && w'.Held? && v' == v)
    || (w.Held? && w' == Free(v') && Before(v, v'))
  }

  lemma StepMovesLocks(s: State, i: nat, c: Command, l: nat)
    requires Inv(s) && i < |s.txs| && l < |s.sh.locks| && s.sh.design.WriteThrough?
    ensures var t := Next(s, i, c);
            && t.sh.design.WriteThrough? && |t.sh.locks| == |s.sh.locks| == |s.sh.vers| == |t.sh.vers|
                 && |t.txs| == |s.txs|
            && LockMoves(s.sh.locks[l], s.sh.vers[l], t.sh.locks[l], t.sh.vers[l])
  {
    TxFacts(s, i);
    var tx := s.txs[i];
    hide TxsOk, OwnersOk, PendingOk, VersionsOk, MemoryOk, PastOk, TxOk, SetsShape, Step, Before, LockMoves;
    if tx.pc.Release? || tx.pc.UndoLock? {
      DropMovesLocks(s, i, c, l);
    } else if tx.pc.WCas? {
      CasMovesLocks(s.sh, i, tx, c, l);
    } else {
      StepKeepsLocks(s.sh, i, tx, c);
      NothingMoves(s.sh.locks[l], s.sh.vers[l]);
    }
  }

  lemma NothingMoves(w: LockWord, v: Stamp)
    ensures LockMoves(w, v, w, v)
  {
  }

  predicate SameLocks(sh: Shared, sh': Shared) {
    sh'.design == sh.design && sh'.locks == sh.locks && sh'.vers == sh.vers
    && sh'.h.lockOf == sh.h.lockOf && sh'.h.init == sh.h.init
  }

  lemma StepKeepsLocks(sh: Shared, i: nat, tx: Tx, c: Command)
    requires SharedShape(sh) && TxShape(sh, tx) && !tx.pc.Release? && !tx.pc.UndoLock? && !tx.pc.WCas?
    ensures SameLocks(sh, Step(sh, i, tx, c).sh)
  {
    hide SetsShape, Find, ChainFind, ChainLast, Linked, Merge, Updates, EntryValid, HasRead, Base;
    if tx.pc.RLoadLock? || tx.pc.RReloadLock? || tx.pc.RRecheck? || tx.pc.RExtend? {
      ReadKeepsLocks(sh, i, tx);
    } else if tx.pc.WLoadLock? {
      WriteKeepsLocks(sh, i, tx);
    }
  }

  lemma ReadKeepsLocks(sh: Shared, i: nat, tx: Tx)
    requires SharedShape(sh) && TxShape(sh, tx)
    ensures tx.pc.RLoadLock? ==> SameLocks(sh, StepLoads(sh, i, tx).sh)
    ensures tx.pc.RReloadLock? ==> SameLocks(sh, StepReload(sh, i, tx).sh)
    ensures tx.pc.RRecheck? ==> SameLocks(sh, StepRecheck(sh, i, tx).sh)
    ensures tx.pc.RExtend? ==> SameLocks(sh, StepExtend(sh, i, tx).sh)
  {
    hide SetsShape, ChainFind, EntryValid, Base;
  }

  lemma WriteEntryKeepsLocks(sh: Shared, tx: Tx, es: seq<WEntry>, k: nat, value: Word, mask: Word)
    requires k < |es|
    ensures WriteEntry(sh, tx, es, k, value, mask).sh == sh
  {
    hide Merge, Join;
  }

  lemma WriteKeepsLocks(sh: Shared, i: nat, tx: Tx)
    requires SharedShape(sh) && TxShape(sh, tx) && tx.pc.WLoadLock?
    ensures StepWrite(sh, i, tx).sh == sh
  {
    hide SetsShape, ChainFind, ChainLast, WriteEntry, HasRead;
    var WLoadLock(a, value, mask) := tx.pc;
    var w := sh.locks[Lk(sh, a)];
    if w.Held? && w.entry < |tx.entries| {
      var k := ChainFind(tx.entries, w.entry, a);
      if k < |tx.entries| {
        WriteEntryKeepsLocks(sh, tx, tx.entries, k, value, mask);
      }
      WriteEntryKeepsLocks(sh, tx, Linked(tx.entries, ChainLast(tx.entries, w.entry), a), |tx.entries|, value, mask);
    }
  }

  lemma CasMovesLocks(sh: Shared, i: nat, tx: Tx, c: Command, l: nat)
    requires SharedShape(sh) && TxShape(sh, tx) && tx.pc.WCas? && l < |sh.locks|
    ensures var sh' := Step(sh, i, tx, c).sh;
            && sh'.design == sh.design && |sh'.locks| == |sh.locks| && sh'.vers == sh.vers
            && LockMoves(sh.locks[l], sh.vers[l], sh'.locks[l], sh'.vers[l])
  {
    hide SetsShape, WriteEntry;
    var WCas(a, value, mask, v) := tx.pc;
    WriteEntryKeepsLocks(sh.(locks := sh.locks[Lk(sh, a) := Held(i, |tx.entries|)]), tx, Acquired(tx.entries, a, v),
                         |tx.entries|, value, mask);
  }

  lemma DropMovesLocks(s: State, i: nat, c: Command, l: nat)
    requires Inv(s) && i < |s.txs| && l < |s.sh.locks| && s.sh.design.WriteThrough?
    requires TxShape(s.sh, s.txs[i]) && (s.txs[i].pc.Release? || s.txs[i].pc.UndoLock?)
    ensures var sh' := Step(s.sh, i, s.txs[i], c).sh;
            && sh'.design == s.sh.design && |sh'.locks| == |s.sh.locks| == |s.sh.vers| == |sh'.vers|
            && LockMoves(s.sh.locks[l], s.sh.vers[l], sh'.locks[l], sh'.vers[l])
  {
    var tx := s.txs[i];
    HeldNow(s, i, tx.pc.k);
    if tx.pc.UndoLock? && (tx.pc.t != 0 || tx.entries[tx.pc.k].stamp.incarnation + 1 <= INCARNATION_MAX) {
      UndoStampNew(s, i);
    }
    assert SharedShape(s.sh);
    hide Inv, SetsShape, NoPending;
  }

  /** Once a lock has been taken, it is next free with a strictly later stamp: a stamp once left never returns. */
  lemma {:induction false} StampsIncrease(s: State, run: seq<Turn>, l: nat)
    requires Inv(s) && l < |s.sh.locks| && s.sh.design.WriteThrough?
    ensures var t := Exec(s, run);
            && t.sh.design.WriteThrough? && |t.sh.locks| == |s.sh.locks| == |s.sh.vers| == |t.sh.vers|
            && NotAfter(s.sh.vers[l], t.sh.vers[l])
            && (s.sh.locks[l].Held? && t.sh.locks[l].Free? ==> Before(s.sh.vers[l], t.sh.locks[l].stamp))
            && (s.sh.locks[l].Held? && t.sh.vers[l] == s.sh.vers[l] ==> t.sh.locks[l].Held?)
    decreases |run|
  {
    if run != [] {
      var n := |run| - 1;
      var before := Exec(s, run[..n]);
      StampsIncrease(s, run[..n], l);
      ExecInv(s, run[..n]);
      FreeStamp(before, l);
      hide Inv, Next;
      if Shape(before) && run[n].thread < |before.txs| {
        StepMovesLocks(before, run[n].thread, run[n].command, l);
      }
    } else {
      FreeStamp(s, l);
    }
  }

  lemma FreeStamp(s: State, l: nat)
    requires Inv(s) && l < |s.sh.locks|
    ensures |s.sh.vers| == |s.sh.locks| && (s.sh.locks[l].Free? ==> s.sh.locks[l].stamp == s.sh.vers[l])
  {
  }

  /** `rollover_clock`: the clock and the lock words are zero again. The record starts again with what memory
      holds; of the descriptors, which a transaction initializes when it begins, only the capacity is used. */
  function RolledOver(s: State): State {
    State(Shared(s.sh.design, s.sh.max, 0, s.sh.mem, seq(|s.sh.locks|, _ => Free(Stamp(0, 0))),
                 seq(|s.sh.locks|, _ => Stamp(0, 0)), History(s.sh.h.lockOf, s.sh.mem, []), []),
          seq(|s.txs|, i requires 0 <= i < |s.txs| => Tx(Idle, false, 0, 0, [], [], [], s.txs[i].size)))
  }

  /** When no transaction is active, the reset loses nothing: memory is the last committed memory, and it is the
      first committed memory of the runs that follow, which begin in an initial state. */
  lemma RolloverStartsAfresh(s: State)
    requires Reachable(s) && forall i :: 0 <= i < |s.txs| ==> s.txs[i].pc.Idle?
    ensures Initial(RolledOver(s))
    ensures MemoryAt(RolledOver(s).sh.h, 0) == s.sh.mem == MemoryAt(s.sh.h, |s.sh.h.commits|)
  {
    ReachableInv(s);
    assert SharedShape(s.sh);
    hide Inv, Reachable;
    forall a | 0 <= a < |s.sh.mem|
      ensures s.sh.mem[a] == MemoryAt(s.sh.h, |s.sh.h.commits|)[a]
    {
      var l := LockIx(s.sh.h.lockOf, a);
      if s.sh.locks[l].Held? { NoLockLeft(s, l); }
      FreeWordsAreCommitted(s, a);
    }
  }
}
