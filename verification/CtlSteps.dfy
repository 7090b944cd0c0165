/** Step by step: the accesses of `stm_wbctl_read` and `stm_wbctl_write`, and the user's side. */
module CtlSteps {
  import opened CommitHistory
  import opened CtlMachine
  import opened CtlInvariant
  import opened CtlProof

  /** From the acting thread's clauses to the whole invariant, when only bookkeeping of the past changes. */
  lemma LocalInv(s: State, i: nat, tx': Tx, fin: seq<Finished>)
    requires Inv(s) && i < |s.txs| && TxShape(s.sh, tx') && SameRole(s.txs[i], tx')
    requires var sh' := s.sh.(finished := fin); TxOk(sh', i, tx') && PastOk(sh')
    ensures Inv(State(s.sh.(finished := fin), s.txs[i := tx']))
  {
    var sh' := s.sh.(finished := fin);
    LocalKeeps(s, i, tx', fin);
    hide LogOk, SnapshotOk, PcOk, StampOk, LocksOk, PastOk, OwnersOk, PendingOk, VersionsOk, MemoryOk, SetsShape,
         PcShape, SameRole;
    var txs' := s.txs[i := tx'];
    forall j | 0 <= j < |s.txs|
      ensures TxOk(sh', j, txs'[j])
    {
      if j != i {
        assert TxOk(s.sh, j, s.txs[j]) && TxShape(s.sh, s.txs[j]);
        SameShared(s.sh, fin, j, s.txs[j]);
      }
    }
  }

  lemma SameShared(sh: Shared, fin: seq<Finished>, j: nat, tx: Tx)
    requires SharedShape(sh) && TxShape(sh, tx) && TxOk(sh, j, tx)
    requires forall l :: 0 <= l < |sh.locks| ==> sh.vers[l] <= sh.clock
    ensures TxOk(sh.(finished := fin), j, tx)
  {
    hide SetsShape, PcShape, TxOk;
    TxStable(sh, sh.(finished := fin), j, tx);
  }

  /** No thread between operations, or reading, or about to write, holds a lock. */
  lemma NothingHeld(tx: Tx, tx': Tx)
    requires !tx.pc.AcqLoad? && !tx.pc.AcqCas? && !tx.pc.TakeTime? && !tx.pc.Validate? && !tx.pc.Undo?
             && !Writing(tx.pc)
    ensures SameRole(tx, tx')
  {
  }

  predicate Quiescent(pc: Pc) {
    !pc.AcqLoad? && !pc.AcqCas? && !pc.TakeTime? && !pc.Validate? && !pc.Undo? && !Writing(pc)
  }

  /** A thread without locks that changes neither its snapshot nor its sets only has to justify its next access. */
  lemma QuietInv(s: State, i: nat, pc': Pc)
    requires Inv(s) && i < |s.txs|
    requires Quiescent(s.txs[i].pc) && Quiescent(pc')
    requires !s.txs[i].pc.Idle?
    requires var tx' := s.txs[i].(pc := pc'); TxShape(s.sh, tx') && PcOk(s.sh, tx')
    ensures Inv(State(s.sh, s.txs[i := s.txs[i].(pc := pc')]))
  {
    hide LogOk, SnapshotOk, PcOk, PastOk, OwnersOk, PendingOk, VersionsOk, MemoryOk, SetsShape, PcShape;
    var tx := s.txs[i];
    var tx' := tx.(pc := pc');
    assert TxShape(s.sh, tx) && TxOk(s.sh, i, tx);
    NothingHeld(tx, tx');
    SnapshotPc(s.sh, tx, pc');
    assert s.sh.(finished := s.sh.finished) == s.sh;
    LocalInv(s, i, tx', s.sh.finished);
  }

  lemma SnapshotPc(sh: Shared, tx: Tx, pc': Pc)
    requires SharedShape(sh) && SnapshotOk(sh, tx)
    ensures SnapshotOk(sh, tx.(pc := pc'))
  {
    hide ReadsHold;
    var tx' := tx.(pc := pc');
    assert tx'.log == tx.log;
    forall k {:trigger tx'.log[k]} | 0 <= k < |tx'.log| && tx'.log[k].Read?
      ensures match tx'.log[k].source
              case Memory(v, _) => tx'.readOnly || REntry(Lk(sh, tx'.log[k].addr), v) in tx'.rset
              case Buffer => true
              case UnderOwnLock(_) => false
    {
      assert tx.log[k] == tx'.log[k];
    }
  }

  // ---- user ----

  lemma BeginInv(s: State, i: nat, ro: bool)
    requires Inv(s) && i < |s.txs| && s.txs[i].pc.Idle? && s.sh.clock < s.sh.max
    ensures Inv(Next(s, i, Begin(ro)))
  {
    hide PastOk, OwnersOk, PendingOk, VersionsOk, MemoryOk;
    var tx' := Tx(Active, ro, s.sh.clock, s.sh.clock, [], [], [], [], 0, []);
    NothingHeld(s.txs[i], tx');
    assert TxOk(s.sh, i, tx');
    assert s.sh.(finished := s.sh.finished) == s.sh;
    LocalInv(s, i, tx', s.sh.finished);
  }

  /** A word the transaction has fully written reads back as written, whatever memory holds. */
  lemma BufferedRead(log: seq<Op>, writes: seq<Update>, n: nat, a: nat)
    requires LogOk(log, writes, n) && a < n
    requires var k := Find(writes, a); k < |writes| && writes[k].mask == ALL_BITS
    ensures LogOk(log + [Read(a, writes[Find(writes, a)].value, Buffer)], writes, n)
  {
    hide Merge, Apply, Effect;
    var k := Find(writes, a);
    var op := Read(a, writes[k].value, Buffer);
    var log' := log + [op];
    assert log'[..|log|] == log && log'[|log|] == op;
    forall x: Word
      ensures op.value == Effect(log, x, a)
    {
      assert Effect(log, x, a) == Apply(writes, x, a);
      ApplyEntry(writes, k, x);
      MergeAll(x, writes[k].value);
    }
    assert OpAgrees(log', |log|);
    AgreesAppend(log, op);
    AddRead(log, writes, op);
  }

  lemma LoadInv(s: State, i: nat, a: nat)
    requires Inv(s) && i < |s.txs| && s.txs[i].pc.Active?
    ensures Inv(Next(s, i, Load(a)))
  {
    hide PastOk, OwnersOk, PendingOk, VersionsOk, MemoryOk, SetsShape, LogOk, ReadsHold, Find;
    var tx := s.txs[i];
    assert TxShape(s.sh, tx) && TxOk(s.sh, i, tx);
    if a < |s.sh.mem| {
      var k := Find(tx.writes, a);
      if k < |tx.writes| && tx.writes[k].mask == ALL_BITS {
        BufferedRead(tx.log, tx.writes, |s.sh.mem|, a);
        var tx' := tx.(log := tx.log + [Read(a, tx.writes[k].value, Buffer)]);
        NothingHeld(tx, tx');
        ReadsAppend(s.sh.h, tx.log, Read(a, tx.writes[k].value, Buffer), tx.end);
        assert SnapshotOk(s.sh, tx');
        assert LocksOk(s.sh, i, tx');
        assert s.sh.(finished := s.sh.finished) == s.sh;
        LocalInv(s, i, tx', s.sh.finished);
      } else {
        QuietInv(s, i, RLoadLock(a));
      }
    } else {
      assert s.txs[i := tx] == s.txs;
    }
  }

  lemma ReadsAppend(h: History, log: seq<Op>, op: Op, e: nat)
    requires e <= |h.commits| && ReadsHold(h, log, e) && ReadHolds(h, op, e)
    ensures ReadsHold(h, log + [op], e)
  {
  }

  lemma CommitEmptyInv(s: State, i: nat)
    requires Inv(s) && i < |s.txs| && s.txs[i].pc.Active? && s.txs[i].writes == []
    ensures Inv(Next(s, i, Command.Commit))
  {
    hide OwnersOk, PendingOk, VersionsOk, MemoryOk, ReadsHold, LogAgrees, SameEffect, SetsShape, InRange;
    var tx := s.txs[i];
    assert TxShape(s.sh, tx) && TxOk(s.sh, i, tx);
    var f := Finished(i, tx.log, tx.start, tx.end, s.sh.clock);
    var fin := s.sh.finished + [f];
    var sh' := s.sh.(finished := fin);
    var tx' := tx.(pc := Idle);
    NothingHeld(tx, tx');
    assert NoLockReads(tx.log);
    assert FinishedOk(sh', f);
    assert PastOk(sh') by {
      forall t | 0 < t <= sh'.clock
        ensures CommitOk(sh', t)
      {
        assert CommitOk(s.sh, t);
      }
      forall k | 0 <= k < |fin|
        ensures FinishedOk(sh', fin[k])
      {
        if k < |s.sh.finished| {
          assert FinishedOk(s.sh, s.sh.finished[k]);
        }
      }
    }
    SnapshotPc(s.sh, tx, Idle);
    assert LocksOk(sh', i, tx');
    assert TxOk(sh', i, tx');
    LocalInv(s, i, tx', fin);
  }

  lemma OtherUserInv(s: State, i: nat, c: Command)
    requires Inv(s) && i < |s.txs| && s.txs[i].pc.Active?
    requires c.Begin? || c.Store? || c.Abort? || (c.Commit? && s.txs[i].writes != [])
    ensures Inv(Next(s, i, c))
  {
    hide OwnersOk, PendingOk, VersionsOk, MemoryOk, PastOk, LogOk, SnapshotOk, ReadsHold, SetsShape;
    var tx := s.txs[i];
    assert TxShape(s.sh, tx) && TxOk(s.sh, i, tx);
    assert s.txs[i := tx] == s.txs;
    match c {
      case Store(a, value, mask) =>
        if a < |s.sh.mem| && !tx.readOnly {
          QuietInv(s, i, WLoadLock(a, value, mask));
        }
      case Abort =>
        QuietInv(s, i, Idle);
      case Commit =>
        var tx' := tx.(pc := AcqLoad(|tx.writes|));
        NothingHeld(tx, tx');
        SnapshotPc(s.sh, tx, AcqLoad(|tx.writes|));
        CountNone(tx.noDrop, |tx.noDrop|);
        assert LocksOk(s.sh, i, tx');
        assert s.sh.(finished := s.sh.finished) == s.sh;
        LocalInv(s, i, tx', s.sh.finished);
      case _ =>
    }
  }

  lemma {:induction false} CountNone(noDrop: seq<bool>, n: nat)
    requires n <= |noDrop|
    ensures (forall j :: 0 <= j < n ==> noDrop[j]) <==> Count(noDrop, n) == 0
  {
    if n > 0 {
      CountNone(noDrop, n - 1);
    }
  }

  lemma UserInv(s: State, i: nat, c: Command)
    requires Inv(s) && i < |s.txs| && (s.txs[i].pc.Idle? || s.txs[i].pc.Active?)
    ensures Inv(Next(s, i, c))
  {
    hide TxsOk, OwnersOk, PendingOk, VersionsOk, MemoryOk, PastOk;
    if s.txs[i].pc.Idle? {
      if c.Begin? && s.sh.clock < s.sh.max {
        BeginInv(s, i, c.readOnly);
      } else {
        assert s.txs[i := s.txs[i]] == s.txs;
      }
    } else if c.Load? {
      LoadInv(s, i, c.a);
    } else if c.Commit? && s.txs[i].writes == [] {
      CommitEmptyInv(s, i);
    } else {
      OtherUserInv(s, i, c);
    }
  }

  // ---- read ----

  lemma LockIndex(sh: Shared, a: nat)
    requires SharedShape(sh) && a < |sh.mem|
    ensures Lk(sh, a) < |sh.locks|
  {
  }

  lemma ReadWithInv(s: State, i: nat, a: nat)
    requires Inv(s) && i < |s.txs| && a < |s.sh.mem| && Quiescent(s.txs[i].pc) && !s.txs[i].pc.Idle?
    ensures var r := ReadWith(s.sh, s.txs[i], a, s.sh.locks[Lk(s.sh, a)]);
            Inv(State(r.sh, s.txs[i := r.tx]))
  {
    hide OwnersOk, PendingOk, MemoryOk, PastOk, TxsOk, VersionsOk, TxShape, NoPending, Quiet;
    var l := Lk(s.sh, a);
    assert TxShape(s.sh, s.txs[i]);
    if s.sh.locks[l].Held? {
      ShapePc(s.sh, s.txs[i], RLoadLock(a));
      QuietInv(s, i, RLoadLock(a));
    } else {
      var v := s.sh.locks[l].version;
      FreeIsQuiet(s, l);
      assert v <= s.sh.clock by { VersionBound(s, l); }
      ShapePc(s.sh, s.txs[i], RLoadValue(a, v));
      assert Seen(s.sh, a, v) by { NoPendingLess(s.sh.h, l, v, s.sh.clock); }
      QuietInv(s, i, RLoadValue(a, v));
    }
  }

  lemma NoPendingLess(h: History, l: nat, lo: nat, hi: nat)
    requires lo <= hi <= |h.commits| && NoPending(h, l, hi)
    ensures NoPending(h, l, lo)
  {
  }

  lemma QuietLess(h: History, l: nat, v: nat, lo: nat, hi: nat)
    requires lo <= hi <= |h.commits| && Quiet(h, l, v, hi)
    ensures Quiet(h, l, v, lo)
  {
  }

  lemma VersionBound(s: State, l: nat)
    requires Shape(s) && VersionsOk(s) && l < |s.sh.locks|
    ensures s.sh.vers[l] <= s.sh.clock
  {
  }

  lemma ShapePc(sh: Shared, tx: Tx, pc': Pc)
    requires TxShape(sh, tx) && PcShape(|sh.mem|, sh.clock, |tx.writes|, |tx.rset|, tx.readOnly, pc')
    ensures TxShape(sh, tx.(pc := pc'))
  {
  }

  /** A word whose version has not been overwritten holds the value of that version. */
  lemma LoadedIsFresh(s: State, a: nat, v: nat)
    requires Inv(s) && a < |s.sh.mem| && Seen(s.sh, a, v)
    ensures Fresh(s.sh, a, v, s.sh.mem[a])
  {
    hide LogOk, SnapshotOk, PcOk, PastOk, PendingOk, Marks, SetsShape, NoPending;
    var h := s.sh.h;
    var l := Lk(s.sh, a);
    assert WordOk(s, a) && Owned(s, l);
    if s.sh.locks[l].Held? && Writing(s.txs[s.sh.locks[l].owner].pc) {
      var Held(o, e) := s.sh.locks[l];
      var tx := s.txs[o];
      assert TxShape(s.sh, tx) && TxOk(s.sh, o, tx);
      assert EntryHeld(s.sh, o, tx, e);
      assert Touches(h, Ts(tx.pc), l);
    } else if NoCommit(h, l, v, s.sh.clock) {
      ValueQuiet(h, v, s.sh.clock, a);
    }
  }

  lemma LoadsInv(s: State, i: nat, c: Command)
    requires Inv(s) && i < |s.txs|
    requires var pc := s.txs[i].pc; pc.RLoadLock? || pc.RLoadValue? || pc.RClock?
    ensures Inv(Next(s, i, c))
  {
    hide OwnersOk, PendingOk, MemoryOk, PastOk, VersionsOk, LogOk, SnapshotOk, LocksOk, StampOk, SetsShape, Seen, Fresh;
    var tx := s.txs[i];
    assert TxShape(s.sh, tx) && TxOk(s.sh, i, tx);
    match tx.pc {
      case RLoadLock(a) => ReadWithInv(s, i, a);
      case RLoadValue(a, v) =>
        LoadedIsFresh(s, a, v);
        QuietInv(s, i, RReloadLock(a, v, s.sh.mem[a]));
      case RClock(a, v, x) =>
        assert v <= s.sh.clock by { SeenBound(s.sh, a, v); }
        assert tx.end <= s.sh.clock by { SnapshotBound(s.sh, tx); }
        if s.sh.clock >= s.sh.max { RollbackInv(s, i); } else { QuietInv(s, i, RExtend(a, v, x, s.sh.clock, 0)); }
    }
  }

  lemma SeenBound(sh: Shared, a: nat, v: nat)
    requires SharedShape(sh) && a < |sh.mem| && Seen(sh, a, v)
    ensures v <= sh.clock
  {
  }

  lemma SnapshotBound(sh: Shared, tx: Tx)
    requires SharedShape(sh) && SnapshotOk(sh, tx)
    ensures tx.start <= tx.end <= sh.clock
  {
  }

  /** The value of a completed read is what the transaction's own writes make of the memory at `end`. */
  lemma MemoryRead(log: seq<Op>, writes: seq<Update>, n: nat, a: nat, v: nat, x: Word)
    requires LogOk(log, writes, n) && a < n
    ensures LogOk(log + [Read(a, Overlay(writes, a, x), Memory(v, x))], writes, n)
  {
    hide Merge, Apply, Effect;
    var k := Find(writes, a);
    var op := Read(a, Overlay(writes, a, x), Memory(v, x));
    var log' := log + [op];
    assert log'[..|log|] == log && log'[|log|] == op;
    assert Effect(log, x, a) == Apply(writes, x, a);
    if k < |writes| {
      ApplyEntry(writes, k, x);
    } else {
      ApplyAbsent(writes, x, a);
    }
    assert OpAgrees(log', |log|);
    AgreesAppend(log, op);
    AddRead(log, writes, op);
  }

  lemma FinishInv(s: State, i: nat, a: nat, v: nat, x: Word)
    requires Inv(s) && i < |s.txs| && a < |s.sh.mem| && Quiescent(s.txs[i].pc) && !s.txs[i].pc.Idle?
    requires s.sh.locks[Lk(s.sh, a)] == Free(v) && v <= s.txs[i].end
    requires Seen(s.sh, a, v) && Fresh(s.sh, a, v, x)
    ensures var r := FinishRead(s.sh, s.txs[i], a, v, x);
            Inv(State(r.sh, s.txs[i := r.tx]))
  {
    hide OwnersOk, PendingOk, MemoryOk, PastOk, VersionsOk, LogOk, ReadsHold, SetsShape, NoPending, Quiet, NoCommit,
         Overlay;
    var tx := s.txs[i];
    var l := Lk(s.sh, a);
    assert TxShape(s.sh, tx) && TxOk(s.sh, i, tx);
    var op := Read(a, Overlay(tx.writes, a, x), Memory(v, x));
    FreeIsQuiet(s, l);
    QuietLess(s.sh.h, l, v, tx.end, s.sh.clock);
    QuietNoCommit(s.sh.h, l, v, s.sh.clock);
    assert ReadHolds(s.sh.h, op, tx.end);
    ReadsAppend(s.sh.h, tx.log, op, tx.end);
    MemoryRead(tx.log, tx.writes, |s.sh.mem|, a, v, x);
    var tx' := FinishRead(s.sh, tx, a, v, x).tx;
    RsetShape(|s.sh.mem|, |s.sh.locks|, tx.writes, tx.version, tx.noDrop, tx.rset, REntry(l, v));
    SourcesAppend(s.sh, tx, tx', op);
    NothingHeld(tx, tx');
    assert LocksOk(s.sh, i, tx');
    assert s.sh.(finished := s.sh.finished) == s.sh;
    LocalInv(s, i, tx', s.sh.finished);
  }

  lemma RsetShape(nmem: nat, nlocks: nat, writes: seq<Update>, version: seq<nat>, noDrop: seq<bool>, rset: seq<REntry>,
                  r: REntry)
    requires SetsShape(nmem, nlocks, writes, version, noDrop, rset) && r.lock < nlocks
    ensures SetsShape(nmem, nlocks, writes, version, noDrop, rset + [r])
  {
  }

  lemma SourcesAppend(sh: Shared, tx: Tx, tx': Tx, op: Op)
    requires SourcesKnown(sh, tx) && tx'.readOnly == tx.readOnly
    requires op.Read? && op.source.Memory? && tx'.log == tx.log + [op]
    requires tx'.rset == if tx.readOnly then tx.rset else tx.rset + [REntry(Lk(sh, op.addr), op.source.version)]
    ensures SourcesKnown(sh, tx')
  {
    forall k {:trigger tx'.log[k]} | 0 <= k < |tx'.log| && tx'.log[k].Read?
      ensures match tx'.log[k].source
              case Memory(v, _) => tx'.readOnly || REntry(Lk(sh, tx'.log[k].addr), v) in tx'.rset
              case Buffer => true
              case UnderOwnLock(_) => false
    {
      if k < |tx.log| {
        assert tx'.log[k] == tx.log[k];
      } else if !tx.readOnly {
        assert tx'.rset[|tx.rset|] == REntry(Lk(sh, op.addr), op.source.version);
      }
    }
  }

  lemma RollbackInv(s: State, i: nat)
    requires Inv(s) && i < |s.txs| && Quiescent(s.txs[i].pc) && !s.txs[i].pc.Idle?
    ensures var r := Rollback(s.sh, s.txs[i]);
            Inv(State(r.sh, s.txs[i := r.tx]))
  {
    hide OwnersOk, PendingOk, MemoryOk, PastOk, VersionsOk, LogOk, SnapshotOk, SetsShape, StampOk;
    assert TxShape(s.sh, s.txs[i]) && TxOk(s.sh, i, s.txs[i]);
    QuietInv(s, i, Idle);
  }

  lemma ReloadInv(s: State, i: nat, c: Command)
    requires Inv(s) && i < |s.txs| && (s.txs[i].pc.RReloadLock? || s.txs[i].pc.RRecheck?)
    ensures Inv(Next(s, i, c))
  {
    hide OwnersOk, PendingOk, MemoryOk, PastOk, VersionsOk, LogOk, SnapshotOk, LocksOk, StampOk, SetsShape, Seen, Fresh;
    hide ReadWith, FinishRead, Rollback;
    var tx := s.txs[i];
    assert TxShape(s.sh, tx) && TxOk(s.sh, i, tx);
    var a, v, x := tx.pc.a, tx.pc.v, tx.pc.x;
    if s.sh.locks[Lk(s.sh, a)] != Free(v) {
      if tx.pc.RRecheck? { QuietInv(s, i, RLoadValue(a, v)); } else { ReadWithInv(s, i, a); }
    } else if tx.pc.RRecheck? || v <= tx.end {
      FinishInv(s, i, a, v, x);
    } else if tx.readOnly {
      RollbackInv(s, i);
    } else {
      QuietInv(s, i, RClock(a, v, x));
    }
  }

  lemma ExtendInv(s: State, i: nat, c: Command)
    requires Inv(s) && i < |s.txs| && s.txs[i].pc.RExtend?
    ensures Inv(Next(s, i, c))
  {
    hide OwnersOk, PendingOk, MemoryOk, PastOk, VersionsOk, LogOk, LocksOk, StampOk, SetsShape, Seen, Fresh;
    hide EntryValid, Quiet, ReadsHold, SourcesKnown, Rollback;
    var tx := s.txs[i];
    assert TxShape(s.sh, tx) && TxOk(s.sh, i, tx);
    var RExtend(a, v, x, now, k) := tx.pc;
    if k == |tx.rset| {
      ExtendedInv(s, i);
    } else if EntryValid(s.sh, i, tx, k) {
      ValidIsQuiet(s, i, k);
      QuietLess(s.sh.h, tx.rset[k].lock, tx.rset[k].version, now, s.sh.clock);
      QuietInv(s, i, RExtend(a, v, x, now, k + 1));
    } else {
      RollbackInv(s, i);
    }
  }

  /** All entries valid since `now` was read: everything read so far holds at `now`. */
  lemma SnapshotMoves(sh: Shared, tx: Tx, now: nat)
    requires SharedShape(sh) && SnapshotOk(sh, tx) && !tx.readOnly
    requires tx.end <= now <= sh.clock && QuietReads(sh, tx, |tx.rset|, now)
    ensures ReadsHold(sh.h, tx.log, now)
  {
    hide Quiet, NoPending;
    forall k | 0 <= k < |tx.log|
      ensures ReadHolds(sh.h, tx.log[k], now)
    {
      var op := tx.log[k];
      assert ReadHolds(sh.h, op, tx.end);
      if op.Read? && op.source.Memory? {
        var j :| 0 <= j < |tx.rset| && tx.rset[j] == REntry(Lk(sh, op.addr), op.source.version);
        ReadMoves(sh.h, op, tx.end, now);
      }
    }
  }

  lemma ExtendedInv(s: State, i: nat)
    requires Inv(s) && i < |s.txs| && s.txs[i].pc.RExtend? && s.txs[i].pc.k == |s.txs[i].rset|
    ensures var tx := s.txs[i];
            Inv(State(s.sh, s.txs[i := tx.(end := tx.pc.now, pc := RRecheck(tx.pc.a, tx.pc.v, tx.pc.x))]))
  {
    hide OwnersOk, PendingOk, MemoryOk, PastOk, VersionsOk, LogOk, SetsShape, Seen, Fresh, Quiet, ReadsHold;
    var tx := s.txs[i];
    assert TxShape(s.sh, tx) && TxOk(s.sh, i, tx);
    var RExtend(a, v, x, now, k) := tx.pc;
    SnapshotMoves(s.sh, tx, now);
    var tx' := tx.(end := now, pc := RRecheck(a, v, x));
    NothingHeld(tx, tx');
    SnapshotPc(s.sh, tx, tx'.pc);
    assert SourcesKnown(s.sh, tx') by { SourcesEnd(s.sh, tx, tx'); }
    assert SnapshotOk(s.sh, tx');
    assert LocksOk(s.sh, i, tx');
    assert s.sh.(finished := s.sh.finished) == s.sh;
    LocalInv(s, i, tx', s.sh.finished);
  }

  lemma SourcesEnd(sh: Shared, tx: Tx, tx': Tx)
    requires SourcesKnown(sh, tx) && tx'.readOnly == tx.readOnly && tx'.log == tx.log && tx'.rset == tx.rset
    ensures SourcesKnown(sh, tx')
  {
    forall k {:trigger tx'.log[k]} | 0 <= k < |tx'.log| && tx'.log[k].Read?
      ensures match tx'.log[k].source
              case Memory(v, _) => tx'.readOnly || REntry(Lk(sh, tx'.log[k].addr), v) in tx'.rset
              case Buffer => true
              case UnderOwnLock(_) => false
    {
      assert tx.log[k] == tx'.log[k];
    }
  }

  // ---- write ----

  lemma WriteInv(s: State, i: nat, c: Command)
    requires Inv(s) && i < |s.txs| && s.txs[i].pc.WLoadLock?
    ensures Inv(Next(s, i, c))
  {
    hide OwnersOk, PendingOk, MemoryOk, PastOk, VersionsOk, SnapshotOk, Find, Merge, HasRead, LogAgrees, SameEffect,
         Distinct, Rollback;
    var tx := s.txs[i];
    assert TxShape(s.sh, tx) && TxOk(s.sh, i, tx);
    var WLoadLock(a, value, mask) := tx.pc;
    var l := Lk(s.sh, a);
    if s.sh.locks[l].Held? {
      assert s.txs[i := tx] == s.txs;
    } else {
      var v := s.sh.locks[l].version;
      var k := Find(tx.writes, a);
      var op := Op.Write(a, value, mask);
      if k >= |tx.writes| && v > tx.end && HasRead(tx.rset, l) {
        RollbackInv(s, i);
      } else {
        WrittenLog(tx.log, tx.writes, |s.sh.mem|, a, value, mask);
        var tx' := StepWrite(s.sh, tx).tx;
        NothingHeld(tx, tx');
        WriteSnapshot(s.sh, tx, tx', op);
        assert LocksOk(s.sh, i, tx');
        assert s.sh.(finished := s.sh.finished) == s.sh;
        LocalInv(s, i, tx', s.sh.finished);
      }
    }
  }

  lemma WriteSnapshot(sh: Shared, tx: Tx, tx': Tx, op: Op)
    requires SharedShape(sh) && SnapshotOk(sh, tx) && op.Write?
    requires tx'.log == tx.log + [op] && tx'.rset == tx.rset && tx'.readOnly == tx.readOnly
    requires tx'.start == tx.start && tx'.end == tx.end
    ensures SnapshotOk(sh, tx')
  {
    ReadsAppend(sh.h, tx.log, op, tx.end);
    forall k {:trigger tx'.log[k]} | 0 <= k < |tx'.log| && tx'.log[k].Read?
      ensures match tx'.log[k].source
              case Memory(v, _) => tx'.readOnly || REntry(Lk(sh, tx'.log[k].addr), v) in tx'.rset
              case Buffer => true
              case UnderOwnLock(_) => false
    {
      assert tx.log[k] == tx'.log[k];
    }
  }

  lemma WrittenLog(log: seq<Op>, writes: seq<Update>, n: nat, a: nat, value: Word, mask: Word)
    requires LogOk(log, writes, n) && a < n
    ensures var k := Find(writes, a);
            var writes' := if k < |writes| then writes[k := Folded(writes[k], value, mask)]
                else writes + [Update(a, value, mask)];
            LogOk(log + [Op.Write(a, value, mask)], writes', n)
  {
    hide Merge, Apply, Effect, OpAgrees;
    var k := Find(writes, a);
    assert OpAgrees(log + [Op.Write(a, value, mask)], |log|) by { WriteAgrees(log, a, value, mask); }
    AgreesAppend(log, Op.Write(a, value, mask));
    if k < |writes| {
      FoldWrite(log, writes, k, value, mask);
    } else {
      AddWrite(log, writes, Update(a, value, mask));
    }
  }

  lemma WriteAgrees(log: seq<Op>, a: nat, value: Word, mask: Word)
    ensures OpAgrees(log + [Op.Write(a, value, mask)], |log|)
  {
  }
}
