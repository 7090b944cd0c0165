/** Step by step: the user's side, reading, and the accesses that only move on. */
module EtlSteps {
  import opened CommitHistory
  import opened EtlMachine
  import opened EtlInvariant
  import opened EtlProof
  import opened EtlFrame
  import opened EtlChains

  // ---- what the invariant says about one thread ----

  lemma TxFacts(s: State, i: nat)
    requires Inv(s) && i < |s.txs|
    ensures TxShape(s.sh, s.txs[i]) && TxOk(s.sh, i, s.txs[i])
  {
    hide TxOk, TxShape, OwnersOk, PendingOk, VersionsOk, MemoryOk, PastOk;
  }

  /** A lock of the thread is covered by an entry it has not got rid of. */
  lemma HeldCovers(s: State, i: nat, l: nat)
    requires Inv(s) && i < |s.txs| && l < |s.sh.locks| && OwnLock(s.sh, i, l)
    ensures CoversFrom(s.sh.h.lockOf, s.txs[i].entries, Pos(s.txs[i]), l)
  {
    hide TxsOk, PendingOk, VersionsOk, MemoryOk, PastOk, CoversFrom;
    assert Owned(s, l);
  }

  /** A thread that keeps its entries in place keeps its role. */
  lemma SameRole(s: State, i: nat, tx': Tx)
    requires Inv(s) && i < |s.txs| && Pos(tx') <= Pos(s.txs[i]) && Ts(tx'.pc) == Ts(s.txs[i].pc)
    requires |s.txs[i].entries| <= |tx'.entries|
    requires forall k :: 0 <= k < |s.txs[i].entries| ==> tx'.entries[k].addr == s.txs[i].entries[k].addr
    requires s.txs[i].pc.Validate? ==> tx'.pc.Validate? && tx'.pc.t == s.txs[i].pc.t
    ensures RoleKept(s.sh, i, s.txs[i], tx')
  {
    hide Inv, Pos, Ts;
    forall l {:trigger OwnLock(s.sh, i, l)} | 0 <= l < |s.sh.locks| && OwnLock(s.sh, i, l)
      ensures CoversFrom(s.sh.h.lockOf, tx'.entries, Pos(tx'), l)
    {
      HeldCovers(s, i, l);
      var k :| Pos(s.txs[i]) <= k < |s.txs[i].entries| && UnderLock(s.sh.h.lockOf, s.txs[i].entries, k, l);
      assert UnderLock(s.sh.h.lockOf, tx'.entries, k, l);
    }
  }

  lemma WordFact(s: State, i: nat, a: nat)
    requires Inv(s) && i < |s.txs| && a < |s.sh.mem| && OwnLock(s.sh, i, Lk(s.sh, a))
    ensures s.sh.mem[a] == OwnerWord(s.sh, s.txs[i], a)
  {
    hide TxsOk, OwnersOk, PendingOk, VersionsOk, PastOk, OwnerWord;
    assert WordOk(s, a);
  }

  /** Words under own locks do not change with steps that leave their content to be what it was. */
  lemma SameOwnWords(s: State, i: nat, tx': Tx)
    requires Inv(s) && i < |s.txs|
    requires forall a :: 0 <= a < |s.sh.mem| && OwnLock(s.sh, i, Lk(s.sh, a)) ==>
               OwnerWord(s.sh, tx', a) == OwnerWord(s.sh, s.txs[i], a)
    ensures OwnWordsOk(s.sh, i, tx')
  {
    assert SharedShape(s.sh);
    hide Inv, OwnerWord;
    forall a | 0 <= a < |s.sh.mem| && OwnLock(s.sh, i, Lk(s.sh, a))
      ensures s.sh.mem[a] == OwnerWord(s.sh, tx', a)
    {
      WordFact(s, i, a);
    }
  }

  /** A word of a running transaction, in either design. */
  lemma RunningWord(s: State, i: nat, a: nat)
    requires Inv(s) && i < |s.txs| && a < |s.sh.mem| && OwnLock(s.sh, i, Lk(s.sh, a))
    requires Running(s.txs[i].pc) && Ts(s.txs[i].pc) == 0
    ensures s.sh.mem[a] == if s.sh.design.WriteBack? then Base(s.sh, a) else Effect(s.txs[i].log, Base(s.sh, a), a)
  {
    WordFact(s, i, a);
    BaseIsLast(s, i, a);
    hide Inv, Base, ValueAt, Effect, Apply;
  }

  // ---- accesses that leave log and sets alone ----

  predicate Quiescent(pc: Pc) {
    Running(pc) && Ts(pc) == 0
  }

  lemma RunPc(sh: Shared, i: nat, tx: Tx, pc': Pc)
    requires SharedShape(sh) && RunOk(sh, i, tx) && Running(tx.pc) && Completed(sh, tx.(pc := pc')) <= Completed(sh, tx)
    ensures RunOk(sh, i, tx.(pc := pc'))
  {
    hide Quiet, OwnReads, ReadsBeforeLocks;
    var tx' := tx.(pc := pc');
    assert SourcesKnown(sh, tx') by {
      forall k {:trigger tx'.log[k]} | 0 <= k < |tx'.log| && tx'.log[k].Read? && tx'.log[k].source.Memory?
        ensures tx'.readOnly || REntry(Lk(sh, tx'.log[k].addr), tx'.log[k].source.version) in tx'.rset
      {
        assert tx.log[k] == tx'.log[k];
      }
    }
  }

  lemma EntriesPc(sh: Shared, i: nat, tx: Tx, pc': Pc)
    requires SharedShape(sh) && TxShape(sh, tx) && TxShape(sh, tx.(pc := pc')) && EntriesHeld(sh, i, tx)
             && EntryValues(sh, tx)
    requires Pos(tx.(pc := pc')) >= Pos(tx) && (Ts(pc') == 0 || Ts(pc') == Ts(tx.pc))
             && (Writing(tx.pc) ==> Writing(pc'))
    ensures EntriesHeld(sh, i, tx.(pc := pc')) && EntryValues(sh, tx.(pc := pc'))
  {
    hide SetsShape, PcShape, Effect, Base, Pos, NoPending;
    var tx' := tx.(pc := pc');
    forall k | Pos(tx') <= k < |tx.entries|
      ensures EntryHeld(sh, i, tx', k)
      ensures !Writing(pc') ==> EntryValue(sh, tx', k)
    {
      assert EntryHeld(sh, i, tx, k);
      assert !Writing(tx.pc) ==> EntryValue(sh, tx, k);
    }
  }

  lemma QuietInv(s: State, i: nat, pc': Pc)
    requires Inv(s) && i < |s.txs| && Quiescent(s.txs[i].pc) && Quiescent(pc')
    requires var tx' := s.txs[i].(pc := pc');
             TxShape(s.sh, tx') && PcOk(s.sh, i, tx') && Completed(s.sh, tx') <= Completed(s.sh, s.txs[i])
    ensures Inv(State(s.sh, s.txs[i := s.txs[i].(pc := pc')]))
  {
    var tx := s.txs[i];
    var tx' := tx.(pc := pc');
    TxFacts(s, i);
    SameRole(s, i, tx');
    SameOwnWords(s, i, tx');
    assert PastOk(s.sh);
    hide Inv, LogOk, SnapshotOk, RunOk, PcOk, ChainsOk, EntriesHeld, EntryValues, Untouched, TxShape, PastOk,
         OwnWordsOk, RoleKept, Completed;
    assert tx'.log == tx.log && tx'.start == tx.start && tx'.end == tx.end;
    assert SnapshotOk(s.sh, tx') by { SnapshotPc(s.sh, tx, pc'); }
    RunPc(s.sh, i, tx, pc');
    EntriesPc(s.sh, i, tx, pc');
    assert s.sh.(mem := s.sh.mem, finished := s.sh.finished) == s.sh;
    KeepInv(s, i, s.sh, tx');
  }

  lemma SnapshotPc(sh: Shared, tx: Tx, pc': Pc)
    requires SharedShape(sh) && SnapshotOk(sh, tx)
    ensures SnapshotOk(sh, tx.(pc := pc'))
  {
  }

  lemma ShapePc(sh: Shared, tx: Tx, pc': Pc)
    requires TxShape(sh, tx) && PcShape(|sh.mem|, sh.clock, |tx.entries|, |tx.rset|, tx.readOnly, pc')
    ensures TxShape(sh, tx.(pc := pc'))
  {
  }

  // ---- giving up ----

  /** `stm_rollback` begins: the entries are all still to be undone. */
  lemma RollbackInv(s: State, i: nat)
    requires Inv(s) && i < |s.txs| && Quiescent(s.txs[i].pc)
    ensures var r := Rollback(s.sh, s.txs[i]); Inv(State(r.sh, s.txs[i := r.tx]))
  {
    var tx := s.txs[i];
    var tx' := tx.(pc := RollbackPc(tx));
    TxFacts(s, i);
    SameRole(s, i, tx');
    SameOwnWords(s, i, tx');
    assert PastOk(s.sh);
    ShapePc(s.sh, tx, RollbackPc(tx));
    hide Inv, LogOk, SnapshotOk, ChainsOk, EntriesHeld, EntryValues, Untouched, TxShape, PastOk, OwnWordsOk, RoleKept;
    SnapshotPc(s.sh, tx, tx'.pc);
    EntriesPc(s.sh, i, tx, tx'.pc);
    assert s.sh.(mem := s.sh.mem, finished := s.sh.finished) == s.sh;
    KeepInv(s, i, s.sh, tx');
  }

  lemma ResizeTx(sh: Shared, i: nat, tx: Tx, size: nat)
    requires SharedShape(sh) && TxShape(sh, tx) && TxOk(sh, i, tx)
    ensures TxShape(sh, tx.(size := size)) && TxOk(sh, i, tx.(size := size))
  {
    hide Quiet, Effect, Base, NoPending, EffectOk, OwnReadsAt;
    var tx' := tx.(size := size);
    forall k | Pos(tx') <= k < |tx.entries|
      ensures EntryHeld(sh, i, tx', k)
      ensures !Writing(tx'.pc) ==> EntryValue(sh, tx', k)
    {
      assert EntryHeld(sh, i, tx, k);
      assert !Writing(tx.pc) ==> EntryValue(sh, tx, k);
    }
  }

  /** The capacity of the write set matters to nobody else. */
  lemma OverflowInv(s: State, i: nat)
    requires Inv(s) && i < |s.txs| && Quiescent(s.txs[i].pc)
    ensures var r := Overflow(s.sh, s.txs[i]); Inv(State(r.sh, s.txs[i := r.tx]))
  {
    var tx := s.txs[i];
    var tx' := tx.(size := 2 * tx.size);
    TxFacts(s, i);
    SameRole(s, i, tx');
    SameOwnWords(s, i, tx');
    ResizeTx(s.sh, i, tx, 2 * tx.size);
    assert PastOk(s.sh);
    hide Inv, TxOk, TxShape, PastOk, OwnWordsOk, RoleKept, RollbackPc;
    assert s.sh.(mem := s.sh.mem, finished := s.sh.finished) == s.sh;
    KeepInv(s, i, s.sh, tx');
    var s1 := State(s.sh, s.txs[i := tx']);
    RollbackInv(s1, i);
    assert s1.txs[i := Rollback(s.sh, tx').tx] == s.txs[i := Rollback(s.sh, tx').tx];
  }

  // ---- user ----

  lemma BeginInv(s: State, i: nat, ro: bool)
    requires Inv(s) && i < |s.txs| && s.txs[i].pc.Idle? && s.sh.clock < s.sh.max
    ensures Inv(Next(s, i, Begin(ro)))
  {
    var tx' := Tx(Active, ro, s.sh.clock, s.sh.clock, [], [], [], s.txs[i].size);
    forall l | 0 <= l < |s.sh.locks|
      ensures !OwnLock(s.sh, i, l)
    {
      if OwnLock(s.sh, i, l) { HeldCovers(s, i, l); }
    }
    assert PastOk(s.sh);
    assert SharedShape(s.sh);
    hide Inv, PastOk, BasesFixed;
    assert TxOk(s.sh, i, tx');
    assert s.sh.(mem := s.sh.mem, finished := s.sh.finished) == s.sh;
    KeepInv(s, i, s.sh, tx');
  }

  lemma IdleInv(s: State, i: nat)
    requires Inv(s) && i < |s.txs|
    ensures Inv(State(s.sh, s.txs[i := s.txs[i]]))
  {
    hide Inv;
    assert s.txs[i := s.txs[i]] == s.txs;
  }

  /** A transaction without entries has read nothing but committed words. */
  lemma NoEntriesNoOwnReads(s: State, i: nat)
    requires Inv(s) && i < |s.txs| && Running(s.txs[i].pc) && s.txs[i].entries == []
    ensures NoLockReads(s.txs[i].log)
  {
    TxFacts(s, i);
    var tx := s.txs[i];
    forall k | 0 <= k < |tx.log| && tx.log[k].Read?
      ensures !tx.log[k].source.UnderOwnLock?
    {
      assert OwnRead(s.sh, i, tx.log[k]);
      if tx.log[k].source.UnderOwnLock? {
        HeldCovers(s, i, Lk(s.sh, tx.log[k].addr));
        assert false;
      }
    }
  }

  lemma CommitEmptyInv(s: State, i: nat)
    requires Inv(s) && i < |s.txs| && s.txs[i].pc.Active? && s.txs[i].entries == []
    ensures Inv(Next(s, i, Command.Commit))
  {
    var tx := s.txs[i];
    var f := Finished(i, tx.log, tx.start, tx.end, s.sh.clock);
    var fin := s.sh.finished + [f];
    var sh' := s.sh.(finished := fin);
    var tx' := tx.(pc := Idle);
    TxFacts(s, i);
    NoEntriesNoOwnReads(s, i);
    SameRole(s, i, tx');
    SameOwnWords(s, i, tx');
    FinishedPast(s, i, f);
    forall l | 0 <= l < |s.sh.locks|
      ensures !OwnLock(s.sh, i, l)
    {
      if OwnLock(s.sh, i, l) { HeldCovers(s, i, l); }
    }
    hide Inv, LogOk, Untouched, PastOk, OwnerWord, RoleKept, ReadsHold;
    assert TxOk(sh', i, tx');
    assert s.sh.(mem := s.sh.mem, finished := fin) == sh';
    KeepInv(s, i, sh', tx');
  }

  lemma FinishedPast(s: State, i: nat, f: Finished)
    requires Inv(s) && i < |s.txs| && NoLockReads(s.txs[i].log)
    requires f == Finished(i, s.txs[i].log, s.txs[i].start, s.txs[i].end, s.sh.clock)
    ensures PastOk(s.sh.(finished := s.sh.finished + [f]))
  {
    TxFacts(s, i);
    hide OwnersOk, PendingOk, VersionsOk, MemoryOk, TxsOk, LogOk, ReadsHold, RunOk, PcOk, EntriesHeld, EntryValues,
         ChainsOk, Untouched, EffectOk, OwnReadsAt, NoLockReads, TxShape;
    var fin := s.sh.finished + [f];
    var sh' := s.sh.(finished := fin);
    assert FinishedOk(sh', f);
    forall t | 0 < t <= sh'.clock
      ensures CommitOk(sh', t)
    {
      assert CommitOk(s.sh, t);
    }
    forall k | 0 <= k < |fin|
      ensures FinishedOk(sh', fin[k])
    {
      if k < |s.sh.finished| {
        assert FinishedOk(s.sh, s.sh.finished[k]);
      }
    }
  }

  lemma UserInv(s: State, i: nat, c: Command)
    requires Inv(s) && i < |s.txs| && (s.txs[i].pc.Idle? || s.txs[i].pc.Active?)
    ensures Inv(Next(s, i, c))
  {
    hide TxsOk, OwnersOk, PendingOk, VersionsOk, MemoryOk, PastOk, SetsShape;
    IdleInv(s, i);
    if s.txs[i].pc.Idle? {
      if c.Begin? && s.sh.clock < s.sh.max { BeginInv(s, i, c.readOnly); }
    } else {
      TxFacts(s, i);
      hide LogOk, SnapshotOk, RunOk, StampOk, ChainsOk, EntriesHeld, EntryValues, Untouched;
      match c {
        case Begin(_) =>
        case Load(a) =>
          if a < |s.sh.mem| { QuietInv(s, i, RLoadLock(a)); }
        case Store(a, value, mask) =>
          if a < |s.sh.mem| && !s.txs[i].readOnly && !(s.sh.design.WriteThrough? && mask == 0) {
            QuietInv(s, i, WLoadLock(a, value, mask));
          }
        case Commit =>
          if s.txs[i].entries == [] { CommitEmptyInv(s, i); } else { QuietInv(s, i, TakeTime); }
        case Abort => RollbackInv(s, i);
      }
    }
  }

  // ---- reading words under own locks ----

  /** One more operation without an effect in the log changes nothing else. */
  lemma LoggedInv(s: State, i: nat, op: Op, end': nat, rset': seq<REntry>)
    requires Inv(s) && i < |s.txs| && Quiescent(s.txs[i].pc) && op.addr < |s.sh.mem|
    requires forall x: Word, a: nat :: Effect(s.txs[i].log + [op], x, a) == Effect(s.txs[i].log, x, a)
    requires OpAgrees(s.txs[i].log + [op], |s.txs[i].log|)
    requires var tx' := s.txs[i].(pc := Active, end := end', rset := rset', log := s.txs[i].log + [op]);
             SnapshotOk(s.sh, tx') && RunOk(s.sh, i, tx')
    requires forall k :: 0 <= k < |rset'| ==> rset'[k].lock < |s.sh.locks|
    ensures var tx' := s.txs[i].(pc := Active, end := end', rset := rset', log := s.txs[i].log + [op]);
            Inv(State(s.sh, s.txs[i := tx']))
  {
    var tx := s.txs[i];
    var tx' := tx.(pc := Active, end := end', rset := rset', log := tx.log + [op]);
    TxFacts(s, i);
    assert TxShape(s.sh, tx');
    SameRole(s, i, tx');
    SameOwnWords(s, i, tx');
    LogOkAppend(tx.log, op, |s.sh.mem|);
    assert PastOk(s.sh);
    hide Inv, LogOk, SnapshotOk, RunOk, ChainsOk, TxShape, PastOk, OwnWordsOk, RoleKept;
    assert EntriesHeld(s.sh, i, tx') && EntryValues(s.sh, tx') by {
      hide Effect;
      forall k | 0 <= k < |tx.entries|
        ensures EntryHeld(s.sh, i, tx', k) && EntryValue(s.sh, tx', k)
      {
        assert EntryHeld(s.sh, i, tx, k) && EntryValue(s.sh, tx, k);
      }
    }
    assert Untouched(tx'.log, tx'.entries) by { hide Effect, Stored; }
    assert s.sh.(mem := s.sh.mem, finished := s.sh.finished) == s.sh;
    KeepInv(s, i, s.sh, tx');
  }

  lemma OwnReadRun(sh: Shared, i: nat, tx: Tx, op: Op)
    requires SharedShape(sh) && RunOk(sh, i, tx) && SnapshotOk(sh, tx) && Running(tx.pc) && OwnRead(sh, i, op)
    requires op.Read? && op.source.UnderOwnLock? && Completed(sh, tx) == |tx.rset|
    ensures var tx' := tx.(pc := Active, log := tx.log + [op]); RunOk(sh, i, tx') && SnapshotOk(sh, tx')
  {
    hide Quiet, Base, ReadsBeforeLocks;
    var tx' := tx.(pc := Active, log := tx.log + [op]);
    ReadsAppend(sh.h, tx.log, op, tx.end);
    forall k {:trigger tx'.log[k]} | 0 <= k < |tx'.log| && tx'.log[k].Read? && tx'.log[k].source.Memory?
      ensures tx'.readOnly || REntry(Lk(sh, tx'.log[k].addr), tx'.log[k].source.version) in tx'.rset
    {
      assert k < |tx.log|;
      assert tx.log[k] == tx'.log[k];
    }
  }

  lemma ReturnOwnInv(s: State, i: nat, a: nat, x: Word)
    requires Inv(s) && i < |s.txs| && a < |s.sh.mem| && Quiescent(s.txs[i].pc)
    requires !s.txs[i].pc.RClock? && !s.txs[i].pc.RExtend?
    requires OwnLock(s.sh, i, Lk(s.sh, a)) && x == Effect(s.txs[i].log, Base(s.sh, a), a)
    ensures var r := ReturnOwn(s.sh, s.txs[i], a, x); Inv(State(r.sh, s.txs[i := r.tx]))
  {
    var tx := s.txs[i];
    var op := Read(a, x, UnderOwnLock(Base(s.sh, a)));
    TxFacts(s, i);
    hide Inv, LogOk, SnapshotOk, RunOk, PcOk, ChainsOk, EntriesHeld, EntryValues, Untouched, TxShape, Base, Effect;
    OwnReadRun(s.sh, i, tx, op);
    assert (tx.log + [op])[..|tx.log|] == tx.log;
    assert OpAgrees(tx.log + [op], |tx.log|);
    assert forall k :: 0 <= k < |tx.rset| ==> tx.rset[k].lock < |s.sh.locks| by { RsetInRange(s.sh, tx); }
    EffectRead(tx.log, op);
    LoggedInv(s, i, op, tx.end, tx.rset);
    assert tx.(pc := Active, end := tx.end, rset := tx.rset, log := tx.log + [op])
           == tx.(pc := Active, log := tx.log + [op]);
  }

  lemma RsetInRange(sh: Shared, tx: Tx)
    requires TxShape(sh, tx)
    ensures forall k :: 0 <= k < |tx.rset| ==> tx.rset[k].lock < |sh.locks|
  {
  }

  /** The walk along the chain from an own lock word settles whether the word has an entry. */
  lemma OwnChain(s: State, i: nat, a: nat)
    requires Inv(s) && i < |s.txs| && a < |s.sh.mem| && OwnLock(s.sh, i, Lk(s.sh, a))
    requires Pos(s.txs[i]) == 0
    ensures var es := s.txs[i].entries;
            var e := s.sh.locks[Lk(s.sh, a)].entry;
            && UnderLock(s.sh.h.lockOf, es, e, Lk(s.sh, a))
            && (ChainFind(es, e, a) == |es| ==> forall j :: 0 <= j < |es| ==> es[j].addr != a)
  {
    TxFacts(s, i);
    var tx := s.txs[i];
    var l := Lk(s.sh, a);
    var k := OwnedEntry(s, l);
    var e := s.sh.locks[l].entry;
    hide Inv, LogOk, SnapshotOk, RunOk, PcOk, StampOk, EntriesHeld, EntryValues, Untouched, ChainFind, NoPending,
         ChainsOk, TxShape;
    if ChainFind(tx.entries, e, a) == |tx.entries| {
      ChainFindComplete(s.sh.h.lockOf, tx.entries, e, a);
      forall j | 0 <= j < |tx.entries|
        ensures tx.entries[j].addr != a
      {
        assert j < e ==> !UnderLock(s.sh.h.lockOf, tx.entries, j, l);
      }
    }
  }

  lemma ReadWithInv(s: State, i: nat, a: nat)
    requires Inv(s) && i < |s.txs| && a < |s.sh.mem| && Quiescent(s.txs[i].pc)
    requires !s.txs[i].pc.RClock? && !s.txs[i].pc.RExtend?
    ensures var r := ReadWith(s.sh, i, s.txs[i], a, s.sh.locks[Lk(s.sh, a)]);
            Inv(State(r.sh, s.txs[i := r.tx]))
  {
    var l := Lk(s.sh, a);
    var tx := s.txs[i];
    var w := s.sh.locks[l];
    TxFacts(s, i);
    hide OwnersOk, PendingOk, MemoryOk, PastOk, TxsOk, VersionsOk, NoPending, Quiet, TxShape, LogOk, SnapshotOk, RunOk,
         StampOk, ChainsOk, EntriesHeld, EntryValues, Untouched, Base, Effect;
    if w.Free? {
      FreeIsQuiet(s, l);
      ShapePc(s.sh, tx, RLoadValue(a, w.stamp));
      assert Seen(s.sh, a, w.stamp) by { NoPendingLess(s.sh.h, l, w.stamp.version, s.sh.clock); }
      QuietInv(s, i, RLoadValue(a, w.stamp));
    } else if w.owner != i || w.entry >= |tx.entries| {
      RollbackInv(s, i);
    } else {
      ShapePc(s.sh, tx, ROwn(a));
      OwnChain(s, i, a);
      var k := ChainFind(tx.entries, w.entry, a);
      if s.sh.design.WriteBack? && k < |tx.entries| && tx.entries[k].mask != 0 {
        assert EntryValue(s.sh, tx, k) by { ValueFact(s.sh, tx, k); }
        ReturnOwnInv(s, i, a, tx.entries[k].value);
      } else {
        assert s.sh.design.WriteBack? ==> !Stored(tx.entries, a) by {
          if k < |tx.entries| { OneEntry(s.sh.h.lockOf, tx.entries, k); }
        }
        QuietInv(s, i, ROwn(a));
      }
    }
  }

  lemma ValueFact(sh: Shared, tx: Tx, k: nat)
    requires EntryValues(sh, tx) && !Writing(tx.pc) && Pos(tx) <= k < |tx.entries|
    ensures EntryValue(sh, tx, k)
  {
  }

  lemma EntryFact(s: State, i: nat, k: nat)
    requires Inv(s) && i < |s.txs| && Quiescent(s.txs[i].pc) && k < |s.txs[i].entries|
    ensures s.txs[i].entries[k].addr < |s.sh.mem| && EntryValue(s.sh, s.txs[i], k)
  {
    TxFacts(s, i);
    EntryIndex(s.sh, s.txs[i], k);
    ValueFact(s.sh, s.txs[i], k);
  }

  lemma OneEntry(lockOf: seq<nat>, es: seq<WEntry>, k: nat)
    requires ChainsOk(lockOf, es) && k < |es|
    ensures Stored(es, es[k].addr) <==> es[k].mask != 0
  {
  }

  lemma NoPendingLess(h: History, l: nat, lo: nat, hi: nat)
    requires lo <= hi <= |h.commits| && NoPending(h, l, hi)
    ensures NoPending(h, l, lo)
  {
  }

  lemma QuietLess(h: History, l: nat, v: nat, lo: nat, hi: nat)
    requires lo <= hi <= |h.commits| && Quiet(h, l, v, hi)
    ensures Quiet(h, l, v, lo)
  {
  }

  // ---- reading unlocked words ----

  /** A word whose stamp is what was seen holds the value of that version, also in the design that writes in
      place; in the write-back design, so does any word that has not been committed to since. */
  lemma LoadedIsFresh(s: State, a: nat, v: Stamp)
    requires Inv(s) && a < |s.sh.mem| && Seen(s.sh, a, v)
    ensures Fresh(s.sh, a, v, s.sh.mem[a])
  {
    hide TxsOk, PastOk, PendingOk, OwnersOk, NoPending, ValueAt, Touches;
    var h := s.sh.h;
    var l := Lk(s.sh, a);
    assert WordOk(s, a);
    if NoCommit(h, l, v.version, s.sh.clock) && (s.sh.design.WriteThrough? ==> s.sh.locks[l] == Free(v)) {
      ValueQuiet(h, v.version, s.sh.clock, a);
      if s.sh.locks[l].Held? {
        var o := s.sh.locks[l].owner;
        var k := OwnedEntry(s, l);
        if Writing(s.txs[o].pc) && 0 < Ts(s.txs[o].pc) <= s.sh.clock {
          WriterTouches(s, o, k, l);
          assert false;
        }
      }
    }
  }

  lemma WriterTouches(s: State, o: nat, k: nat, l: nat)
    requires Inv(s) && o < |s.txs| && Writing(s.txs[o].pc) && UnderLock(s.sh.h.lockOf, s.txs[o].entries, k, l)
    ensures var t := Ts(s.txs[o].pc);
            0 < t <= s.sh.clock && s.sh.h.commits[t - 1].status.Committed? && Touches(s.sh.h, t, l)
    ensures TxShape(s.sh, s.txs[o]) && k >= Pos(s.txs[o]) && OwnLock(s.sh, o, l) ==>
            s.sh.vers[l].version < Ts(s.txs[o].pc)
  {
    TxFacts(s, o);
    StampBound(s, o);
    var tx := s.txs[o];
    hide Inv, LogOk, SnapshotOk, RunOk, PcOk, ChainsOk, EntryValues, Untouched, EffectOk, OwnReadsAt, NoPending;
    var us := s.sh.h.commits[Ts(tx.pc) - 1].writes;
    assert us[k].addr == tx.entries[k].addr;
    if k >= Pos(tx) {
      assert EntryHeld(s.sh, o, tx, k);
    }
  }

  lemma LoadsInv(s: State, i: nat, c: Command)
    requires Inv(s) && i < |s.txs|
    requires var pc := s.txs[i].pc; pc.RLoadLock? || pc.RLoadValue? || pc.RClock? || pc.ROwn?
    ensures Inv(Next(s, i, c))
  {
    var tx := s.txs[i];
    TxFacts(s, i);
    hide OwnersOk, PendingOk, MemoryOk, PastOk, TxsOk, VersionsOk, NoPending, Quiet, SetsShape, LogOk, RunOk, StampOk,
         ChainsOk, EntriesHeld, EntryValues, Untouched, Base, Effect, Seen, Fresh, Fixed, ReadWith;
    match tx.pc {
      case RLoadLock(a) => ReadWithInv(s, i, a);
      case RLoadValue(a, v) =>
        LoadedIsFresh(s, a, v);
        QuietInv(s, i, RReloadLock(a, v, s.sh.mem[a]));
      case RClock(a, v, x) => ClockInv(s, i);
      case ROwn(a) => OwnLoadInv(s, i, a);
    }
  }

  /** The extension begins, unless the clock has reached its maximum. */
  lemma ClockInv(s: State, i: nat)
    requires Inv(s) && i < |s.txs| && s.txs[i].pc.RClock?
    ensures SharedShape(s.sh) && TxShape(s.sh, s.txs[i])
    ensures var r := StepLoads(s.sh, i, s.txs[i]); Inv(State(r.sh, s.txs[i := r.tx]))
  {
    TxFacts(s, i);
    hide OwnersOk, PendingOk, MemoryOk, PastOk, TxsOk, VersionsOk, NoPending, Quiet, SetsShape, LogOk, RunOk, StampOk,
         ChainsOk, EntriesHeld, EntryValues, Untouched, Base, Effect, Seen, Fresh, Fixed, ReadWith;
    var RClock(a, v, x) := s.txs[i].pc;
    FixedBound(s.sh, a, v.version, x);
    if s.sh.clock >= s.sh.max { RollbackInv(s, i); } else { QuietInv(s, i, RExtend(a, v, x, s.sh.clock, 0)); }
  }

  lemma OwnLoadInv(s: State, i: nat, a: nat)
    requires Inv(s) && i < |s.txs| && s.txs[i].pc == ROwn(a) && a < |s.sh.mem|
    ensures var r := ReturnOwn(s.sh, s.txs[i], a, s.sh.mem[a]); Inv(State(r.sh, s.txs[i := r.tx]))
  {
    var tx := s.txs[i];
    TxFacts(s, i);
    hide Inv, SetsShape, LogOk, SnapshotOk, RunOk, StampOk, ChainsOk, EntriesHeld, EntryValues, Untouched, Base,
         Effect, ReturnOwn, Stored;
    RunningWord(s, i, a);
    if s.sh.design.WriteBack? { NotStored(tx.log, tx.entries, Base(s.sh, a), a); }
    ReturnOwnInv(s, i, a, s.sh.mem[a]);
  }

  lemma FixedBound(sh: Shared, a: nat, v: nat, x: Word)
    requires SharedShape(sh) && a < |sh.mem| && Fixed(sh, a, v, x)
    ensures v <= sh.clock
  {
  }

  lemma NotStored(log: seq<Op>, es: seq<WEntry>, x: Word, a: nat)
    requires Untouched(log, es) && !Stored(es, a)
    ensures Effect(log, x, a) == x
  {
  }

  /** All entries valid since `now` was read: everything read so far holds at `now`. */
  lemma SnapshotMoves(sh: Shared, tx: Tx, now: nat)
    requires SharedShape(sh) && SnapshotOk(sh, tx) && SourcesKnown(sh, tx) && !tx.readOnly
    requires tx.end <= now <= sh.clock && QuietReads(sh, tx.rset, |tx.rset|, now)
    ensures ReadsHold(sh.h, tx.log, now)
  {
    hide Quiet, NoPending;
    forall k | 0 <= k < |tx.log|
      ensures ReadHolds(sh.h, tx.log[k], now)
    {
      var op := tx.log[k];
      assert ReadHolds(sh.h, op, tx.end);
      if op.Read? && op.source.Memory? {
        var j :| 0 <= j < |tx.rset| && tx.rset[j] == REntry(Lk(sh, op.addr), op.source.version);
        ReadMoves(sh.h, op, tx.end, now);
      }
    }
  }

  /** A read of an unlocked word is complete: its version is not newer than `end`, and stays quiet until then. */
  lemma FinishInv(s: State, i: nat, a: nat, v: Stamp, x: Word, end': nat, rset': seq<REntry>)
    requires Inv(s) && i < |s.txs| && a < |s.sh.mem| && Quiescent(s.txs[i].pc)
    requires Fixed(s.sh, a, v.version, x) && v.version <= end' <= s.sh.clock && s.txs[i].start <= end'
    requires Quiet(s.sh.h, Lk(s.sh, a), v.version, end') && ReadsHold(s.sh.h, s.txs[i].log, end')
    requires QuietReads(s.sh, rset', |rset'|, end')
    requires rset' == s.txs[i].rset || rset' == s.txs[i].rset + [REntry(Lk(s.sh, a), v.version)]
    requires s.txs[i].readOnly || REntry(Lk(s.sh, a), v.version) in rset'
    requires !OwnLock(s.sh, i, Lk(s.sh, a))
    ensures var r := FinishRead(s.sh, s.txs[i].(end := end', rset := rset'), a, v, x);
            Inv(State(r.sh, s.txs[i := r.tx]))
  {
    var tx := s.txs[i];
    var op := Read(a, x, Memory(v.version, x));
    var tx' := tx.(pc := Active, end := end', rset := rset', log := tx.log + [op]);
    TxFacts(s, i);
    hide Inv, LogOk, ReadsHold, Quiet, NoPending, ChainsOk, EntriesHeld, EntryValues, TxShape, Base, PcOk, StampOk,
         QuietReads;
    assert OpAgrees(tx.log + [op], |tx.log|) by { NoEffectHere(s, i, a, x); }
    assert ReadHolds(s.sh.h, op, end');
    ReadsAppend(s.sh.h, tx.log, op, end');
    assert RunOk(s.sh, i, tx') by { FinishRun(s.sh, i, tx, tx', op); }
    RsetInRange(s.sh, tx);
    LockIndex(s.sh, a);
    EffectRead(tx.log, op);
    LoggedInv(s, i, op, end', rset');
  }

  lemma LockIndex(sh: Shared, a: nat)
    requires SharedShape(sh) && a < |sh.mem|
    ensures Lk(sh, a) < |sh.locks|
  {
  }

  /** A word whose lock is not the thread's own is as the transaction found it. */
  lemma NoEffectHere(s: State, i: nat, a: nat, x: Word)
    requires Inv(s) && i < |s.txs| && a < |s.sh.mem| && Quiescent(s.txs[i].pc) && !OwnLock(s.sh, i, Lk(s.sh, a))
    ensures forall k :: 0 <= k < |s.txs[i].entries| ==> s.txs[i].entries[k].addr != a
    ensures Effect(s.txs[i].log, x, a) == x
  {
    TxFacts(s, i);
    var tx := s.txs[i];
    hide Inv, LogOk, SnapshotOk, RunOk, PcOk, StampOk, ChainsOk, EntryValues, NoPending, Effect, SetsShape, PcShape;
    forall k | 0 <= k < |tx.entries|
      ensures tx.entries[k].addr != a
    {
      assert EntryHeld(s.sh, i, tx, k);
    }
    NotStored(tx.log, tx.entries, x, a);
  }

  lemma FinishRun(sh: Shared, i: nat, tx: Tx, tx': Tx, op: Op)
    requires SharedShape(sh) && RunOk(sh, i, tx) && Running(tx.pc) && op.Read? && op.source.Memory?
    requires tx'.pc.Active? && tx'.log == tx.log + [op] && tx'.readOnly == tx.readOnly && tx'.end <= sh.clock
    requires tx'.rset == tx.rset || tx'.rset == tx.rset + [REntry(Lk(sh, op.addr), op.source.version)]
    requires tx.readOnly || REntry(Lk(sh, op.addr), op.source.version) in tx'.rset
    requires !OwnLock(sh, i, Lk(sh, op.addr)) && QuietReads(sh, tx'.rset, |tx'.rset|, tx'.end)
    ensures RunOk(sh, i, tx')
  {
    hide Quiet, Base, OwnLock;
    assert forall r :: r in tx.rset ==> r in tx'.rset;
    forall k | 0 <= k < |tx'.log|
      ensures OwnRead(sh, i, tx'.log[k])
    {
      if k < |tx.log| { assert OwnRead(sh, i, tx.log[k]); }
    }
    forall j | 0 <= j < |tx'.rset|
      ensures ReadBeforeLock(sh, i, tx'.rset[j])
    {
      if j < |tx.rset| { assert ReadBeforeLock(sh, i, tx.rset[j]); }
    }
    forall k {:trigger tx'.log[k]} | 0 <= k < |tx'.log| && tx'.log[k].Read? && tx'.log[k].source.Memory?
      ensures tx'.readOnly || REntry(Lk(sh, tx'.log[k].addr), tx'.log[k].source.version) in tx'.rset
    {
      if k < |tx.log| { assert tx'.log[k] == tx.log[k]; }
    }
  }

  lemma QuietReadsAppend(sh: Shared, rset: seq<REntry>, r: REntry, hi: nat)
    requires SharedShape(sh) && hi <= sh.clock && QuietReads(sh, rset, |rset|, hi) && Quiet(sh.h, r.lock, r.version, hi)
    ensures QuietReads(sh, rset + [r], |rset| + 1, hi)
  {
  }

  /** The lock still has the stamp seen at first: the value loaded in between is that of the version. */
  lemma SeenIsFixed(s: State, a: nat, v: Stamp, x: Word)
    requires Inv(s) && a < |s.sh.mem| && s.sh.locks[Lk(s.sh, a)] == Free(v) && Seen(s.sh, a, v) && Fresh(s.sh, a, v, x)
    ensures Fixed(s.sh, a, v.version, x)
    ensures Quiet(s.sh.h, Lk(s.sh, a), v.version, s.sh.clock)
  {
    FreeIsQuiet(s, Lk(s.sh, a));
    hide Inv, NoPending, ValueAt;
  }

  lemma FinishNowInv(s: State, i: nat, a: nat, v: Stamp, x: Word)
    requires Inv(s) && i < |s.txs| && a < |s.sh.mem| && (s.txs[i].pc.RReloadLock? || s.txs[i].pc.RRecheck?)
    requires s.sh.locks[Lk(s.sh, a)] == Free(v) && Fixed(s.sh, a, v.version, x) && v.version <= s.txs[i].end
    ensures var tx := s.txs[i];
            var r := FinishRead(s.sh, tx.(rset := WithRead(s.sh, tx, a, v)), a, v, x);
            Inv(State(r.sh, s.txs[i := r.tx]))
  {
    var tx := s.txs[i];
    TxFacts(s, i);
    FreeIsQuiet(s, Lk(s.sh, a));
    hide Inv, LogOk, ReadsHold, Quiet, NoPending, ChainsOk, EntriesHeld, EntryValues, TxShape, PcOk, StampOk, Fixed,
         QuietReads, Untouched, FinishRead, OwnReads, ReadsBeforeLocks, SourcesKnown;
    QuietLess(s.sh.h, Lk(s.sh, a), v.version, tx.end, s.sh.clock);
    var r := REntry(Lk(s.sh, a), v.version);
    QuietReadsAppend(s.sh, tx.rset, r, tx.end);
    assert (tx.rset + [r])[|tx.rset|] == r;
    FinishInv(s, i, a, v, x, tx.end, WithRead(s.sh, tx, a, v));
    assert tx.(end := tx.end, rset := WithRead(s.sh, tx, a, v)) == tx.(rset := WithRead(s.sh, tx, a, v));
  }

  /** In the write-through design the entry of a read in progress is added before the snapshot is extended. */
  lemma NoteInv(s: State, i: nat, a: nat, v: Stamp, x: Word)
    requires Inv(s) && i < |s.txs| && a < |s.sh.mem| && s.txs[i].pc.RReloadLock? && !s.txs[i].readOnly
             && s.sh.design.WriteThrough?
    requires s.sh.locks[Lk(s.sh, a)] == Free(v) && Fixed(s.sh, a, v.version, x)
    ensures var tx := s.txs[i];
            Inv(State(s.sh, s.txs[i := tx.(pc := RClock(a, v, x), rset := WithRead(s.sh, tx, a, v))]))
  {
    var tx := s.txs[i];
    var r := REntry(Lk(s.sh, a), v.version);
    var tx' := tx.(pc := RClock(a, v, x), rset := tx.rset + [r]);
    TxFacts(s, i);
    SameRole(s, i, tx');
    SameOwnWords(s, i, tx');
    LockIndex(s.sh, a);
    assert TxShape(s.sh, tx');
    assert PastOk(s.sh);
    hide Inv, LogOk, ReadsHold, Quiet, NoPending, ChainsOk, TxShape, StampOk, Fixed, Untouched, OwnReads, PastOk,
         OwnWordsOk, RoleKept, Base, Effect;
    assert RunOk(s.sh, i, tx') by { NoteRun(s.sh, i, tx, tx', r); }
    assert EntriesHeld(s.sh, i, tx') && EntryValues(s.sh, tx') by {
      forall k | 0 <= k < |tx.entries|
        ensures EntryHeld(s.sh, i, tx', k) && EntryValue(s.sh, tx', k)
      {
        assert EntryHeld(s.sh, i, tx, k) && EntryValue(s.sh, tx, k);
      }
    }
    assert StampOk(s.sh, i, tx') by { NoStamp(s.sh, i, tx'); }
    assert s.sh.(mem := s.sh.mem, finished := s.sh.finished) == s.sh;
    KeepInv(s, i, s.sh, tx');
  }

  lemma NoStamp(sh: Shared, i: nat, tx: Tx)
    requires SharedShape(sh) && Ts(tx.pc) == 0
    ensures StampOk(sh, i, tx)
  {
  }

  lemma NoteRun(sh: Shared, i: nat, tx: Tx, tx': Tx, r: REntry)
    requires SharedShape(sh) && RunOk(sh, i, tx) && tx.pc.RReloadLock? && sh.design.WriteThrough?
    requires tx'.pc.RClock? && tx' == tx.(pc := tx'.pc, rset := tx.rset + [r]) && !OwnLock(sh, i, r.lock)
    ensures RunOk(sh, i, tx')
  {
    hide Quiet, OwnLock;
    assert forall q :: q in tx.rset ==> q in tx'.rset;
    forall j | 0 <= j < |tx'.rset|
      ensures ReadBeforeLock(sh, i, tx'.rset[j])
    {
      if j < |tx.rset| { assert ReadBeforeLock(sh, i, tx.rset[j]); }
    }
    forall k {:trigger tx'.log[k]} | 0 <= k < |tx'.log| && tx'.log[k].Read? && tx'.log[k].source.Memory?
      ensures tx'.readOnly || REntry(Lk(sh, tx'.log[k].addr), tx'.log[k].source.version) in tx'.rset
    {
      assert tx'.log[k] == tx.log[k];
    }
  }

  lemma ReloadInv(s: State, i: nat, c: Command)
    requires Inv(s) && i < |s.txs| && s.txs[i].pc.RReloadLock?
    ensures Inv(Next(s, i, c))
  {
    var tx := s.txs[i];
    var RReloadLock(a, v, x) := tx.pc;
    TxFacts(s, i);
    hide OwnersOk, PendingOk, MemoryOk, PastOk, TxsOk, VersionsOk, LogOk, SnapshotOk, RunOk, StampOk, ChainsOk,
         EntriesHeld, EntryValues, Untouched, SetsShape, Seen, Fresh, Fixed, Quiet;
    hide ReadWith, FinishRead, Rollback;
    if s.sh.locks[Lk(s.sh, a)] != Free(v) {
      ReadWithInv(s, i, a);
    } else {
      SeenIsFixed(s, a, v, x);
      if v.version <= tx.end {
        FinishNowInv(s, i, a, v, x);
      } else if tx.readOnly {
        RollbackInv(s, i);
      } else if s.sh.design.WriteThrough? {
        NoteInv(s, i, a, v, x);
      } else {
        QuietInv(s, i, RClock(a, v, x));
        assert tx.(pc := RClock(a, v, x), rset := tx.rset) == tx.(pc := RClock(a, v, x));
      }
    }
  }

  lemma RecheckInv(s: State, i: nat, c: Command)
    requires Inv(s) && i < |s.txs| && s.txs[i].pc.RRecheck?
    ensures Inv(Next(s, i, c))
  {
    var tx := s.txs[i];
    var RRecheck(a, v, x) := tx.pc;
    TxFacts(s, i);
    hide OwnersOk, PendingOk, MemoryOk, PastOk, TxsOk, VersionsOk, LogOk, SnapshotOk, RunOk, StampOk, ChainsOk,
         EntriesHeld, EntryValues, Untouched, SetsShape, Fixed;
    hide ReadWith, FinishRead;
    if s.sh.locks[Lk(s.sh, a)] != Free(v) {
      ReadWithInv(s, i, a);
    } else {
      FinishNowInv(s, i, a, v, x);
    }
  }

  lemma ExtendInv(s: State, i: nat, c: Command)
    requires Inv(s) && i < |s.txs| && s.txs[i].pc.RExtend?
    ensures Inv(Next(s, i, c))
  {
    var tx := s.txs[i];
    var RExtend(a, v, x, now, k) := tx.pc;
    TxFacts(s, i);
    hide OwnersOk, PendingOk, MemoryOk, PastOk, TxsOk, VersionsOk, LogOk, SnapshotOk, RunOk, StampOk, ChainsOk,
         EntriesHeld, EntryValues, Untouched, SetsShape, Fixed, Quiet;
    hide FinishRead, Rollback, EntryValid, OwnLock;
    if k == |tx.rset| {
      if s.sh.design.WriteThrough? {
        ExtendedThrough(s, i);
      } else {
        ExtendedBack(s, i);
      }
    } else if EntryValid(s.sh, i, tx, k) {
      ValidIsQuiet(s, i, k);
      QuietLess(s.sh.h, tx.rset[k].lock, tx.rset[k].version, now, s.sh.clock);
      QuietInv(s, i, RExtend(a, v, x, now, k + 1));
    } else {
      RollbackInv(s, i);
    }
  }

  lemma ExtendedThrough(s: State, i: nat)
    requires Inv(s) && i < |s.txs| && s.txs[i].pc.RExtend? && s.txs[i].pc.k == |s.txs[i].rset|
             && s.sh.design.WriteThrough?
    ensures var tx := s.txs[i];
            var r := FinishRead(s.sh, tx.(end := tx.pc.now), tx.pc.a, tx.pc.v, tx.pc.x);
            Inv(State(r.sh, s.txs[i := r.tx]))
  {
    var tx := s.txs[i];
    var RExtend(a, v, x, now, k) := tx.pc;
    TxFacts(s, i);
    hide Inv, LogOk, ReadsHold, Quiet, ChainsOk, EntriesHeld, EntryValues, StampOk, Fixed, Untouched, FinishRead,
         OwnReads, ReadsBeforeLocks, SourcesKnown, OwnLock;
    SnapshotMoves(s.sh, tx, now);
    var r := tx.rset[|tx.rset| - 1];
    assert r in tx.rset && Quiet(s.sh.h, r.lock, r.version, now);
    FinishInv(s, i, a, v, x, now, tx.rset);
    assert tx.(end := now, rset := tx.rset) == tx.(end := now);
  }

  lemma ExtendedBack(s: State, i: nat)
    requires Inv(s) && i < |s.txs| && s.txs[i].pc.RExtend? && s.txs[i].pc.k == |s.txs[i].rset| && s.sh.design.WriteBack?
    ensures var tx := s.txs[i];
            Inv(State(s.sh, s.txs[i := tx.(end := tx.pc.now, pc := RRecheck(tx.pc.a, tx.pc.v, tx.pc.x))]))
  {
    var tx := s.txs[i];
    var RExtend(a, v, x, now, k) := tx.pc;
    var tx' := tx.(end := now, pc := RRecheck(a, v, x));
    TxFacts(s, i);
    SameRole(s, i, tx');
    SameOwnWords(s, i, tx');
    assert TxShape(s.sh, tx');
    assert PastOk(s.sh);
    hide Inv, LogOk, ReadsHold, Quiet, ChainsOk, StampOk, Fixed, Untouched, OwnReads, ReadsBeforeLocks, PastOk,
         OwnWordsOk, RoleKept, Base, Effect, NoPending, SetsShape;
    SnapshotMoves(s.sh, tx, now);
    assert SourcesKnown(s.sh, tx') by { SourcesEnd(s.sh, tx, tx'); }
    assert EntriesHeld(s.sh, i, tx') && EntryValues(s.sh, tx') by {
      forall e | 0 <= e < |tx.entries|
        ensures EntryHeld(s.sh, i, tx', e) && EntryValue(s.sh, tx', e)
      {
        assert EntryHeld(s.sh, i, tx, e) && EntryValue(s.sh, tx, e);
      }
    }
    NoStamp(s.sh, i, tx');
    assert s.sh.(mem := s.sh.mem, finished := s.sh.finished) == s.sh;
    KeepInv(s, i, s.sh, tx');
  }

  lemma SourcesEnd(sh: Shared, tx: Tx, tx': Tx)
    requires SourcesKnown(sh, tx) && tx'.readOnly == tx.readOnly && tx'.log == tx.log && tx'.rset == tx.rset
    ensures SourcesKnown(sh, tx')
  {
    forall k {:trigger tx'.log[k]} | 0 <= k < |tx'.log| && tx'.log[k].Read? && tx'.log[k].source.Memory?
      ensures tx'.readOnly || REntry(Lk(sh, tx'.log[k].addr), tx'.log[k].source.version) in tx'.rset
    {
      assert tx.log[k] == tx'.log[k];
    }
  }
}
