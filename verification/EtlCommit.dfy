/** Step by step: taking a commit timestamp and validating the read set with it. */
module EtlCommit {
  import opened CommitHistory
  import opened EtlMachine
  import opened EtlInvariant
  import opened EtlProof
  import opened EtlFrame
  import opened EtlChains
  import opened EtlSteps

  /** What has been recorded stays valid when nothing new is recorded as committed. */
  lemma PastGrows(sh: Shared, sh': Shared)
    requires SharedShape(sh) && SharedShape(sh') && Grows(sh.h, sh'.h) && sh'.finished == sh.finished
             && |sh'.mem| == |sh.mem|
    requires PastOk(sh) && sh.clock <= sh'.clock
    requires forall t :: 0 < t <= sh'.clock && sh'.h.commits[t - 1].status.Committed? ==>
               t <= sh.clock && (sh.h.commits[t - 1] == sh'.h.commits[t - 1] || CommitOk(sh', t))
    ensures PastOk(sh')
  {
    hide LogOk, ReadsHold, EffectOk, OwnReadsAt, Grows;
    forall t | 0 < t <= sh'.clock
      ensures CommitOk(sh', t)
    {
      if t <= sh.clock && sh.h.commits[t - 1] == sh'.h.commits[t - 1] && sh.h.commits[t - 1].status.Committed? {
        assert CommitOk(sh, t);
        var c := sh.h.commits[t - 1];
        ReadsGrow(sh.h, sh'.h, c.log, t - 1);
        EffectStable(sh.h, sh'.h, c.log, c.writes, t);
        OwnReadsStable(sh.h, sh'.h, c.log, t);
      }
    }
    forall k | 0 <= k < |sh'.finished|
      ensures FinishedOk(sh', sh'.finished[k])
    {
      assert FinishedOk(sh, sh.finished[k]);
      ReadsGrow(sh.h, sh'.h, sh.finished[k].log, sh.finished[k].end);
    }
  }

  // ---- the clock is incremented ----

  function PendingCommit(s: State, i: nat): CommitHistory.Commit
    requires i < |s.txs|
  {
    CommitHistory.Commit(i, Pending, s.txs[i].start, Updates(s.sh, s.txs[i].entries), s.txs[i].log)
  }

  lemma AllHeld(s: State, i: nat, us: seq<Update>, l: nat)
    requires Inv(s) && i < |s.txs| && Pos(s.txs[i]) == 0 && SameAddresses(us, s.txs[i].entries)
    requires Covers(s.sh.h.lockOf, us, l)
    ensures l < |s.sh.locks| && OwnLock(s.sh, i, l)
  {
    TxFacts(s, i);
    hide Inv, LogOk, SnapshotOk, RunOk, PcOk, StampOk, ChainsOk, EntryValues, Untouched, NoPending, SetsShape, PcShape;
    var tx := s.txs[i];
    var k :| 0 <= k < |us| && LockIx(s.sh.h.lockOf, us[k].addr) == l;
    EntryIndex(s.sh, tx, k);
    assert EntryHeld(s.sh, i, tx, k);
  }

  lemma HeldIsCovered(s: State, i: nat, us: seq<Update>, l: nat)
    requires Inv(s) && i < |s.txs| && SameAddresses(us, s.txs[i].entries) && l < |s.sh.locks| && OwnLock(s.sh, i, l)
    ensures Covers(s.sh.h.lockOf, us, l)
  {
    HeldCovers(s, i, l);
    hide Inv;
    var tx := s.txs[i];
    var k :| Pos(tx) <= k < |tx.entries| && UnderLock(s.sh.h.lockOf, tx.entries, k, l);
    assert LockIx(s.sh.h.lockOf, us[k].addr) == l;
  }

  /** The updates about to be recorded have the effect of the log on the words as they are. */
  lemma UpdatesEffect(s: State, i: nat, a: nat)
    requires Inv(s) && i < |s.txs| && Quiescent(s.txs[i].pc) && OwnLock(s.sh, i, Lk(s.sh, a))
    ensures var x := ValueAt(s.sh.h, s.sh.clock, a);
            Effect(s.txs[i].log, x, a) == Apply(Updates(s.sh, s.txs[i].entries), x, a)
  {
    var tx := s.txs[i];
    var us := Updates(s.sh, tx.entries);
    var x := ValueAt(s.sh.h, s.sh.clock, a);
    TxFacts(s, i);
    hide LogOk, SnapshotOk, RunOk, PcOk, StampOk, EntriesHeld, EntryValues, Effect, Apply, ValueAt, Base, Merge;
    if k :| 0 <= k < |tx.entries| && tx.entries[k].addr == a {
      EntryFact(s, i, k);
      BaseIsLast(s, i, a);
      RunningWord(s, i, a);
      OneEntry(s.sh.h.lockOf, tx.entries, k);
      hide Inv, Untouched;
      ApplyEntry(us, k, x);
      if s.sh.design.WriteBack? {
        if tx.entries[k].mask == 0 {
          NotStored(tx.log, tx.entries, x, a);
          MergeNone(x, tx.entries[k].value);
        } else {
          MergeAll(x, tx.entries[k].value);
        }
      } else {
        MergeAll(x, s.sh.mem[a]);
      }
    } else {
      hide Inv;
      NotStored(tx.log, tx.entries, x, a);
      ApplyAbsent(us, x, a);
    }
  }

  lemma TimeEffect(s: State, i: nat)
    requires Inv(s) && i < |s.txs| && s.txs[i].pc.TakeTime?
    ensures EffectOk(Tick(s.sh, PendingCommit(s, i)).h, s.txs[i].log, Updates(s.sh, s.txs[i].entries), s.sh.clock + 1)
  {
    TxFacts(s, i);
    hide Inv, TxShape, LogOk, SnapshotOk, RunOk, PcOk, StampOk, EntriesHeld, EntryValues, ChainsOk, Effect, Apply,
         NoPending, ValueAt;
    var tx := s.txs[i];
    var us := Updates(s.sh, tx.entries);
    var h' := Tick(s.sh, PendingCommit(s, i)).h;
    var t := s.sh.clock + 1;
    forall a: nat
      ensures EffectAt(h', tx.log, us, t, a)
    {
      if Covers(s.sh.h.lockOf, us, Lk(s.sh, a)) {
        TimeEffectAt(s, i, a);
      } else {
        forall x: Word
          ensures Effect(tx.log, x, a) == x
        {
          UncoveredUntouched(s.sh.h.lockOf, tx.log, tx.entries, us, x, a);
        }
      }
    }
  }

  lemma TimeEffectAt(s: State, i: nat, a: nat)
    requires Inv(s) && i < |s.txs| && s.txs[i].pc.TakeTime?
    requires Covers(s.sh.h.lockOf, Updates(s.sh, s.txs[i].entries), Lk(s.sh, a))
    ensures |Tick(s.sh, PendingCommit(s, i)).h.commits| == s.sh.clock + 1
    ensures EffectAt(Tick(s.sh, PendingCommit(s, i)).h, s.txs[i].log, Updates(s.sh, s.txs[i].entries), s.sh.clock + 1,
                     a)
  {
    var c := PendingCommit(s, i);
    var h' := Tick(s.sh, c).h;
    var l := Lk(s.sh, a);
    TickGrows(s.sh, c);
    AllHeld(s, i, c.writes, l);
    OwnIsQuiet(s, i, l);
    UpdatesEffect(s, i, a);
    hide Inv, Effect, Apply, ValueAt, NoPending, Quiet, Updates, Grows;
    NoPendingGrows(s.sh.h, h', l, s.sh.clock);
    ValueAppend(s.sh.h, c, s.sh.clock, a);
  }

  lemma UncoveredUntouched(lockOf: seq<nat>, log: seq<Op>, es: seq<WEntry>, us: seq<Update>, x: Word, a: nat)
    requires Untouched(log, es) && SameAddresses(us, es) && !Covers(lockOf, us, LockIx(lockOf, a))
    ensures Effect(log, x, a) == x
  {
    hide Effect;
    forall k | 0 <= k < |es|
      ensures es[k].addr != a
    {
      assert us[k].addr == es[k].addr;
    }
  }

  lemma TimeOwnReads(s: State, i: nat)
    requires Inv(s) && i < |s.txs| && s.txs[i].pc.TakeTime?
    ensures OwnReadsAt(Tick(s.sh, PendingCommit(s, i)).h, s.txs[i].log, s.sh.clock + 1)
  {
    var tx := s.txs[i];
    var c := PendingCommit(s, i);
    var h' := Tick(s.sh, c).h;
    var t := s.sh.clock + 1;
    TxFacts(s, i);
    TickGrows(s.sh, c);
    hide Inv, SnapshotOk, PcOk, StampOk, EntriesHeld, EntryValues, ValueAt, NoPending, ChainsOk, TxShape, Base,
         LogAgrees, Untouched;
    forall k | 0 <= k < |tx.log|
      ensures OwnReadAt(h', tx.log[k], t)
    {
      var op := tx.log[k];
      assert OwnRead(s.sh, i, op);
      if op.Read? && op.source.UnderOwnLock? {
        var l := Lk(s.sh, op.addr);
        OwnIsQuiet(s, i, l);
        BaseIsLast(s, i, op.addr);
        NoPendingGrows(s.sh.h, h', l, t - 1);
        ValueAppend(s.sh.h, c, t - 1, op.addr);
      }
    }
  }

  lemma TimeInv(s: State, i: nat, c: Command)
    requires Inv(s) && i < |s.txs| && s.txs[i].pc.TakeTime?
    ensures Inv(Next(s, i, c))
  {
    var tx := s.txs[i];
    var r := StepTime(s.sh, i, tx);
    var e := PendingCommit(s, i);
    TxFacts(s, i);
    assert GoodAfter(s.sh, r);
    assert PastOk(s.sh);
    TickGrows(s.sh, e);
    forall l | Covers(s.sh.h.lockOf, e.writes, l)
      ensures OwnLock(s.sh, i, l)
    {
      AllHeld(s, i, e.writes, l);
    }
    forall l {:trigger OwnLock(s.sh, i, l)} | 0 <= l < |s.sh.locks| && OwnLock(s.sh, i, l)
      ensures CoversFrom(s.sh.h.lockOf, r.tx.entries, Pos(r.tx), l)
    {
      HeldCovers(s, i, l);
    }
    ShapeAfter(s, i, r);
    TimeTx(s, i);
    PastGrows(s.sh, r.sh);
    hide Inv, TxOk, PastOk, TxShape, GoodAfter, BooksOk, MemoryOk, CoversFrom, Covers, Env, Updates, Shape;
    TickBooks(s, i, e, r.tx);
    TickMemory(s, i, e, r.tx);
    Assemble(s, i, r);
  }

  lemma TimeTx(s: State, i: nat)
    requires Inv(s) && i < |s.txs| && s.txs[i].pc.TakeTime? && GoodAfter(s.sh, StepTime(s.sh, i, s.txs[i]))
    requires TxShape(s.sh, s.txs[i])
    ensures TxOk(StepTime(s.sh, i, s.txs[i]).sh, i, StepTime(s.sh, i, s.txs[i]).tx)
  {
    var tx := s.txs[i];
    var r := StepTime(s.sh, i, tx);
    TxFacts(s, i);
    AllBasesFixed(s, i);
    assert TxShape(r.sh, tx);
    TickSelf(s, i, PendingCommit(s, i));
    TimeEffect(s, i);
    TimeOwnReads(s, i);
    hide Inv, LogOk, ReadsHold, RunOk, ChainsOk, EntriesHeld, EntryValues, Untouched, EffectOk, OwnReadsAt, Env,
         BasesFixed, TxShape;
    SnapshotStable(s.sh, r.sh, tx);
    RunStable(s.sh, r.sh, i, tx);
    RunPc(r.sh, i, tx, r.tx.pc);
    EntriesStable(s.sh, r.sh, i, tx);
    TimeEntries(s.sh, r.sh, i, tx, r.tx.pc);
    assert r.sh.h.commits[s.sh.clock] == PendingCommit(s, i);
    assert s.sh.design.WriteBack? ==> Updates(r.sh, tx.entries) == Updates(s.sh, tx.entries);
  }

  lemma TickSelf(s: State, i: nat, c: CommitHistory.Commit)
    requires Inv(s) && i < |s.txs|
    ensures Env(s.sh, Tick(s.sh, c), i)
  {
    hide TxsOk, OwnersOk, PendingOk, VersionsOk, MemoryOk, PastOk;
    TickGrows(s.sh, c);
    hide Grows;
  }

  lemma TimeEntries(sh0: Shared, sh: Shared, i: nat, tx: Tx, pc': Pc)
    requires SharedShape(sh0) && TxShape(sh0, tx) && EntriesHeld(sh0, i, tx)
    requires SharedShape(sh) && TxShape(sh, tx) && TxShape(sh, tx.(pc := pc')) && EntriesHeld(sh, i, tx)
             && EntryValues(sh, tx)
    requires tx.pc.TakeTime? && pc'.Validate? && pc'.t == sh0.clock + 1 && sh.vers == sh0.vers
             && sh.h.lockOf == sh0.h.lockOf
    ensures EntriesHeld(sh, i, tx.(pc := pc')) && EntryValues(sh, tx.(pc := pc'))
  {
    hide SetsShape, PcShape, Effect, Base, NoPending;
    var tx' := tx.(pc := pc');
    forall k | 0 <= k < |tx.entries|
      ensures EntryHeld(sh, i, tx', k) && EntryValue(sh, tx', k)
    {
      assert EntryHeld(sh, i, tx, k) && EntryValue(sh, tx, k) && EntryHeld(sh0, i, tx, k);
    }
  }

  // ---- the decision ----

  /** Deciding a timestamp leaves words under other threads' locks alone, and all words when it aborts. */
  lemma DecideValue(s: State, i: nat, st: Status, e: nat, a: nat)
    requires Inv(s) && i < |s.txs| && s.txs[i].pc.Validate? && !st.Pending? && e <= s.sh.clock
    requires st.Aborted? || !OwnLock(s.sh, i, Lk(s.sh, a)) || e < s.txs[i].pc.t
    ensures 0 < s.txs[i].pc.t <= |s.sh.h.commits| && ValueAt(Decided(s, i, st).h, e, a) == ValueAt(s.sh.h, e, a)
  {
    StampPending(s, i);
    var t := s.txs[i].pc.t;
    if !st.Aborted? && e >= t && Touches(s.sh.h, t, Lk(s.sh, a)) {
      AllHeld(s, i, s.sh.h.commits[t - 1].writes, Lk(s.sh, a));
    }
    hide Inv, Touches, ValueAt;
    ValueRecord(s.sh.h, t, st, e, a);
  }

  /** A word under a lock of a validating thread is as it was before its timestamp. */
  lemma SinceStamp(s: State, i: nat, a: nat)
    requires Inv(s) && i < |s.txs| && s.txs[i].pc.Validate? && OwnLock(s.sh, i, Lk(s.sh, a)) && a < |s.sh.mem|
    ensures 0 < s.txs[i].pc.t <= s.sh.clock
    ensures Base(s.sh, a) == ValueAt(s.sh.h, s.txs[i].pc.t - 1, a) == ValueAt(s.sh.h, s.sh.clock, a)
    ensures NoCommit(s.sh.h, Lk(s.sh, a), s.txs[i].pc.t - 1, s.sh.clock)
  {
    StampPending(s, i);
    OwnIsQuiet(s, i, Lk(s.sh, a));
    BaseIsLast(s, i, a);
    hide TxsOk, MemoryOk, PastOk, OwnersOk, PendingOk, ValueAt, Base, NoPending, Touches;
    ValueQuiet(s.sh.h, s.txs[i].pc.t - 1, s.sh.clock, a);
  }

  lemma DecideOwnerWord(s: State, i: nat, st: Status, o: nat, a: nat)
    requires Inv(s) && i < |s.txs| && s.txs[i].pc.Validate? && !st.Pending? && o < |s.txs| && o != i && a < |s.sh.mem|
    requires OwnLock(s.sh, o, Lk(s.sh, a))
    ensures 0 < s.txs[i].pc.t <= |s.sh.h.commits| && SharedShape(Decided(s, i, st))
    ensures OwnerWord(Decided(s, i, st), s.txs[o], a) == OwnerWord(s.sh, s.txs[o], a)
  {
    assert SharedShape(s.sh);
    hide Inv, ValueAt, OwnerWord, Quiet, NoPending;
    StampPending(s, i);
    StampBound(s, o);
    OwnIsQuiet(s, o, Lk(s.sh, a));
    DecideValue(s, i, st, s.sh.clock, a);
    DecideValue(s, i, st, s.sh.vers[Lk(s.sh, a)].version, a);
    if 0 < Ts(s.txs[o].pc) {
      DecideValue(s, i, st, Ts(s.txs[o].pc) - 1, a);
    }
    RecordOwnerWord(s.sh, s.txs[i].pc.t, st, s.txs[o], a);
  }

  lemma RecordOwnerWord(sh: Shared, t: nat, st: Status, tx: Tx, a: nat)
    requires SharedShape(sh) && 0 < t <= sh.clock && SharedShape(sh.(h := Record(sh.h, t, st)))
    requires Lk(sh, a) < |sh.vers| && sh.vers[Lk(sh, a)].version <= sh.clock && Ts(tx.pc) <= sh.clock
    requires ValueAt(Record(sh.h, t, st), sh.clock, a) == ValueAt(sh.h, sh.clock, a)
    requires ValueAt(Record(sh.h, t, st), sh.vers[Lk(sh, a)].version, a) == ValueAt(sh.h, sh.vers[Lk(sh, a)].version, a)
    requires 0 < Ts(tx.pc) ==> ValueAt(Record(sh.h, t, st), Ts(tx.pc) - 1, a) == ValueAt(sh.h, Ts(tx.pc) - 1, a)
    ensures OwnerWord(sh.(h := Record(sh.h, t, st)), tx, a) == OwnerWord(sh, tx, a)
  {
    hide ValueAt, Apply, Effect;
    assert Base(sh.(h := Record(sh.h, t, st)), a) == Base(sh, a);
  }

  lemma DecideMemory(s: State, i: nat, st: Status, tx': Tx)
    requires Inv(s) && Decides(s, i, st, tx') && Shape(State(Decided(s, i, st), s.txs[i := tx']))
    ensures MemoryOk(State(Decided(s, i, st), s.txs[i := tx']))
  {
    var sh' := Decided(s, i, st);
    var s' := State(sh', s.txs[i := tx']);
    forall a | 0 <= a < |s.sh.mem|
      ensures WordOk(s', a)
    {
      assert WordOk(s, a);
      var w := s.sh.locks[Lk(s.sh, a)];
      hide Inv, ValueAt, OwnerWord, Shape;
      if w.Held? && w.owner < |s.txs| && w.owner != i {
        DecideOwnerWord(s, i, st, w.owner, a);
      } else if w.Held? && w.owner == i {
        DecideOwnWord(s, i, st, tx', a);
      } else {
        DecideValue(s, i, st, s.sh.clock, a);
      }
    }
  }

  lemma DecideOwnWord(s: State, i: nat, st: Status, tx': Tx, a: nat)
    requires Inv(s) && Decides(s, i, st, tx') && a < |s.sh.mem| && OwnLock(s.sh, i, Lk(s.sh, a))
             && SharedShape(Decided(s, i, st))
    ensures OwnerWord(Decided(s, i, st), tx', a) == OwnerWord(s.sh, s.txs[i], a)
  {
    hide Inv, ValueAt, Effect, NoPending, Quiet;
    SinceStamp(s, i, a);
    if st.Aborted? {
      DecideAbortedWord(s, i, tx', a);
    } else if s.sh.design.WriteBack? {
      DecideValue(s, i, st, s.txs[i].pc.t - 1, a);
      StampPending(s, i);
    } else {
      DecideThroughWord(s, i, tx', a);
    }
  }

  lemma DecideAbortedWord(s: State, i: nat, tx': Tx, a: nat)
    requires Inv(s) && Decides(s, i, Aborted, tx') && a < |s.sh.mem| && OwnLock(s.sh, i, Lk(s.sh, a))
    requires SharedShape(Decided(s, i, Aborted))
    ensures OwnerWord(Decided(s, i, Aborted), tx', a) == OwnerWord(s.sh, s.txs[i], a)
  {
    OwnIsQuiet(s, i, Lk(s.sh, a));
    HeldCovers(s, i, Lk(s.sh, a));
    DecideValue(s, i, Aborted, s.sh.clock, a);
    DecideValue(s, i, Aborted, s.sh.vers[Lk(s.sh, a)].version, a);
    hide Inv, ValueAt, Effect, Quiet, NoPending;
  }

  /** In the write-through design the words are in place when the commit is decided. */
  lemma DecideThroughWord(s: State, i: nat, tx': Tx, a: nat)
    requires Inv(s) && Decides(s, i, Committed, tx') && a < |s.sh.mem| && OwnLock(s.sh, i, Lk(s.sh, a))
    requires SharedShape(Decided(s, i, Committed)) && s.sh.design.WriteThrough?
    ensures OwnerWord(Decided(s, i, Committed), tx', a) == OwnerWord(s.sh, s.txs[i], a)
  {
    var t := s.txs[i].pc.t;
    var l := Lk(s.sh, a);
    var h' := Decided(s, i, Committed).h;
    var us := s.sh.h.commits[t - 1].writes;
    SinceStamp(s, i, a);
    StampPending(s, i);
    HeldIsCovered(s, i, us, l);
    assert EffectAt(s.sh.h, s.txs[i].log, us, t, a) by { StampEffect(s, i, a); }
    DecideValue(s, i, Committed, t - 1, a);
    forall u {:trigger Touches(h', u, l)} | t < u <= s.sh.clock && h'.commits[u - 1].status.Committed?
      ensures !Touches(h', u, l)
    {
      RecordTouches(s.sh.h, t, Committed, u, l);
    }
    ValueQuiet(h', t, s.sh.clock, a);
    hide Inv, Effect, Touches, NoPending, NoCommit;
  }

  lemma StampEffect(s: State, i: nat, a: nat)
    requires Inv(s) && i < |s.txs| && s.txs[i].pc.Validate? && 0 < s.txs[i].pc.t <= s.sh.clock
    ensures EffectAt(s.sh.h, s.txs[i].log, s.sh.h.commits[s.txs[i].pc.t - 1].writes, s.txs[i].pc.t, a)
  {
    TxFacts(s, i);
    hide Inv, EffectAt;
  }

  // ---- validation ----

  /** Nothing but the program counter of a validating thread moves. */
  lemma ValidateNextInv(s: State, i: nat)
    requires Inv(s) && i < |s.txs| && s.txs[i].pc.Validate? && TxShape(s.sh, s.txs[i])
    requires s.txs[i].pc.k < |s.txs[i].rset| && EntryValid(s.sh, i, s.txs[i], s.txs[i].pc.k)
    ensures Inv(State(s.sh, s.txs[i := s.txs[i].(pc := Validate(s.txs[i].pc.t, s.txs[i].pc.k + 1))]))
  {
    var tx := s.txs[i];
    var pc' := Validate(tx.pc.t, tx.pc.k + 1);
    var tx' := tx.(pc := pc');
    TxFacts(s, i);
    StampBound(s, i);
    ValidIsQuiet(s, i, tx.pc.k);
    SameRole(s, i, tx');
    SameOwnWords(s, i, tx');
    assert PastOk(s.sh);
    hide Inv, LogOk, RunOk, ReadsHold, ChainsOk, EntriesHeld, EntryValues, Untouched, PastOk, OwnWordsOk, RoleKept,
         EffectOk, OwnReadsAt, SetsShape, Quiet, EntryValid;
    RunPc(s.sh, i, tx, pc');
    EntriesPc(s.sh, i, tx, pc');
    assert s.sh.(mem := s.sh.mem, finished := s.sh.finished) == s.sh;
    KeepInv(s, i, s.sh, tx');
  }

  lemma DecideTx(s: State, i: nat, st: Status, tx': Tx)
    requires Inv(s) && Decides(s, i, st, tx') && Grows(s.sh.h, Decided(s, i, st).h) && SharedShape(Decided(s, i, st))
    requires TxShape(s.sh, s.txs[i]) && TxShape(Decided(s, i, st), tx')
    ensures TxOk(Decided(s, i, st), i, tx')
  {
    var tx := s.txs[i];
    var sh' := Decided(s, i, st);
    TxFacts(s, i);
    StampPending(s, i);
    DecideEntries(s, i, st, tx');
    hide Inv, LogOk, ReadsHold, RunOk, ChainsOk, EntriesHeld, EntryValues, Untouched, EffectOk, OwnReadsAt, TxShape,
         Grows;
    SnapshotStable(s.sh, sh', tx);
    SnapshotPc(sh', tx, tx'.pc);
    var t := tx.pc.t;
    EffectStable(s.sh.h, sh'.h, tx.log, s.sh.h.commits[t - 1].writes, t);
    OwnReadsStable(s.sh.h, sh'.h, tx.log, t);
    assert s.sh.design.WriteBack? ==> Updates(sh', tx.entries) == Updates(s.sh, tx.entries);
  }

  lemma DecideEntries(s: State, i: nat, st: Status, tx': Tx)
    requires Inv(s) && Decides(s, i, st, tx') && Grows(s.sh.h, Decided(s, i, st).h) && SharedShape(Decided(s, i, st))
    requires TxShape(s.sh, s.txs[i]) && TxShape(Decided(s, i, st), tx')
    ensures EntriesHeld(Decided(s, i, st), i, tx') && EntryValues(Decided(s, i, st), tx')
  {
    var tx := s.txs[i];
    var sh' := Decided(s, i, st);
    TxFacts(s, i);
    hide OwnersOk, PendingOk, VersionsOk, MemoryOk, PastOk, TxsOk, LogOk, SnapshotOk, RunOk, PcOk, StampOk, ChainsOk,
         Untouched, Base, Effect, NoPending, SetsShape, PcShape;
    forall k | Pos(tx') <= k < |tx.entries|
      ensures EntryHeld(sh', i, tx', k)
      ensures !Writing(tx'.pc) ==> EntryValue(sh', tx', k)
    {
      assert EntryHeld(s.sh, i, tx, k) && EntryValue(s.sh, tx, k);
      var a := tx.entries[k].addr;
      NoPendingGrows(s.sh.h, sh'.h, Lk(s.sh, a), s.sh.vers[Lk(s.sh, a)].version);
      DecideBase(s, i, st, a);
    }
  }

  lemma DecideBase(s: State, i: nat, st: Status, a: nat)
    requires Inv(s) && i < |s.txs| && s.txs[i].pc.Validate? && !st.Pending? && 0 < s.txs[i].pc.t <= |s.sh.h.commits|
    requires OwnLock(s.sh, i, Lk(s.sh, a))
    ensures Base(Decided(s, i, st), a) == Base(s.sh, a)
  {
    OwnIsQuiet(s, i, Lk(s.sh, a));
    DecideValue(s, i, st, s.sh.vers[Lk(s.sh, a)].version, a);
    hide Inv, ValueAt, Quiet, NoPending;
  }

  lemma DecideInv(s: State, i: nat, st: Status, tx': Tx)
    requires Inv(s) && Decides(s, i, st, tx') && GoodAfter(s.sh, After(Decided(s, i, st), tx'))
    requires PastOk(Decided(s, i, st))
    ensures Inv(State(Decided(s, i, st), s.txs[i := tx']))
  {
    TxFacts(s, i);
    DecideBooks(s, i, st, tx');
    ShapeAfter(s, i, After(Decided(s, i, st), tx'));
    DecideTx(s, i, st, tx');
    DecideMemory(s, i, st, tx');
    hide Inv, TxOk, PastOk, TxShape, BooksOk, MemoryOk, OthersLeftAlone, Shape, Grows;
    Assemble(s, i, After(Decided(s, i, st), tx'));
  }

  lemma ValidateFailInv(s: State, i: nat)
    requires Inv(s) && i < |s.txs| && s.txs[i].pc.Validate? && 0 < s.txs[i].pc.t <= s.sh.clock
    ensures Inv(State(Decided(s, i, Aborted), s.txs[i := s.txs[i].(pc := RollbackPc(s.txs[i]))]))
  {
    var tx := s.txs[i];
    var tx' := tx.(pc := RollbackPc(tx));
    TxFacts(s, i);
    StampPending(s, i);
    RecordGrows(s.sh.h, tx.pc.t, Aborted);
    assert GoodAfter(s.sh, After(Decided(s, i, Aborted), tx'));
    PastGrows(s.sh, Decided(s, i, Aborted));
    hide Inv, TxOk, PastOk, TxShape, GoodAfter;
    DecideInv(s, i, Aborted, tx');
  }

  /** The whole read set has been found valid, or nobody else has committed since the start. */
  lemma ReadsHoldAtCommit(sh: Shared, i: nat, tx: Tx)
    requires SharedShape(sh) && TxShape(sh, tx) && tx.pc.Validate? && TxOk(sh, i, tx)
    requires (tx.pc.k == 0 && tx.start == tx.pc.t - 1) || tx.pc.k == |tx.rset|
    ensures ReadsHold(sh.h, tx.log, tx.pc.t - 1) && tx.end <= tx.pc.t - 1
  {
    hide Quiet, NoPending, SetsShape, EffectOk, OwnReadsAt, ChainsOk, EntriesHeld, EntryValues, Untouched, LogOk,
         OwnReads, ReadsBeforeLocks;
    if tx.pc.k == |tx.rset| {
      SnapshotMoves(sh, tx, tx.pc.t - 1);
    }
  }

  lemma CommitPast(s: State, i: nat)
    requires Inv(s) && i < |s.txs| && s.txs[i].pc.Validate? && 0 < s.txs[i].pc.t <= s.sh.clock
    requires var tx := s.txs[i]; (tx.pc.k == 0 && tx.start == tx.pc.t - 1) || tx.pc.k == |tx.rset|
    requires SharedShape(Decided(s, i, Committed)) && Grows(s.sh.h, Decided(s, i, Committed).h)
    ensures PastOk(Decided(s, i, Committed))
  {
    var tx := s.txs[i];
    var t := tx.pc.t;
    var sh' := Decided(s, i, Committed);
    TxFacts(s, i);
    StampPending(s, i);
    ReadsHoldAtCommit(s.sh, i, tx);
    assert PastOk(s.sh);
    hide Inv, PastOk, LogOk, ReadsHold, RunOk, PcOk, EntriesHeld, EntryValues, ChainsOk, Untouched, TxShape, Grows,
         EffectOk, OwnReadsAt;
    ReadsGrow(s.sh.h, sh'.h, tx.log, t - 1);
    EffectStable(s.sh.h, sh'.h, tx.log, s.sh.h.commits[t - 1].writes, t);
    OwnReadsStable(s.sh.h, sh'.h, tx.log, t);
    assert CommitOk(sh', t);
    PastGrows(s.sh, sh');
  }

  lemma ValidateDoneInv(s: State, i: nat)
    requires Inv(s) && i < |s.txs| && s.txs[i].pc.Validate? && 0 < s.txs[i].pc.t <= s.sh.clock
    requires var tx := s.txs[i]; (tx.pc.k == 0 && tx.start == tx.pc.t - 1) || tx.pc.k == |tx.rset|
    ensures Inv(State(Decided(s, i, Committed), s.txs[i := s.txs[i].(pc := Install(s.txs[i].pc.t, 0))]))
  {
    var tx := s.txs[i];
    var tx' := tx.(pc := Install(tx.pc.t, 0));
    TxFacts(s, i);
    StampPending(s, i);
    RecordGrows(s.sh.h, tx.pc.t, Committed);
    assert GoodAfter(s.sh, After(Decided(s, i, Committed), tx'));
    CommitPast(s, i);
    hide Inv, TxOk, PastOk, TxShape, GoodAfter;
    DecideInv(s, i, Committed, tx');
  }

  lemma ValidateInv(s: State, i: nat, c: Command)
    requires Inv(s) && i < |s.txs| && s.txs[i].pc.Validate?
    ensures Inv(Next(s, i, c))
  {
    hide OwnersOk, PendingOk, MemoryOk, PastOk, VersionsOk, TxsOk, SetsShape, EntryValid;
    var tx := s.txs[i];
    assert TxShape(s.sh, tx);
    if (tx.pc.k == 0 && tx.start == tx.pc.t - 1) || tx.pc.k == |tx.rset| {
      ValidateDoneInv(s, i);
    } else if EntryValid(s.sh, i, tx, tx.pc.k) {
      ValidateNextInv(s, i);
    } else {
      ValidateFailInv(s, i);
    }
  }
}
