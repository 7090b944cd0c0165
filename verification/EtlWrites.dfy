/** Step by step: taking locks and writing words under them. */
module EtlWrites {
  import opened CommitHistory
  import opened EtlMachine
  import opened EtlInvariant
  import opened EtlProof
  import opened EtlFrame
  import opened EtlChains
  import opened EtlSteps

  // ---- a new entry, still empty ----

  /** The thread is inside a write, with the given write set. */
  function Between(tx: Tx, es: seq<WEntry>): Tx {
    tx.(pc := Active, entries := es)
  }

  lemma EmptyEntryStores(es: seq<WEntry>, es': seq<WEntry>)
    requires |es'| == |es| + 1 && es'[|es|].mask == 0
    requires forall k :: 0 <= k < |es| ==> es'[k].addr == es[k].addr && es'[k].mask == es[k].mask
    ensures forall a: nat :: Stored(es', a) == Stored(es, a)
  {
    forall a: nat
      ensures Stored(es', a) == Stored(es, a)
    {
      if Stored(es, a) {
        var k :| 0 <= k < |es| && es[k].addr == a && es[k].mask != 0;
        assert es'[k].addr == a && es'[k].mask != 0;
      }
    }
  }

  lemma RunEntries(sh: Shared, i: nat, tx: Tx, es: seq<WEntry>)
    requires SharedShape(sh) && RunOk(sh, i, tx) && Quiescent(tx.pc) && !tx.pc.RClock? && !tx.pc.RExtend?
    ensures RunOk(sh, i, Between(tx, es))
  {
    hide Quiet, OwnReads, ReadsBeforeLocks;
    SourcesEnd(sh, tx, Between(tx, es));
  }

  /** A lock of the thread gets another entry. */
  lemma LinkInv(s: State, i: nat, a: nat)
    requires Inv(s) && i < |s.txs| && s.txs[i].pc.WLoadLock? && a < |s.sh.mem| && OwnLock(s.sh, i, Lk(s.sh, a))
    requires !s.txs[i].readOnly
    requires var es := s.txs[i].entries; var e := s.sh.locks[Lk(s.sh, a)].entry; e < |es| && ChainFind(es, e, a) == |es|
    ensures var es := s.txs[i].entries;
            var es' := Linked(es, ChainLast(es, s.sh.locks[Lk(s.sh, a)].entry), a);
            Inv(State(s.sh, s.txs[i := Between(s.txs[i], es')]))
  {
    var tx := s.txs[i];
    var e := s.sh.locks[Lk(s.sh, a)].entry;
    var last := ChainLast(tx.entries, e);
    var es' := Linked(tx.entries, last, a);
    var tx' := Between(tx, es');
    SameRole(s, i, tx');
    SameOwnWords(s, i, tx');
    assert PastOk(s.sh) && SharedShape(s.sh);
    LinkTx(s, i, a);
    hide Inv, TxOk, TxShape, PastOk, OwnWordsOk, RoleKept, ChainLast, ChainFind;
    assert s.sh.(mem := s.sh.mem, finished := s.sh.finished) == s.sh;
    KeepInv(s, i, s.sh, tx');
  }

  lemma LinkTx(s: State, i: nat, a: nat)
    requires Inv(s) && i < |s.txs| && s.txs[i].pc.WLoadLock? && a < |s.sh.mem| && OwnLock(s.sh, i, Lk(s.sh, a))
    requires !s.txs[i].readOnly
    requires var es := s.txs[i].entries; var e := s.sh.locks[Lk(s.sh, a)].entry; e < |es| && ChainFind(es, e, a) == |es|
    ensures var es := s.txs[i].entries;
            var tx' := Between(s.txs[i], Linked(es, ChainLast(es, s.sh.locks[Lk(s.sh, a)].entry), a));
            TxShape(s.sh, tx') && TxOk(s.sh, i, tx')
  {
    var tx := s.txs[i];
    var e := s.sh.locks[Lk(s.sh, a)].entry;
    var last := ChainLast(tx.entries, e);
    var es' := Linked(tx.entries, last, a);
    var tx' := Between(tx, es');
    TxFacts(s, i);
    OwnChain(s, i, a);
    ChainLastIsLast(s.sh.h.lockOf, tx.entries, e);
    LinkedOk(s.sh.h.lockOf, tx.entries, last, a);
    assert TxShape(s.sh, tx');
    hide Inv, LogOk, ReadsHold, ChainsOk, Base, Effect, NoPending, TxShape, ChainFind, ChainLast, Stored, RunOk,
         EntriesHeld, EntryValues;
    EmptyEntryStores(tx.entries, es');
    RunEntries(s.sh, i, tx, es');
    NoStamp(s.sh, i, tx');
    LinkedEntries(s, i, a, last);
  }

  lemma LinkedEntries(s: State, i: nat, a: nat, last: nat)
    requires Inv(s) && i < |s.txs| && s.txs[i].pc.WLoadLock? && a < |s.sh.mem|
    requires last < |s.txs[i].entries| && Lk(s.sh, s.txs[i].entries[last].addr) == Lk(s.sh, a)
    requires TxShape(s.sh, Between(s.txs[i], Linked(s.txs[i].entries, last, a)))
    ensures var tx' := Between(s.txs[i], Linked(s.txs[i].entries, last, a));
            EntriesHeld(s.sh, i, tx') && EntryValues(s.sh, tx')
  {
    var tx := s.txs[i];
    var es' := Linked(tx.entries, last, a);
    var tx' := Between(tx, es');
    TxFacts(s, i);
    hide Inv, LogOk, SnapshotOk, RunOk, PcOk, ChainsOk, Untouched, Base, Effect, NoPending, SetsShape, PcShape;
    var lk := s.sh.h.lockOf;
    forall k | 0 <= k < |es'|
      ensures EntryHeld(s.sh, i, tx', k) && EntryValue(s.sh, tx', k)
    {
      var o := if k < |tx.entries| then k else last;
      assert EntryHeld(s.sh, i, tx, o) && EntryValue(s.sh, tx, o);
      var l := Lk(s.sh, es'[k].addr);
      forall j | 0 <= j < s.sh.locks[l].entry
        ensures !UnderLock(lk, es', j, l)
      {
        assert !UnderLock(lk, tx.entries, j, l);
      }
    }
  }

  // ---- a lock is taken ----

  lemma NotOwnYet(s: State, i: nat, l: nat)
    requires Inv(s) && i < |s.txs| && Quiescent(s.txs[i].pc) && l < |s.sh.locks| && !OwnLock(s.sh, i, l)
    ensures forall k :: 0 <= k < |s.txs[i].entries| ==> Lk(s.sh, s.txs[i].entries[k].addr) != l
  {
    TxFacts(s, i);
    hide Inv, LogOk, SnapshotOk, RunOk, PcOk, StampOk, ChainsOk, EntryValues, Untouched, NoPending, SetsShape, PcShape;
    var tx := s.txs[i];
    forall k | 0 <= k < |tx.entries|
      ensures Lk(s.sh, tx.entries[k].addr) != l
    {
      assert EntryHeld(s.sh, i, tx, k);
    }
  }

  predicate CasWins(sh: Shared, tx: Tx)
    requires SharedShape(sh) && TxShape(sh, tx) && tx.pc.WCas?
  {
    sh.locks[Lk(sh, tx.pc.a)] == Free(tx.pc.v)
  }

  /** After the compare-and-swap of a write. */
  function Taken(s: State, i: nat): Shared
    requires i < |s.txs| && s.txs[i].pc.WCas? && Lk(s.sh, s.txs[i].pc.a) < |s.sh.locks|
  {
    s.sh.(locks := s.sh.locks[Lk(s.sh, s.txs[i].pc.a) := Held(i, |s.txs[i].entries|)])
  }

  /** A lock may be taken in a version newer than `end` only if nothing under it was read before; so whatever
      was read under it is still what it was. */
  ghost predicate NotReadInBetween(s: State, i: nat)
    requires i < |s.txs| && s.txs[i].pc.WCas?
  {
    s.txs[i].pc.v.version <= s.txs[i].end || !HasRead(s.txs[i].rset, Lk(s.sh, s.txs[i].pc.a))
  }

  lemma TakenRun(s: State, i: nat)
    requires Inv(s) && i < |s.txs| && s.txs[i].pc.WCas? && TxShape(s.sh, s.txs[i]) && CasWins(s.sh, s.txs[i])
    requires SharedShape(Taken(s, i)) && NotReadInBetween(s, i)
    ensures RunOk(Taken(s, i), i, Between(s.txs[i], Acquired(s.txs[i].entries, s.txs[i].pc.a, s.txs[i].pc.v)))
  {
    var tx := s.txs[i];
    var WCas(a, value, mask, v) := tx.pc;
    var l := Lk(s.sh, a);
    var sh' := Taken(s, i);
    var tx' := Between(tx, Acquired(tx.entries, a, v));
    TxFacts(s, i);
    FreeIsQuiet(s, l);
    hide Inv, LogOk, SnapshotOk, PcOk, StampOk, ChainsOk, EntriesHeld, EntryValues, Untouched, Quiet, NoPending,
         SetsShape, PcShape, ValueAt;
    forall k | 0 <= k < |tx.log|
      ensures OwnRead(sh', i, tx.log[k])
    {
      assert OwnRead(s.sh, i, tx.log[k]);
    }
    SourcesEnd(s.sh, tx, tx');
    SourcesShared(s.sh, sh', tx');
    forall j | 0 <= j < |tx.rset|
      ensures ReadBeforeLock(sh', i, tx.rset[j])
    {
      assert ReadBeforeLock(s.sh, i, tx.rset[j]);
      if tx.rset[j].lock == l {
        QuietLess(s.sh.h, l, tx.rset[j].version, v.version, tx.end);
      }
    }
    QuietReadsSame(s.sh, sh', tx.rset, |tx.rset|, tx.end);
  }

  lemma SourcesShared(sh: Shared, sh': Shared, tx: Tx)
    requires SourcesKnown(sh, tx) && sh'.h == sh.h
    ensures SourcesKnown(sh', tx)
  {
  }

  lemma QuietReadsSame(sh: Shared, sh': Shared, rset: seq<REntry>, n: nat, hi: nat)
    requires SharedShape(sh) && SharedShape(sh') && sh'.h == sh.h && n <= |rset| && hi <= sh.clock
             && QuietReads(sh, rset, n, hi)
    ensures QuietReads(sh', rset, n, hi)
  {
  }

  lemma TakenEntries(s: State, i: nat)
    requires Inv(s) && i < |s.txs| && s.txs[i].pc.WCas? && TxShape(s.sh, s.txs[i]) && CasWins(s.sh, s.txs[i])
    requires SharedShape(Taken(s, i))
    requires TxShape(Taken(s, i), Between(s.txs[i], Acquired(s.txs[i].entries, s.txs[i].pc.a, s.txs[i].pc.v)))
    ensures var tx' := Between(s.txs[i], Acquired(s.txs[i].entries, s.txs[i].pc.a, s.txs[i].pc.v));
            EntriesHeld(Taken(s, i), i, tx') && EntryValues(Taken(s, i), tx')
  {
    var tx := s.txs[i];
    var WCas(a, value, mask, v) := tx.pc;
    var l := Lk(s.sh, a);
    var sh' := Taken(s, i);
    var es' := Acquired(tx.entries, a, v);
    var tx' := Between(tx, es');
    TxFacts(s, i);
    FreeIsQuiet(s, l);
    NotOwnYet(s, i, l);
    NoPendingLess(s.sh.h, l, v.version, s.sh.clock);
    hide Inv, LogOk, SnapshotOk, RunOk, PcOk, ChainsOk, Untouched, Effect, NoPending, Quiet, SetsShape, PcShape;
    forall k | 0 <= k < |es'|
      ensures EntryHeld(sh', i, tx', k) && EntryValue(sh', tx', k)
    {
      EntryIndex(sh', tx', k);
      var m := Lk(s.sh, es'[k].addr);
      if k < |tx.entries| {
        assert EntryHeld(s.sh, i, tx, k) && EntryValue(s.sh, tx, k);
        forall j | 0 <= j < sh'.locks[m].entry
          ensures !UnderLock(s.sh.h.lockOf, es', j, m)
        {
          assert !UnderLock(s.sh.h.lockOf, tx.entries, j, m);
        }
      }
    }
  }

  lemma TakenInv(s: State, i: nat)
    requires Inv(s) && i < |s.txs| && s.txs[i].pc.WCas? && TxShape(s.sh, s.txs[i]) && CasWins(s.sh, s.txs[i])
             && NotReadInBetween(s, i)
    ensures Lk(s.sh, s.txs[i].pc.a) < |s.sh.locks|
    ensures Inv(State(Taken(s, i),
                      s.txs[i := Between(s.txs[i], Acquired(s.txs[i].entries, s.txs[i].pc.a, s.txs[i].pc.v))]))
  {
    var tx := s.txs[i];
    var WCas(a, value, mask, v) := tx.pc;
    var l := Lk(s.sh, a);
    LockIndex(s.sh, a);
    var sh' := Taken(s, i);
    var es' := Acquired(tx.entries, a, v);
    var tx' := Between(tx, es');
    TxFacts(s, i);
    assert GoodAfter(s.sh, After(sh', tx'));
    NotOwnYet(s, i, l);
    AcquiredOk(s.sh.h.lockOf, tx.entries, a, v);
    SameRole(s, i, tx');
    assert UnderLock(s.sh.h.lockOf, es', |tx.entries|, l);
    TakenRun(s, i);
    TakenEntries(s, i);
    TakenWords(s, i);
    PastSame(s.sh, sh');
    hide Inv, LogOk, RunOk, ReadsHold, ChainsOk, PastOk, OwnWordsOk, RoleKept, NoPending, TxShape, Stored, EntriesHeld,
         EntryValues, BooksOk, MemoryOk, OthersLeftAlone, GoodAfter, Effect, Shape;
    EmptyEntryStores(tx.entries, es');
    NoStamp(sh', i, tx');
    assert TxOk(sh', i, tx');
    ShapeAfter(s, i, After(sh', tx'));
    TakeBooks(s, i, l, |tx.entries|, tx');
    TakeMemory(s, i, l, |tx.entries|, tx');
    Assemble(s, i, After(sh', tx'));
  }

  /** The words under the new lock are as they were when it was free. */
  lemma TakenWords(s: State, i: nat)
    requires Inv(s) && i < |s.txs| && s.txs[i].pc.WCas? && TxShape(s.sh, s.txs[i]) && CasWins(s.sh, s.txs[i])
    requires SharedShape(Taken(s, i))
    ensures OwnWordsOk(Taken(s, i), i, Between(s.txs[i], Acquired(s.txs[i].entries, s.txs[i].pc.a, s.txs[i].pc.v)))
  {
    var tx := s.txs[i];
    var WCas(a, value, mask, v) := tx.pc;
    var l := Lk(s.sh, a);
    var sh' := Taken(s, i);
    var tx' := Between(tx, Acquired(tx.entries, a, v));
    FreeIsQuiet(s, l);
    forall b | 0 <= b < |sh'.mem| && OwnLock(sh', i, Lk(sh', b))
      ensures sh'.mem[b] == OwnerWord(sh', tx', b)
    {
      if Lk(s.sh, b) == l {
        TakenWord(s, i, b);
      } else {
        hide Inv, OwnerWord;
        WordFact(s, i, b);
        SameOwnerWord(s.sh, sh', tx, b);
        BetweenWord(sh', tx, tx'.entries, b);
      }
    }
  }

  lemma BetweenWord(sh: Shared, tx: Tx, es: seq<WEntry>, a: nat)
    requires SharedShape(sh) && Quiescent(tx.pc)
    ensures OwnerWord(sh, Between(tx, es), a) == OwnerWord(sh, tx, a)
  {
  }

  lemma TakenWord(s: State, i: nat, b: nat)
    requires Inv(s) && i < |s.txs| && s.txs[i].pc.WCas? && TxShape(s.sh, s.txs[i]) && CasWins(s.sh, s.txs[i])
    requires SharedShape(Taken(s, i)) && b < |s.sh.mem| && Lk(s.sh, b) == Lk(s.sh, s.txs[i].pc.a)
    ensures s.sh.mem[b]
            == OwnerWord(Taken(s, i), Between(s.txs[i], Acquired(s.txs[i].entries, s.txs[i].pc.a, s.txs[i].pc.v)), b)
  {
    var tx := s.txs[i];
    var l := Lk(s.sh, b);
    FreeIsQuiet(s, l);
    assert WordOk(s, b);
    NoEffectHere(s, i, b, Base(s.sh, b));
    hide Inv, Effect, ValueAt, NoPending;
    QuietNoCommit(s.sh.h, l, s.sh.vers[l].version, s.sh.clock);
    ValueQuiet(s.sh.h, s.sh.vers[l].version, s.sh.clock, b);
    assert Base(Taken(s, i), b) == Base(s.sh, b);
  }

  // ---- a word is written ----

  lemma EffectNull(log: seq<Op>, a: nat, value: Word)
    ensures forall x: Word, b: nat :: Effect(log + [Op.Write(a, value, 0)], x, b) == Effect(log, x, b)
  {
    EffectWrite(log, a, value, 0);
    forall x: Word
      ensures Merge(x, value, 0) == x
    {
      MergeNone(x, value);
    }
    hide Merge, Effect;
  }

  lemma WriteRun(sh: Shared, i: nat, tx: Tx, tx': Tx, op: Op)
    requires SharedShape(sh) && RunOk(sh, i, tx) && SnapshotOk(sh, tx) && Quiescent(tx.pc) && !tx.pc.RClock?
             && !tx.pc.RExtend?
    requires op.Write? && tx'.pc.Active? && tx'.log == tx.log + [op]
    requires tx'.readOnly == tx.readOnly && tx'.start == tx.start && tx'.end == tx.end && tx'.rset == tx.rset
    ensures RunOk(sh, i, tx') && SnapshotOk(sh, tx')
  {
    hide Quiet, Base, ReadsBeforeLocks;
    ReadsAppend(sh.h, tx.log, op, tx.end);
    forall k {:trigger tx'.log[k]} | 0 <= k < |tx'.log| && tx'.log[k].Read? && tx'.log[k].source.Memory?
      ensures tx'.readOnly || REntry(Lk(sh, tx'.log[k].addr), tx'.log[k].source.version) in tx'.rset
    {
      assert tx.log[k] == tx'.log[k];
    }
  }

  /** A write with an empty mask does nothing. */
  lemma NullInv(s: State, i: nat, a: nat, value: Word)
    requires Inv(s) && i < |s.txs| && a < |s.sh.mem| && Quiescent(s.txs[i].pc) && !s.txs[i].pc.RClock?
             && !s.txs[i].pc.RExtend?
    ensures var r := Wrote(s.sh, s.txs[i], s.txs[i].entries, a, value, 0);
            Inv(State(r.sh, s.txs[i := r.tx]))
  {
    var tx := s.txs[i];
    var op := Op.Write(a, value, 0);
    var tx' := tx.(pc := Active, log := tx.log + [op]);
    TxFacts(s, i);
    hide Inv, LogOk, RunOk, SnapshotOk, PcOk, StampOk, ChainsOk, EntriesHeld, EntryValues, Untouched, TxShape, Effect;
    EffectNull(tx.log, a, value);
    WriteRun(s.sh, i, tx, tx', op);
    RsetInRange(s.sh, tx);
    assert tx.(pc := Active, end := tx.end, rset := tx.rset, log := tx.log + [op]) == tx';
    LoggedInv(s, i, op, tx.end, tx.rset);
    assert tx.(pc := Active, entries := tx.entries, log := tx.log + [op]) == tx';
  }

  /** Entry k after the write, and the word in the write-through design. */
  ghost predicate Written(sh: Shared, tx: Tx, k: nat, e: WEntry, mem': seq<Word>, value: Word, mask: Word)
    requires k < |tx.entries|
  {
    var a := tx.entries[k].addr;
    && a < |sh.mem|
    && e == tx.entries[k].(value := e.value, mask := e.mask) && e.mask != 0
    && if sh.design.WriteBack? then
         mem' == sh.mem && e.value == Merge(Effect(tx.log, Base(sh, a), a), value, mask)
       else
         mem' == sh.mem[a := Merge(sh.mem[a], value, mask)] && e.value == Base(sh, a)
  }

  lemma WrittenInv(s: State, i: nat, k: nat, e: WEntry, mem': seq<Word>, value: Word, mask: Word)
    requires Inv(s) && i < |s.txs| && k < |s.txs[i].entries| && Quiescent(s.txs[i].pc) && !s.txs[i].pc.RClock?
             && !s.txs[i].pc.RExtend?
    requires !s.txs[i].readOnly && Written(s.sh, s.txs[i], k, e, mem', value, mask)
    ensures var tx := s.txs[i];
            var r := Wrote(s.sh.(mem := mem'), tx, tx.entries[k := e], tx.entries[k].addr, value, mask);
            Inv(State(r.sh, s.txs[i := r.tx]))
  {
    var tx := s.txs[i];
    var a := tx.entries[k].addr;
    var sh' := s.sh.(mem := mem');
    var tx' := Wrote(sh', tx, tx.entries[k := e], a, value, mask).tx;
    TxFacts(s, i);
    SameRole(s, i, tx');
    WrittenWords(s, i, k, e, mem', value, mask);
    WrittenTx(s, i, k, e, mem', value, mask);
    assert EntryHeld(s.sh, i, tx, k);
    PastSame(s.sh, sh');
    hide Inv, TxOk, TxShape, PastOk, OwnWordsOk, RoleKept, EntryHeld, Effect, Base, Merge;
    assert s.sh.(mem := mem', finished := s.sh.finished) == sh';
    KeepInv(s, i, sh', tx');
  }

  lemma WrittenWords(s: State, i: nat, k: nat, e: WEntry, mem': seq<Word>, value: Word, mask: Word)
    requires Inv(s) && i < |s.txs| && k < |s.txs[i].entries| && Quiescent(s.txs[i].pc)
    requires Written(s.sh, s.txs[i], k, e, mem', value, mask)
    ensures var tx := s.txs[i];
            var r := Wrote(s.sh.(mem := mem'), tx, tx.entries[k := e], tx.entries[k].addr, value, mask);
            SharedShape(r.sh) && OwnWordsOk(r.sh, i, r.tx)
  {
    var tx := s.txs[i];
    var a := tx.entries[k].addr;
    var sh' := s.sh.(mem := mem');
    var tx' := Wrote(sh', tx, tx.entries[k := e], a, value, mask).tx;
    assert SharedShape(s.sh);
    hide Inv, OwnerWord, Written;
    forall b | 0 <= b < |sh'.mem| && OwnLock(sh', i, Lk(sh', b))
      ensures sh'.mem[b] == OwnerWord(sh', tx', b)
    {
      assert OwnLock(s.sh, i, Lk(s.sh, b));
      WordFact(s, i, b);
      WrittenWord(s.sh, tx, k, e, mem', value, mask, b);
    }
  }

  lemma WrittenWord(sh: Shared, tx: Tx, k: nat, e: WEntry, mem': seq<Word>, value: Word, mask: Word, b: nat)
    requires SharedShape(sh) && k < |tx.entries| && Quiescent(tx.pc) && Written(sh, tx, k, e, mem', value, mask)
    requires b < |sh.mem| && sh.mem[b] == OwnerWord(sh, tx, b)
    ensures var r := Wrote(sh.(mem := mem'), tx, tx.entries[k := e], tx.entries[k].addr, value, mask);
            mem'[b] == OwnerWord(r.sh, r.tx, b)
  {
    var a := tx.entries[k].addr;
    var r := Wrote(sh.(mem := mem'), tx, tx.entries[k := e], a, value, mask);
    RunningWordIs(sh, tx, b);
    RunningWordIs(r.sh, r.tx, b);
    hide Effect, Base, Merge, ValueAt, OwnerWord;
    if sh.design.WriteThrough? {
      MemBase(sh, mem', b);
      assert mem'[b] == if b == a then Merge(sh.mem[b], value, mask) else sh.mem[b];
      hide Written;
      EffectWrite(tx.log, a, value, mask);
    }
  }

  lemma RunningWordIs(sh: Shared, tx: Tx, b: nat)
    requires SharedShape(sh) && Quiescent(tx.pc)
    ensures OwnerWord(sh, tx, b) == if sh.design.WriteBack? then ValueAt(sh.h, sh.clock, b)
            else Effect(tx.log, Base(sh, b), b)
  {
  }

  lemma MemBase(sh: Shared, mem': seq<Word>, a: nat)
    ensures Base(sh.(mem := mem'), a) == Base(sh, a)
  {
  }

  lemma WrittenTx(s: State, i: nat, k: nat, e: WEntry, mem': seq<Word>, value: Word, mask: Word)
    requires Inv(s) && i < |s.txs| && k < |s.txs[i].entries| && Quiescent(s.txs[i].pc) && !s.txs[i].pc.RClock?
             && !s.txs[i].pc.RExtend?
    requires !s.txs[i].readOnly && Written(s.sh, s.txs[i], k, e, mem', value, mask)
    requires SharedShape(s.sh.(mem := mem'))
    ensures var tx := s.txs[i];
            var r := Wrote(s.sh.(mem := mem'), tx, tx.entries[k := e], tx.entries[k].addr, value, mask);
            TxShape(r.sh, r.tx) && TxOk(r.sh, i, r.tx)
  {
    var tx := s.txs[i];
    var a := tx.entries[k].addr;
    var es' := tx.entries[k := e];
    var sh' := s.sh.(mem := mem');
    var op := Op.Write(a, value, mask);
    var tx' := Wrote(sh', tx, es', a, value, mask).tx;
    TxFacts(s, i);
    assert TxShape(sh', tx');
    SameChains(s.sh.h.lockOf, tx.entries, es');
    WrittenEntries(s, i, k, e, mem', value, mask);
    WrittenUntouched(tx.log, tx.entries, k, e, value, mask);
    hide Inv, LogOk, SnapshotOk, RunOk, ChainsOk, EntriesHeld, EntryValues, Untouched, TxShape, Effect, Base, Merge,
         Written;
    assert OpAgrees(tx.log + [op], |tx.log|) by { assert (tx.log + [op])[|tx.log|] == op; }
    LogOkAppend(tx.log, op, |s.sh.mem|);
    WriteRun(s.sh, i, tx, tx', op);
    MemRun(s.sh, mem', i, tx');
    NoStamp(sh', i, tx');
  }

  lemma MemRun(sh: Shared, mem': seq<Word>, i: nat, tx: Tx)
    requires SharedShape(sh) && SharedShape(sh.(mem := mem')) && RunOk(sh, i, tx) && SnapshotOk(sh, tx)
    ensures RunOk(sh.(mem := mem'), i, tx) && SnapshotOk(sh.(mem := mem'), tx)
  {
    hide Quiet, ReadsHold;
    var sh' := sh.(mem := mem');
    if Running(tx.pc) {
      forall k | 0 <= k < |tx.log|
        ensures OwnRead(sh', i, tx.log[k])
      {
        assert OwnRead(sh, i, tx.log[k]);
      }
      forall j | 0 <= j < |tx.rset|
        ensures ReadBeforeLock(sh', i, tx.rset[j])
      {
        assert ReadBeforeLock(sh, i, tx.rset[j]);
      }
      SourcesShared(sh, sh', tx);
    }
  }

  lemma WrittenUntouched(log: seq<Op>, es: seq<WEntry>, k: nat, e: WEntry, value: Word, mask: Word)
    requires Untouched(log, es) && k < |es| && e.mask != 0 && e.addr == es[k].addr
    ensures Untouched(log + [Op.Write(e.addr, value, mask)], es[k := e])
  {
    EffectWrite(log, e.addr, value, mask);
    hide Effect, Merge;
    var es' := es[k := e];
    forall a: nat, x: Word | !Stored(es', a)
      ensures Effect(log + [Op.Write(e.addr, value, mask)], x, a) == x
    {
      forall j | 0 <= j < |es| && es[j].mask != 0
        ensures es[j].addr != a
      {
        assert es'[j].addr == es[j].addr && es'[j].mask != 0;
      }
      assert es'[k].addr != a;
    }
  }

  lemma WrittenEntries(s: State, i: nat, k: nat, e: WEntry, mem': seq<Word>, value: Word, mask: Word)
    requires Inv(s) && i < |s.txs| && k < |s.txs[i].entries| && Quiescent(s.txs[i].pc)
    requires Written(s.sh, s.txs[i], k, e, mem', value, mask)
    requires var tx := s.txs[i];
             var r := Wrote(s.sh.(mem := mem'), tx, tx.entries[k := e], tx.entries[k].addr, value, mask);
             SharedShape(r.sh) && TxShape(r.sh, r.tx)
    ensures var tx := s.txs[i];
            var r := Wrote(s.sh.(mem := mem'), tx, tx.entries[k := e], tx.entries[k].addr, value, mask);
            EntriesHeld(r.sh, i, r.tx) && EntryValues(r.sh, r.tx)
  {
    var tx := s.txs[i];
    var a := tx.entries[k].addr;
    var es' := tx.entries[k := e];
    var sh' := s.sh.(mem := mem');
    var tx' := Wrote(sh', tx, es', a, value, mask).tx;
    TxFacts(s, i);
    EffectWrite(tx.log, a, value, mask);
    hide Inv, LogOk, SnapshotOk, RunOk, PcOk, StampOk, Untouched, Base, Effect, Merge, NoPending, SetsShape, PcShape;
    forall j | 0 <= j < |es'|
      ensures EntryHeld(sh', i, tx', j)
    {
      assert EntryHeld(s.sh, i, tx, j);
      HeldStill(s.sh, sh', i, tx, tx', j);
    }
    forall j | 0 <= j < |es'|
      ensures EntryValue(sh', tx', j)
    {
      hide EntryHeld, ChainsOk;
      assert EntryValue(s.sh, tx, j);
      MemBase(s.sh, mem', es'[j].addr);
    }
    hide EntryHeld, EntryValue, Written, ChainsOk;
  }

  /** Storing to a word and changing an entry in place leaves the entries where they are. */
  lemma HeldStill(sh: Shared, sh': Shared, i: nat, tx: Tx, tx': Tx, j: nat)
    requires SharedShape(sh) && TxShape(sh, tx) && SharedShape(sh') && TxShape(sh', tx')
    requires j < |tx.entries| && EntryHeld(sh, i, tx, j) && sh' == sh.(mem := sh'.mem) && |sh'.mem| == |sh.mem|
    requires |tx'.entries| == |tx.entries| && Ts(tx'.pc) == Ts(tx.pc) && Pos(tx') == Pos(tx)
    requires forall m :: 0 <= m < |tx.entries| ==>
               tx'.entries[m].addr == tx.entries[m].addr && tx'.entries[m].stamp == tx.entries[m].stamp
    ensures EntryHeld(sh', i, tx', j)
  {
    hide NoPending, SetsShape, PcShape;
    var l := Lk(sh, tx.entries[j].addr);
    forall m | 0 <= m < sh'.locks[l].entry
      ensures !UnderLock(sh.h.lockOf, tx'.entries, m, l)
    {
      assert !UnderLock(sh.h.lockOf, tx.entries, m, l);
    }
  }

  /** The old word is remembered before the first store to it in place. */
  lemma FillInv(s: State, i: nat, k: nat, y: Word, value: Word, mask: Word)
    requires Inv(s) && i < |s.txs| && s.txs[i].pc.WLoad? && s.sh.design.WriteThrough? && !s.txs[i].readOnly && mask != 0
    requires k < |s.txs[i].entries| && s.txs[i].entries[k].mask == 0 && s.txs[i].entries[k].addr < |s.sh.mem|
    requires y == Merge(s.sh.mem[s.txs[i].entries[k].addr], value, mask)
    ensures var tx := s.txs[i];
            var e := tx.entries[k].(value := s.sh.mem[tx.entries[k].addr], mask := mask);
            Inv(State(s.sh, s.txs[i := tx.(pc := WStore(k, y, value, mask), entries := tx.entries[k := e])]))
  {
    var tx := s.txs[i];
    var e := tx.entries[k].(value := s.sh.mem[tx.entries[k].addr], mask := mask);
    var tx' := tx.(pc := WStore(k, y, value, mask), entries := tx.entries[k := e]);
    TxFacts(s, i);
    assert TxShape(s.sh, tx');
    SameRole(s, i, tx');
    SameOwnWords(s, i, tx');
    SameChains(s.sh.h.lockOf, tx.entries, tx'.entries);
    FillEntries(s, i, k, e, tx');
    FillUntouched(tx.log, tx.entries, k, e);
    assert PastOk(s.sh);
    hide Inv, LogOk, SnapshotOk, ChainsOk, PastOk, OwnWordsOk, RoleKept, EntriesHeld, EntryValues, Untouched, Merge,
         SetsShape;
    assert RunOk(s.sh, i,
                 tx') by { RunEntries(s.sh, i, tx, tx'.entries); RunPc(s.sh, i, Between(tx, tx'.entries), tx'.pc); }
    NoStamp(s.sh, i, tx');
    SnapshotPc(s.sh, tx, tx'.pc);
    SnapshotEntries(s.sh, tx.(pc := tx'.pc), tx');
    assert s.sh.(mem := s.sh.mem, finished := s.sh.finished) == s.sh;
    KeepInv(s, i, s.sh, tx');
  }

  lemma SnapshotEntries(sh: Shared, tx: Tx, tx': Tx)
    requires SharedShape(sh) && SnapshotOk(sh, tx) && tx'.log == tx.log && tx'.start == tx.start && tx'.end == tx.end
    ensures SnapshotOk(sh, tx')
  {
  }

  lemma FillUntouched(log: seq<Op>, es: seq<WEntry>, k: nat, e: WEntry)
    requires Untouched(log, es) && k < |es| && e.mask != 0 && e.addr == es[k].addr
    ensures Untouched(log, es[k := e])
  {
    hide Effect;
    var es' := es[k := e];
    forall a: nat, x: Word | !Stored(es', a)
      ensures Effect(log, x, a) == x
    {
      forall j | 0 <= j < |es| && es[j].mask != 0
        ensures es[j].addr != a
      {
        assert es'[j].addr == es[j].addr && es'[j].mask != 0;
      }
    }
  }

  lemma FillEntries(s: State, i: nat, k: nat, e: WEntry, tx': Tx)
    requires Inv(s) && i < |s.txs| && s.txs[i].pc.WLoad? && s.sh.design.WriteThrough?
    requires k < |s.txs[i].entries| && s.txs[i].entries[k].mask == 0 && s.txs[i].entries[k].addr < |s.sh.mem|
    requires e == s.txs[i].entries[k].(value := s.sh.mem[s.txs[i].entries[k].addr], mask := e.mask)
    requires tx' == s.txs[i].(pc := tx'.pc, entries := s.txs[i].entries[k := e]) && tx'.pc.WStore? && TxShape(s.sh, tx')
    ensures EntriesHeld(s.sh, i, tx') && EntryValues(s.sh, tx')
  {
    var tx := s.txs[i];
    var a := tx.entries[k].addr;
    TxFacts(s, i);
    assert EntryHeld(s.sh, i, tx, k);
    RunningWord(s, i, a);
    OneEntry(s.sh.h.lockOf, tx.entries, k);
    NotStored(tx.log, tx.entries, Base(s.sh, a), a);
    hide Inv, LogOk, SnapshotOk, RunOk, PcOk, StampOk, ChainsOk, Untouched, Base, Effect, NoPending, SetsShape,
         PcShape, Stored;
    forall j | 0 <= j < |tx'.entries|
      ensures EntryHeld(s.sh, i, tx', j) && EntryValue(s.sh, tx', j)
    {
      assert EntryHeld(s.sh, i, tx, j) && EntryValue(s.sh, tx, j);
      forall m | 0 <= m < s.sh.locks[Lk(s.sh, tx.entries[j].addr)].entry
        ensures !UnderLock(s.sh.h.lockOf, tx'.entries, m, Lk(s.sh, tx.entries[j].addr))
      {
        assert !UnderLock(s.sh.h.lockOf, tx.entries, m, Lk(s.sh, tx.entries[j].addr));
      }
    }
  }

  // ---- the steps ----

  predicate Writable(sh: Shared, tx: Tx, k: nat, mask: Word) {
    && !tx.readOnly && k < |tx.entries| && (sh.design.WriteThrough? ==> mask != 0)
    && (tx.pc.Active? || tx.pc.WLoadLock?)
  }

  /** In the write-back design a write ends in the entry. */
  lemma PutInv(s: State, i: nat, k: nat, y: Word, m: Word, value: Word, mask: Word)
    requires Inv(s) && i < |s.txs| && s.sh.design.WriteBack? && k < |s.txs[i].entries| && !s.txs[i].readOnly && m != 0
    requires s.txs[i].pc.Active? || s.txs[i].pc.WLoadLock? || s.txs[i].pc.WLoad?
    requires var a := s.txs[i].entries[k].addr; y == Merge(Effect(s.txs[i].log, Base(s.sh, a), a), value, mask)
    ensures var tx := s.txs[i];
            var e := tx.entries[k].(value := y, mask := m);
            Inv(State(s.sh, s.txs[i := Wrote(s.sh, tx, tx.entries[k := e], e.addr, value, mask).tx]))
  {
    var tx := s.txs[i];
    TxFacts(s, i);
    EntryIndex(s.sh, tx, k);
    hide Inv, TxOk, TxShape, Base, Effect, Merge;
    assert s.sh.(mem := s.sh.mem) == s.sh;
    WrittenInv(s, i, k, tx.entries[k].(value := y, mask := m), s.sh.mem, value, mask);
  }

  lemma WriteBackNowInv(s: State, i: nat, k: nat, value: Word, mask: Word)
    requires Inv(s) && i < |s.txs| && Writable(s.sh, s.txs[i], k, mask) && s.sh.design.WriteBack?
    requires mask == 0 || mask == ALL_BITS || s.txs[i].entries[k].mask != 0
    ensures var r := WriteEntry(s.sh, s.txs[i], s.txs[i].entries, k, value, mask);
            Inv(State(r.sh, s.txs[i := r.tx]))
  {
    var tx := s.txs[i];
    var e := tx.entries[k];
    EntryFact(s, i, k);
    hide Inv, Base, Effect, Merge, Join;
    if mask == 0 {
      NullInv(s, i, e.addr, value);
    } else if mask == ALL_BITS {
      MergeAll(Effect(tx.log, Base(s.sh, e.addr), e.addr), value);
      PutInv(s, i, k, value, ALL_BITS, value, mask);
    } else {
      MaskGrows(e.mask, mask);
      PutInv(s, i, k, Merge(e.value, value, mask), Join(e.mask, mask), value, mask);
    }
  }

  lemma WriteLaterInv(s: State, i: nat, k: nat, value: Word, mask: Word)
    requires Inv(s) && i < |s.txs| && Writable(s.sh, s.txs[i], k, mask) && mask != 0
    requires s.txs[i].entries[k].mask == 0 || s.sh.design.WriteThrough?
    ensures Inv(State(s.sh, s.txs[i := s.txs[i].(pc := WLoad(k, value, mask), entries := s.txs[i].entries)]))
  {
    var tx := s.txs[i];
    TxFacts(s, i);
    hide Inv, LogOk, SnapshotOk, RunOk, StampOk, ChainsOk, EntriesHeld, EntryValues, Untouched, SetsShape;
    QuietInv(s, i, WLoad(k, value, mask));
    assert tx.(pc := WLoad(k, value, mask), entries := tx.entries) == tx.(pc := WLoad(k, value, mask));
  }

  lemma WriteThroughNowInv(s: State, i: nat, k: nat, value: Word)
    requires Inv(s) && i < |s.txs| && Writable(s.sh, s.txs[i], k, ALL_BITS) && s.sh.design.WriteThrough?
    requires s.txs[i].entries[k].mask != 0
    ensures Inv(State(s.sh,
                      s.txs[i := s.txs[i].(pc := WStore(k, value, value, ALL_BITS), entries := s.txs[i].entries)]))
  {
    var tx := s.txs[i];
    TxFacts(s, i);
    EntryIndex(s.sh, tx, k);
    MergeAll(s.sh.mem[tx.entries[k].addr], value);
    hide Inv, LogOk, SnapshotOk, RunOk, StampOk, ChainsOk, EntriesHeld, EntryValues, Untouched, Merge, SetsShape;
    QuietInv(s, i, WStore(k, value, value, ALL_BITS));
    assert tx.(pc := WStore(k, value, value, ALL_BITS), entries := tx.entries)
           == tx.(pc := WStore(k, value, value, ALL_BITS));
  }

  lemma WriteEntryInv(s: State, i: nat, k: nat, value: Word, mask: Word)
    requires Inv(s) && i < |s.txs| && Writable(s.sh, s.txs[i], k, mask)
    ensures var r := WriteEntry(s.sh, s.txs[i], s.txs[i].entries, k, value, mask);
            Inv(State(r.sh, s.txs[i := r.tx]))
  {
    hide Inv, Wrote, Merge;
    var e := s.txs[i].entries[k];
    if s.sh.design.WriteBack? && (mask == 0 || mask == ALL_BITS || e.mask != 0) {
      WriteBackNowInv(s, i, k, value, mask);
    } else if s.sh.design.WriteThrough? && e.mask != 0 && mask == ALL_BITS {
      WriteThroughNowInv(s, i, k, value);
    } else {
      WriteLaterInv(s, i, k, value, mask);
    }
  }

  /** Preparing the entry and writing to it are one step. */
  lemma WriteEntryBetween(sh: Shared, txs: seq<Tx>, i: nat, es: seq<WEntry>, k: nat, value: Word, mask: Word)
    requires i < |txs| && k < |es|
    ensures var tx' := Between(txs[i], es);
            WriteEntry(sh, txs[i], es, k, value, mask) == WriteEntry(sh, tx', es, k, value, mask)
            && txs[i := tx'][i := WriteEntry(sh, tx', es, k, value, mask).tx]
                 == txs[i := WriteEntry(sh, tx', es, k, value, mask).tx]
  {
    hide Merge;
  }

  lemma WriteOwnInv(s: State, i: nat, c: Command)
    requires Inv(s) && i < |s.txs| && s.txs[i].pc.WLoadLock? && s.txs[i].pc.a < |s.sh.mem|
             && OwnLock(s.sh, i, Lk(s.sh, s.txs[i].pc.a))
    ensures Inv(Next(s, i, c))
  {
    var tx := s.txs[i];
    var WLoadLock(a, value, mask) := tx.pc;
    var e := s.sh.locks[Lk(s.sh, a)].entry;
    TxFacts(s, i);
    OwnChain(s, i, a);
    hide TxsOk, OwnersOk, PendingOk, VersionsOk, MemoryOk, PastOk, LogOk, SnapshotOk, RunOk, StampOk, ChainsOk,
         EntriesHeld, EntryValues, Untouched, SetsShape, WriteEntry, Linked, Rollback, ChainFind, ChainLast, Wrote,
         Overflow;
    if mask == 0 {
      NullInv(s, i, a, value);
    } else {
      var k := ChainFind(tx.entries, e, a);
      if k < |tx.entries| {
        WriteEntryInv(s, i, k, value, mask);
      } else if |tx.entries| == tx.size {
        OverflowInv(s, i);
      } else {
        LinkInv(s, i, a);
        var es' := Linked(tx.entries, ChainLast(tx.entries, e), a);
        var s1 := State(s.sh, s.txs[i := Between(tx, es')]);
        LinkedLength(tx.entries, ChainLast(tx.entries, e), a);
        WriteEntryInv(s1, i, |tx.entries|, value, mask);
        WriteEntryBetween(s.sh, s.txs, i, es', |tx.entries|, value, mask);
      }
    }
  }

  lemma LinkedLength(es: seq<WEntry>, last: nat, a: nat)
    requires last < |es|
    ensures |Linked(es, last, a)| == |es| + 1
  {
  }

  /** The word's lock is free. */
  lemma WriteFreeInv(s: State, i: nat, v: Stamp)
    requires Inv(s) && i < |s.txs| && s.txs[i].pc.WLoadLock? && SharedShape(s.sh) && TxShape(s.sh, s.txs[i])
    requires s.sh.locks[Lk(s.sh, s.txs[i].pc.a)] == Free(v)
    ensures var r := StepWrite(s.sh, i, s.txs[i]); Inv(State(r.sh, s.txs[i := r.tx]))
  {
    var tx := s.txs[i];
    var WLoadLock(a, value, mask) := tx.pc;
    TxFacts(s, i);
    hide TxsOk, OwnersOk, PendingOk, VersionsOk, MemoryOk, PastOk, LogOk, SnapshotOk, RunOk, StampOk, ChainsOk,
         EntriesHeld, EntryValues, Untouched, SetsShape, Rollback, HasRead, Overflow;
    if v.version > tx.end && HasRead(tx.rset, Lk(s.sh, a)) {
      RollbackInv(s, i);
    } else if |tx.entries| == tx.size {
      OverflowInv(s, i);
    } else {
      QuietInv(s, i, WCas(a, value, mask, v));
    }
  }

  lemma WriteInv(s: State, i: nat, c: Command)
    requires Inv(s) && i < |s.txs| && s.txs[i].pc.WLoadLock?
    ensures Inv(Next(s, i, c))
  {
    var tx := s.txs[i];
    var WLoadLock(a, value, mask) := tx.pc;
    TxFacts(s, i);
    hide TxsOk, OwnersOk, PendingOk, VersionsOk, MemoryOk, PastOk, LogOk, SnapshotOk, RunOk, StampOk, ChainsOk,
         EntriesHeld, EntryValues, Untouched, SetsShape, WriteEntry, Linked, Rollback, ChainFind, ChainLast, Wrote,
         HasRead, Overflow;
    match s.sh.locks[Lk(s.sh, a)] {
      case Held(o, e) =>
        if o != i || e >= |tx.entries| {
          RollbackInv(s, i);
        } else {
          WriteOwnInv(s, i, c);
        }
      case Free(v) =>
        WriteFreeInv(s, i, v);
    }
  }

  lemma CasInv(s: State, i: nat, c: Command)
    requires Inv(s) && i < |s.txs| && s.txs[i].pc.WCas?
    ensures Inv(Next(s, i, c))
  {
    var tx := s.txs[i];
    var WCas(a, value, mask, v) := tx.pc;
    TxFacts(s, i);
    hide TxsOk, OwnersOk, PendingOk, VersionsOk, MemoryOk, PastOk, LogOk, SnapshotOk, RunOk, StampOk, ChainsOk,
         EntriesHeld, EntryValues, Untouched, SetsShape, WriteEntry, HasRead;
    if s.sh.locks[Lk(s.sh, a)] != Free(v) {
      QuietInv(s, i, WLoadLock(a, value, mask));
    } else {
      TakenInv(s, i);
      var es' := Acquired(tx.entries, a, v);
      var s1 := State(Taken(s, i), s.txs[i := Between(tx, es')]);
      WriteEntryInv(s1, i, |tx.entries|, value, mask);
      WriteEntryBetween(s1.sh, s.txs, i, es', |tx.entries|, value, mask);
    }
  }

  /** A word whose entry is still empty is as it was when its lock was taken. */
  lemma EmptyEntryWord(s: State, i: nat, k: nat)
    requires Inv(s) && i < |s.txs| && Quiescent(s.txs[i].pc) && s.sh.design.WriteBack?
    requires k < |s.txs[i].entries| && s.txs[i].entries[k].mask == 0 && s.txs[i].entries[k].addr < |s.sh.mem|
    ensures var a := s.txs[i].entries[k].addr; s.sh.mem[a] == Effect(s.txs[i].log, Base(s.sh, a), a)
  {
    var tx := s.txs[i];
    var a := tx.entries[k].addr;
    TxFacts(s, i);
    assert EntryHeld(s.sh, i, tx, k);
    RunningWord(s, i, a);
    OneEntry(s.sh.h.lockOf, tx.entries, k);
    NotStored(tx.log, tx.entries, Base(s.sh, a), a);
  }

  lemma WLoadBackInv(s: State, i: nat, c: Command)
    requires Inv(s) && i < |s.txs| && s.txs[i].pc.WLoad? && s.sh.design.WriteBack?
    ensures Inv(Next(s, i, c))
  {
    var tx := s.txs[i];
    var WLoad(k, value, mask) := tx.pc;
    WLoadFacts(s, i);
    var e := tx.entries[k];
    hide TxsOk, OwnersOk, PendingOk, VersionsOk, MemoryOk, PastOk, Base, Effect, Merge, Join, SetsShape;
    EmptyEntryWord(s, i, k);
    MergeAll(s.sh.mem[e.addr], value);
    MaskGrows(e.mask, mask);
    var y := if mask != ALL_BITS then Merge(s.sh.mem[e.addr], value, mask) else value;
    PutInv(s, i, k, y, Join(e.mask, mask), value, mask);
  }

  lemma WLoadFacts(s: State, i: nat)
    requires Inv(s) && i < |s.txs| && s.txs[i].pc.WLoad?
    ensures var k := s.txs[i].pc.k;
            && k < |s.txs[i].entries| && s.txs[i].entries[k].addr < |s.sh.mem| && s.txs[i].pc.mask != 0
                 && !s.txs[i].readOnly
            && (s.sh.design.WriteBack? ==> s.txs[i].entries[k].mask == 0)
  {
    TxFacts(s, i);
  }

  lemma WLoadThroughInv(s: State, i: nat, c: Command)
    requires Inv(s) && i < |s.txs| && s.txs[i].pc.WLoad? && s.sh.design.WriteThrough?
    ensures Inv(Next(s, i, c))
  {
    var tx := s.txs[i];
    var WLoad(k, value, mask) := tx.pc;
    TxFacts(s, i);
    var e := tx.entries[k];
    EntryIndex(s.sh, tx, k);
    MergeAll(s.sh.mem[e.addr], value);
    hide TxsOk, OwnersOk, PendingOk, VersionsOk, MemoryOk, PastOk, LogOk, SnapshotOk, RunOk, StampOk, ChainsOk,
         EntriesHeld, EntryValues, Untouched, SetsShape, Merge;
    var y := if mask != ALL_BITS then Merge(s.sh.mem[e.addr], value, mask) else value;
    if e.mask == 0 {
      FillInv(s, i, k, y, value, mask);
    } else {
      QuietInv(s, i, WStore(k, y, value, mask));
      assert tx.(pc := WStore(k, y, value, mask), entries := tx.entries) == tx.(pc := WStore(k, y, value, mask));
    }
  }

  lemma WStoreInv(s: State, i: nat, c: Command)
    requires Inv(s) && i < |s.txs| && s.txs[i].pc.WStore?
    ensures Inv(Next(s, i, c))
  {
    var tx := s.txs[i];
    var WStore(k, y, value, mask) := tx.pc;
    TxFacts(s, i);
    EntryIndex(s.sh, tx, k);
    ValueFact(s.sh, tx, k);
    hide TxsOk, OwnersOk, PendingOk, VersionsOk, MemoryOk, PastOk, LogOk, SnapshotOk, RunOk, StampOk, ChainsOk,
         EntriesHeld, EntryValues, Untouched, SetsShape, Merge, Base, Effect;
    var a := tx.entries[k].addr;
    WrittenInv(s, i, k, tx.entries[k], s.sh.mem[a := y], value, mask);
    assert tx.entries[k := tx.entries[k]] == tx.entries;
  }
}
