/** Step by step: writing back, releasing the locks, and undoing. */
module EtlRelease {
  import opened CommitHistory
  import opened EtlMachine
  import opened EtlInvariant
  import opened EtlProof
  import opened EtlFrame
  import opened EtlChains
  import opened EtlSteps
  import opened EtlCommit

  predicate Ending(pc: Pc) {
    Writing(pc) || Undoing(pc)
  }

  /** Done with entry k, which is not the last under its lock: a later entry still covers the lock. */
  lemma NextCovers(s: State, i: nat, k: nat, tx': Tx)
    requires Inv(s) && i < |s.txs| && Ending(s.txs[i].pc) && Pos(s.txs[i]) == k < |s.txs[i].entries|
             && s.txs[i].entries[k].next != 0
    requires tx'.entries == s.txs[i].entries && Pos(tx') == k + 1 && Ts(tx'.pc) == Ts(s.txs[i].pc)
    ensures RoleKept(s.sh, i, s.txs[i], tx')
  {
    var tx := s.txs[i];
    TxFacts(s, i);
    assert ChainOk(s.sh.h.lockOf, tx.entries, k);
    hide Inv, Pos, Ts, ChainOk;
    forall l {:trigger OwnLock(s.sh, i, l)} | 0 <= l < |s.sh.locks| && OwnLock(s.sh, i, l)
      ensures CoversFrom(s.sh.h.lockOf, tx'.entries, Pos(tx'), l)
    {
      HeldCovers(s, i, l);
      var j :| k <= j < |tx.entries| && UnderLock(s.sh.h.lockOf, tx.entries, j, l);
      if j == k {
        assert UnderLock(s.sh.h.lockOf, tx.entries, tx.entries[k].next, l);
      }
    }
  }

  /** Done with the last entry under a lock: the other locks are covered by later entries. */
  lemma OthersCovered(s: State, i: nat, k: nat, tx': Tx)
    requires Inv(s) && i < |s.txs| && Ending(s.txs[i].pc) && Pos(s.txs[i]) == k < |s.txs[i].entries|
    requires tx'.entries == s.txs[i].entries && Pos(tx') == k + 1
    ensures forall l {:trigger OwnLock(s.sh, i, l)} ::
              0 <= l < |s.sh.locks| && OwnLock(s.sh, i, l) && l != Lk(s.sh, s.txs[i].entries[k].addr)
              ==> CoversFrom(s.sh.h.lockOf, tx'.entries, Pos(tx'), l)
  {
    var tx := s.txs[i];
    hide Inv, Pos;
    forall l {:trigger OwnLock(s.sh, i, l)} | 0 <= l < |s.sh.locks| && OwnLock(s.sh, i,
                                                                               l) && l != Lk(s.sh, tx.entries[k].addr)
      ensures CoversFrom(s.sh.h.lockOf, tx'.entries, Pos(tx'), l)
    {
      HeldCovers(s, i, l);
      var j :| k <= j < |tx.entries| && UnderLock(s.sh.h.lockOf, tx.entries, j, l);
      assert j != k;
    }
  }

  /** The last entry under a lock has no others under the same lock behind it. */
  lemma LastUnderLock(s: State, i: nat, k: nat)
    requires Inv(s) && i < |s.txs| && k < |s.txs[i].entries| && s.txs[i].entries[k].next == 0
    ensures forall j :: k < j < |s.txs[i].entries| ==>
            Lk(s.sh, s.txs[i].entries[j].addr) != Lk(s.sh, s.txs[i].entries[k].addr)
  {
    TxFacts(s, i);
    var tx := s.txs[i];
    assert ChainOk(s.sh.h.lockOf, tx.entries, k);
    hide Inv;
    forall j | k < j < |tx.entries|
      ensures Lk(s.sh, tx.entries[j].addr) != Lk(s.sh, tx.entries[k].addr)
    {
      assert !UnderLock(s.sh.h.lockOf, tx.entries, j, Lk(s.sh, tx.entries[k].addr));
    }
  }

  lemma HeldNow(s: State, i: nat, k: nat)
    requires Inv(s) && i < |s.txs| && Pos(s.txs[i]) <= k < |s.txs[i].entries|
    ensures TxShape(s.sh, s.txs[i]) && s.txs[i].entries[k].addr < |s.sh.mem|
    ensures Lk(s.sh, s.txs[i].entries[k].addr) < |s.sh.locks| && OwnLock(s.sh, i, Lk(s.sh, s.txs[i].entries[k].addr))
    ensures EntryHeld(s.sh, i, s.txs[i], k)
  {
    TxFacts(s, i);
    EntryIndex(s.sh, s.txs[i], k);
    assert EntryHeld(s.sh, i, s.txs[i], k);
  }

  /** The loop over the entries is at its end: no lock is left. */
  lemma EndInv(s: State, i: nat)
    requires Inv(s) && i < |s.txs| && Ending(s.txs[i].pc) && Pos(s.txs[i]) == |s.txs[i].entries|
    ensures Inv(State(s.sh, s.txs[i := s.txs[i].(pc := Idle)]))
  {
    var tx := s.txs[i];
    var tx' := tx.(pc := Idle);
    TxFacts(s, i);
    forall l | 0 <= l < |s.sh.locks|
      ensures !OwnLock(s.sh, i, l)
    {
      if OwnLock(s.sh, i, l) { HeldCovers(s, i, l); }
    }
    assert PastOk(s.sh);
    hide Inv, LogOk, ReadsHold, ChainsOk, Untouched, PastOk, SetsShape;
    assert s.sh.(mem := s.sh.mem, finished := s.sh.finished) == s.sh;
    KeepInv(s, i, s.sh, tx');
  }

  /** The clauses about the thread after a step of one of the two loops over its entries. */
  lemma LoopTx(s: State, i: nat, sh': Shared, pc': Pc)
    requires Inv(s) && i < |s.txs| && Ending(s.txs[i].pc) && Ending(pc') && Writing(pc') == Writing(s.txs[i].pc)
    requires SharedShape(sh') && TxShape(sh', s.txs[i].(pc := pc'))
    requires sh' == s.sh.(mem := sh'.mem, locks := sh'.locks, vers := sh'.vers) && |sh'.mem| == |s.sh.mem|
    requires Ts(pc') == Ts(s.txs[i].pc)
    requires EntriesHeld(sh', i, s.txs[i].(pc := pc')) && EntryValues(sh', s.txs[i].(pc := pc'))
    requires Undoing(pc') ==> LaterThanLocks(s.txs[i].(pc := pc'), pc'.t)
    ensures TxOk(sh', i, s.txs[i].(pc := pc'))
  {
    var tx := s.txs[i];
    TxFacts(s, i);
    hide Inv, LogOk, ReadsHold, ChainsOk, EntriesHeld, EntryValues, Untouched, EffectOk, OwnReadsAt, TxShape,
         LaterThanLocks, Pos;
    assert s.sh.design.WriteBack? ==> Updates(sh', tx.entries) == Updates(s.sh, tx.entries);
  }

  lemma KeptEntries(sh: Shared, mem': seq<Word>, i: nat, tx: Tx, pc': Pc)
    requires SharedShape(sh) && TxShape(sh, tx) && SharedShape(sh.(mem := mem'))
             && TxShape(sh.(mem := mem'), tx.(pc := pc'))
    requires EntriesHeld(sh, i, tx) && EntryValues(sh, tx) && Pos(tx) <= Pos(tx.(pc := pc'))
    requires Ts(pc') == Ts(tx.pc) && Writing(pc') == Writing(tx.pc)
    ensures EntriesHeld(sh.(mem := mem'), i, tx.(pc := pc')) && EntryValues(sh.(mem := mem'), tx.(pc := pc'))
  {
    hide SetsShape, PcShape, Effect, Pos, NoPending, ValueAt;
    var sh' := sh.(mem := mem');
    var tx' := tx.(pc := pc');
    forall k | Pos(tx') <= k < |tx.entries|
      ensures EntryHeld(sh', i, tx', k)
      ensures !Writing(pc') ==> EntryValue(sh', tx', k)
    {
      assert EntryHeld(sh, i, tx, k);
      assert !Writing(tx.pc) ==> EntryValue(sh, tx, k);
    }
  }

  /** A loop goes on without releasing a lock; it may have stored to the word of its entry. */
  lemma LoopInv(s: State, i: nat, mem': seq<Word>, pc': Pc)
    requires Inv(s) && i < |s.txs| && Ending(s.txs[i].pc) && Ending(pc') && Writing(pc') == Writing(s.txs[i].pc)
    requires Ts(pc') == Ts(s.txs[i].pc) && Pos(s.txs[i]) <= Pos(s.txs[i].(pc := pc'))
    requires SharedShape(s.sh.(mem := mem')) && OwnWords(s.sh, i, mem')
    requires var tx' := s.txs[i].(pc := pc');
             && TxShape(s.sh, s.txs[i]) && TxShape(s.sh.(mem := mem'), tx') && RoleKept(s.sh, i, s.txs[i], tx')
             && OwnWordsOk(s.sh.(mem := mem'), i, tx')
             && (Undoing(pc') ==> LaterThanLocks(tx', pc'.t))
    ensures Inv(State(s.sh.(mem := mem'), s.txs[i := s.txs[i].(pc := pc')]))
  {
    var tx' := s.txs[i].(pc := pc');
    var sh' := s.sh.(mem := mem');
    TxFacts(s, i);
    KeptEntries(s.sh, mem', i, s.txs[i], pc');
    LoopTx(s, i, sh', pc');
    PastSame(s.sh, sh');
    hide Inv, TxOk, PastOk, TxShape, OwnWordsOk, OwnWords, RoleKept, Pos, Ts, LaterThanLocks;
    assert s.sh.(mem := mem', finished := s.sh.finished) == sh';
    KeepInv(s, i, sh', tx');
  }

  // ---- install ----

  lemma ApplyNext(us: seq<Update>, k: nat, x: Word, a: nat)
    requires k < |us|
    ensures Apply(us[..k + 1], x, a)
         == if us[k].addr == a then Merge(Apply(us[..k], x, a), us[k].value, us[k].mask) else Apply(us[..k], x, a)
  {
    hide Merge;
    assert us[..k + 1][..k] == us[..k];
  }

  /** What the thread has recorded under its timestamp. */
  lemma Recorded(s: State, i: nat)
    requires Inv(s) && i < |s.txs| && Writing(s.txs[i].pc)
    ensures var t := Ts(s.txs[i].pc);
            && 0 < t <= s.sh.clock && s.sh.h.commits[t - 1].status.Committed?
            && SameAddresses(s.sh.h.commits[t - 1].writes, s.txs[i].entries)
            && (s.sh.design.WriteBack? ==> s.sh.h.commits[t - 1].writes == Updates(s.sh, s.txs[i].entries))
  {
    TxFacts(s, i);
    StampBound(s, i);
    hide Inv, LogOk, SnapshotOk, RunOk, PcOk, ChainsOk, EntriesHeld, EntryValues, Untouched, EffectOk, OwnReadsAt;
  }

  /** The word after entry k has been written back, or skipped because its mask is empty. */
  function Installed(s: State, i: nat, k: nat): seq<Word>
    requires i < |s.txs| && k < |s.txs[i].entries| && s.txs[i].entries[k].addr < |s.sh.mem|
  {
    var e := s.txs[i].entries[k];
    if s.sh.design.WriteBack? && e.mask != 0 then s.sh.mem[e.addr := e.value] else s.sh.mem
  }

  lemma InstalledWords(s: State, i: nat, k: nat)
    requires Inv(s) && i < |s.txs| && s.txs[i].pc.Install? && s.txs[i].pc.k == k < |s.txs[i].entries|
    requires s.txs[i].entries[k].addr < |s.sh.mem| && SharedShape(s.sh.(mem := Installed(s, i, k)))
    ensures OwnWordsOk(s.sh.(mem := Installed(s, i, k)), i, s.txs[i].(pc := Release(s.txs[i].pc.t, k)))
  {
    var tx := s.txs[i];
    var sh' := s.sh.(mem := Installed(s, i, k));
    var tx' := tx.(pc := Release(tx.pc.t, k));
    Recorded(s, i);
    assert SharedShape(s.sh);
    hide Inv, OwnerWord;
    forall b | 0 <= b < |sh'.mem| && OwnLock(sh', i, Lk(sh', b))
      ensures sh'.mem[b] == OwnerWord(sh', tx', b)
    {
      assert OwnLock(s.sh, i, Lk(s.sh, b));
      WordFact(s, i, b);
      InstalledWord(s, i, k, b);
    }
  }

  lemma InstalledWord(s: State, i: nat, k: nat, b: nat)
    requires i < |s.txs| && s.txs[i].pc.Install? && s.txs[i].pc.k == k < |s.txs[i].entries| && SharedShape(s.sh)
    requires s.txs[i].entries[k].addr < |s.sh.mem| && SharedShape(s.sh.(mem := Installed(s, i, k))) && b < |s.sh.mem|
    requires var t := s.txs[i].pc.t;
             && 0 < t <= s.sh.clock && SameAddresses(s.sh.h.commits[t - 1].writes, s.txs[i].entries)
             && (s.sh.design.WriteBack? ==> s.sh.h.commits[t - 1].writes == Updates(s.sh, s.txs[i].entries))
    requires s.sh.mem[b] == OwnerWord(s.sh, s.txs[i], b)
    ensures Installed(s, i, k)[b]
            == OwnerWord(s.sh.(mem := Installed(s, i, k)), s.txs[i].(pc := Release(s.txs[i].pc.t, k)), b)
  {
    var tx := s.txs[i];
    var t := tx.pc.t;
    hide ValueAt, Apply, Effect, Base, Merge, Updates, OwnerWord;
    WriterWord(s.sh, tx, b);
    WriterWord(s.sh.(mem := Installed(s, i, k)), tx.(pc := Release(t, k)), b);
    if s.sh.design.WriteBack? {
      InstalledBack(s, i, k, b);
    }
  }

  /** What a word is to hold while its owner is writing back. */
  lemma WriterWord(sh: Shared, tx: Tx, a: nat)
    requires SharedShape(sh) && Writing(tx.pc) && 0 < Ts(tx.pc) <= sh.clock
    requires Done(tx.pc) <= |sh.h.commits[Ts(tx.pc) - 1].writes|
    ensures OwnerWord(sh, tx, a)
         == if sh.design.WriteBack?
             then Apply(sh.h.commits[Ts(tx.pc) - 1].writes[..Done(tx.pc)], ValueAt(sh.h, Ts(tx.pc) - 1, a), a)
            else ValueAt(sh.h, sh.clock, a)
  {
  }

  lemma InstalledBack(s: State, i: nat, k: nat, b: nat)
    requires i < |s.txs| && s.txs[i].pc.Install? && s.txs[i].pc.k == k < |s.txs[i].entries| && SharedShape(s.sh)
             && s.sh.design.WriteBack?
    requires s.txs[i].entries[k].addr < |s.sh.mem| && b < |s.sh.mem| && 0 < s.txs[i].pc.t <= s.sh.clock
    requires s.sh.h.commits[s.txs[i].pc.t - 1].writes == Updates(s.sh, s.txs[i].entries)
    requires var t := s.txs[i].pc.t;
             s.sh.mem[b] == Apply(s.sh.h.commits[t - 1].writes[..k], ValueAt(s.sh.h, t - 1, b), b)
    ensures var t := s.txs[i].pc.t;
            Installed(s, i, k)[b] == Apply(s.sh.h.commits[t - 1].writes[..k + 1], ValueAt(s.sh.h, t - 1, b), b)
  {
    var us := Updates(s.sh, s.txs[i].entries);
    ApplyNext(us, k, ValueAt(s.sh.h, s.txs[i].pc.t - 1, b), b);
    MergeAll(s.sh.mem[b], us[k].value);
    MergeNone(s.sh.mem[b], us[k].value);
    hide ValueAt, Apply, Merge;
  }

  lemma InstallInv(s: State, i: nat, c: Command)
    requires Inv(s) && i < |s.txs| && s.txs[i].pc.Install?
    ensures Inv(Next(s, i, c))
  {
    var tx := s.txs[i];
    var Install(t, k) := tx.pc;
    TxFacts(s, i);
    if k == |tx.entries| {
      hide Inv;
      EndInv(s, i);
    } else {
      HeldNow(s, i, k);
      assert SharedShape(s.sh);
      var mem' := Installed(s, i, k);
      InstalledWords(s, i, k);
      SameRole(s, i, tx.(pc := Release(t, k)));
      hide Inv, OwnWordsOk, RoleKept, EntryHeld;
      LoopInv(s, i, mem', Release(t, k));
      assert s.sh.(mem := s.sh.mem) == s.sh;
    }
  }

  // ---- release ----

  /** Nothing has been committed under a lock since its owner committed. */
  lemma SinceCommit(s: State, i: nat, k: nat, b: nat)
    requires Inv(s) && i < |s.txs| && Writing(s.txs[i].pc) && Pos(s.txs[i]) <= k < |s.txs[i].entries|
    requires Lk(s.sh, b) == Lk(s.sh, s.txs[i].entries[k].addr)
    ensures 0 < Ts(s.txs[i].pc) <= s.sh.clock
    ensures ValueAt(s.sh.h, Ts(s.txs[i].pc), b) == ValueAt(s.sh.h, s.sh.clock, b)
  {
    HeldNow(s, i, k);
    Recorded(s, i);
    hide TxsOk, OwnersOk, PendingOk, MemoryOk, PastOk, ValueAt, NoPending, Touches;
    ValueQuiet(s.sh.h, Ts(s.txs[i].pc), s.sh.clock, b);
  }

  /** At its release a lock uncovers words that are completely written. */
  lemma ReleasedWord(s: State, i: nat, b: nat)
    requires Inv(s) && i < |s.txs| && s.txs[i].pc.Release? && s.txs[i].pc.k < |s.txs[i].entries|
    requires s.txs[i].entries[s.txs[i].pc.k].next == 0 && b < |s.sh.mem|
    requires Lk(s.sh, b) == Lk(s.sh, s.txs[i].entries[s.txs[i].pc.k].addr)
    ensures s.sh.mem[b] == ValueAt(s.sh.h, s.sh.clock, b)
  {
    var tx := s.txs[i];
    var Release(t, k) := tx.pc;
    HeldNow(s, i, k);
    WordFact(s, i, b);
    Recorded(s, i);
    assert SharedShape(s.sh);
    hide Inv, EntryHeld, Apply, OwnerWord, Updates;
    WriterWord(s.sh, tx, b);
    if s.sh.design.WriteBack? {
      LastUnderLock(s, i, k);
      SinceCommit(s, i, k, b);
      AllApplied(s.sh, tx.entries, s.sh.h.commits[t - 1].writes, k, ValueAt(s.sh.h, t - 1, b), b);
    }
  }

  /** With no later entry under the lock, the updates up to entry k are all there are for its words. */
  lemma AllApplied(sh: Shared, es: seq<WEntry>, us: seq<Update>, k: nat, x: Word, b: nat)
    requires SameAddresses(us, es) && k < |es| && Lk(sh, es[k].addr) == Lk(sh, b)
    requires forall j :: k < j < |es| ==> Lk(sh, es[j].addr) != Lk(sh, es[k].addr)
    ensures Apply(us, x, b) == Apply(us[..k + 1], x, b)
  {
    forall j | k + 1 <= j < |us|
      ensures us[j].addr != b
    {
      assert us[j].addr == es[j].addr;
    }
    ApplyPrefix(us, k + 1, x, b);
  }

  /** The other own locks are not touched by releasing one. */
  lemma FreedEntries(s: State, i: nat, st: Stamp, pc': Pc)
    requires Inv(s) && i < |s.txs| && Ending(s.txs[i].pc) && Pos(s.txs[i]) < |s.txs[i].entries|
    requires s.txs[i].entries[Pos(s.txs[i])].next == 0 && Pos(s.txs[i].(pc := pc')) == Pos(s.txs[i]) + 1
    requires Ts(pc') == Ts(s.txs[i].pc) && Writing(pc') == Writing(s.txs[i].pc)
    requires SharedShape(s.sh) && s.txs[i].entries[Pos(s.txs[i])].addr < |s.sh.mem|
    requires var sh' := FreeLock(s.sh, s.txs[i].entries[Pos(s.txs[i])].addr, st);
             SharedShape(sh') && TxShape(sh', s.txs[i].(pc := pc'))
    ensures var sh' := FreeLock(s.sh, s.txs[i].entries[Pos(s.txs[i])].addr, st);
            EntriesHeld(sh', i, s.txs[i].(pc := pc')) && EntryValues(sh', s.txs[i].(pc := pc'))
  {
    var tx := s.txs[i];
    var k := Pos(tx);
    var tx' := tx.(pc := pc');
    var sh' := FreeLock(s.sh, tx.entries[k].addr, st);
    TxFacts(s, i);
    LastUnderLock(s, i, k);
    hide OwnersOk, PendingOk, VersionsOk, MemoryOk, PastOk, TxsOk, LogOk, SnapshotOk, RunOk, PcOk, StampOk, ChainsOk,
         Untouched, Effect, NoPending, ValueAt, SetsShape, PcShape;
    forall j | Pos(tx') <= j < |tx.entries|
      ensures EntryHeld(sh', i, tx', j)
      ensures !Writing(pc') ==> EntryValue(sh', tx', j)
    {
      EntryIndex(s.sh, tx, j);
      assert EntryHeld(s.sh, i, tx, j);
      assert !Writing(tx.pc) ==> EntryValue(s.sh, tx, j);
    }
  }

  /** The words under the other own locks are what they were. */
  lemma FreedWords(s: State, i: nat, a: nat, st: Stamp, pc': Pc)
    requires Inv(s) && i < |s.txs| && Ending(s.txs[i].pc) && Ending(pc') && Writing(pc') == Writing(s.txs[i].pc)
    requires Ts(pc') == Ts(s.txs[i].pc) && Done(pc') == Done(s.txs[i].pc)
    requires SharedShape(s.sh) && a < |s.sh.mem| && SharedShape(FreeLock(s.sh, a, st))
    ensures OwnWordsOk(FreeLock(s.sh, a, st), i, s.txs[i].(pc := pc'))
  {
    var tx := s.txs[i];
    var sh' := FreeLock(s.sh, a, st);
    var tx' := tx.(pc := pc');
    hide Inv, OwnerWord;
    forall b | 0 <= b < |sh'.mem| && OwnLock(sh', i, Lk(sh', b))
      ensures sh'.mem[b] == OwnerWord(sh', tx', b)
    {
      WordFact(s, i, b);
      SameOwnerWord(s.sh, sh', tx, b);
      SameDone(sh', tx, pc', b);
    }
  }

  lemma SameDone(sh: Shared, tx: Tx, pc': Pc, a: nat)
    requires SharedShape(sh) && Ending(tx.pc) && Ending(pc') && Writing(pc') == Writing(tx.pc)
    requires Ts(pc') == Ts(tx.pc) && Done(pc') == Done(tx.pc)
    ensures OwnerWord(sh, tx.(pc := pc'), a) == OwnerWord(sh, tx, a)
  {
    assert Restored(tx.(pc := pc'), a) == Restored(tx, a);
  }

  /** A lock is released, by the loop of the commit or of the rollback. */
  lemma DropInv(s: State, i: nat, st: Stamp, pc': Pc)
    requires Inv(s) && i < |s.txs| && (s.txs[i].pc.Release? || s.txs[i].pc.UndoLock?)
             && s.txs[i].pc.k < |s.txs[i].entries|
    requires s.txs[i].entries[s.txs[i].pc.k].next == 0
    requires pc' == if s.txs[i].pc.Release? then Install(s.txs[i].pc.t, s.txs[i].pc.k + 1)
             else Undo(s.txs[i].pc.k + 1, s.txs[i].pc.t)
    requires var a := s.txs[i].entries[s.txs[i].pc.k].addr;
             && a < |s.sh.mem| && Lk(s.sh, a) < |s.sh.vers|
             && NotAfter(s.sh.vers[Lk(s.sh, a)], st) && st.version <= s.sh.clock
             && (s.sh.design.WriteThrough? ==> Before(s.sh.vers[Lk(s.sh, a)], st))
             && (Ts(s.txs[i].pc) <= st.version || Ts(s.txs[i].pc) == 0)
             && forall b :: 0 <= b < |s.sh.mem| && Lk(s.sh, b) == Lk(s.sh, a) ==>
                  s.sh.mem[b] == ValueAt(s.sh.h, s.sh.clock, b)
    ensures SharedShape(s.sh)
            && Inv(State(FreeLock(s.sh, s.txs[i].entries[s.txs[i].pc.k].addr, st), s.txs[i := s.txs[i].(pc := pc')]))
  {
    var tx := s.txs[i];
    var k := tx.pc.k;
    var a := tx.entries[k].addr;
    var tx' := tx.(pc := pc');
    var sh' := FreeLock(s.sh, a, st);
    HeldNow(s, i, k);
    assert GoodAfter(s.sh, After(sh', tx')) by { hide TxsOk, OwnersOk, PendingOk, VersionsOk, MemoryOk, PastOk; }
    OthersCovered(s, i, k, tx');
    FreedEntries(s, i, st, pc');
    FreedWords(s, i, a, st, pc');
    DropLater(s, i, pc');
    LoopTx(s, i, sh', pc');
    hide Inv, TxOk, OwnWordsOk, GoodAfter, TxShape, EntryHeld, CoversFrom, ValueAt, Before, NotAfter, Pos,
         LaterThanLocks, EntriesHeld, EntryValues;
    FreeInv(s, i, a, st, tx');
  }

  lemma DropLater(s: State, i: nat, pc': Pc)
    requires Inv(s) && i < |s.txs| && (s.txs[i].pc.Release? || s.txs[i].pc.UndoLock?)
             && s.txs[i].pc.k < |s.txs[i].entries|
    requires pc' == if s.txs[i].pc.Release? then Install(s.txs[i].pc.t, s.txs[i].pc.k + 1)
             else Undo(s.txs[i].pc.k + 1, s.txs[i].pc.t)
    ensures Undoing(pc') ==> LaterThanLocks(s.txs[i].(pc := pc'), pc'.t)
  {
    TxFacts(s, i);
    hide Inv, LogOk, SnapshotOk, RunOk, StampOk, ChainsOk, EntriesHeld, EntryValues, Untouched, TxShape;
    var tx' := s.txs[i].(pc := pc');
    if Undoing(pc') && pc'.t != 0 {
      forall j {:trigger tx'.entries[j]} | Pos(tx') <= j < |tx'.entries|
        ensures tx'.entries[j].stamp.version < pc'.t
      {
        assert s.txs[i].entries[j] == tx'.entries[j];
      }
    }
  }

  lemma GoOnInv(s: State, i: nat, pc': Pc)
    requires Inv(s) && i < |s.txs| && (s.txs[i].pc.Release? || s.txs[i].pc.UndoLock?)
             && s.txs[i].pc.k < |s.txs[i].entries|
    requires s.txs[i].entries[s.txs[i].pc.k].next != 0
    requires pc' == if s.txs[i].pc.Release? then Install(s.txs[i].pc.t, s.txs[i].pc.k + 1)
             else Undo(s.txs[i].pc.k + 1, s.txs[i].pc.t)
    ensures Inv(State(s.sh, s.txs[i := s.txs[i].(pc := pc')]))
  {
    var tx := s.txs[i];
    TxFacts(s, i);
    assert SharedShape(s.sh);
    NextCovers(s, i, tx.pc.k, tx.(pc := pc'));
    StillOwnWords(s, i, pc');
    DropLater(s, i, pc');
    hide Inv, OwnWordsOk, RoleKept, TxOk, LaterThanLocks, SetsShape;
    assert s.sh.(mem := s.sh.mem) == s.sh;
    LoopInv(s, i, s.sh.mem, pc');
  }

  lemma ReleaseIndex(s: State, i: nat)
    requires Inv(s) && i < |s.txs| && s.txs[i].pc.Release?
    ensures Shape(s) && s.txs[i].pc.k < |s.txs[i].entries| && s.txs[i].entries[s.txs[i].pc.k].addr < |s.sh.mem|
  {
    TxFacts(s, i);
    EntryIndex(s.sh, s.txs[i], s.txs[i].pc.k);
  }

  lemma ReleaseIs(s: State, i: nat, c: Command)
    requires Shape(s) && i < |s.txs| && s.txs[i].pc.Release?
    ensures SharedShape(s.sh) && TxShape(s.sh, s.txs[i])
    ensures var r := StepRelease(s.sh, s.txs[i]); Next(s, i, c) == State(r.sh, s.txs[i := r.tx])
  {
    hide StepRelease, SetsShape;
    assert TxShape(s.sh, s.txs[i]);
  }

  lemma ReleaseDropInv(s: State, i: nat)
    requires Inv(s) && i < |s.txs| && s.txs[i].pc.Release? && s.txs[i].pc.k < |s.txs[i].entries|
    requires s.txs[i].entries[s.txs[i].pc.k].next == 0
    requires SharedShape(s.sh) && s.txs[i].entries[s.txs[i].pc.k].addr < |s.sh.mem|
    ensures var tx := s.txs[i];
            Inv(State(FreeLock(s.sh, tx.entries[tx.pc.k].addr, Stamp(tx.pc.t, 0)),
                      s.txs[i := tx.(pc := Install(tx.pc.t, tx.pc.k + 1))]))
  {
    var tx := s.txs[i];
    var Release(t, k) := tx.pc;
    HeldNow(s, i, k);
    StampBound(s, i);
    hide Inv, ValueAt, TxShape, NoPending;
    forall b | 0 <= b < |s.sh.mem| && Lk(s.sh, b) == Lk(s.sh, tx.entries[k].addr)
      ensures s.sh.mem[b] == ValueAt(s.sh.h, s.sh.clock, b)
    {
      ReleasedWord(s, i, b);
    }
    DropInv(s, i, Stamp(t, 0), Install(t, k + 1));
  }

  lemma ReleaseInv(s: State, i: nat, c: Command)
    requires Inv(s) && i < |s.txs| && s.txs[i].pc.Release?
    ensures Inv(Next(s, i, c))
  {
    hide Inv, SetsShape, FreeLock, Next, Shape;
    ReleaseIndex(s, i);
    ReleaseIs(s, i, c);
    var tx := s.txs[i];
    var Release(t, k) := tx.pc;
    if tx.entries[k].next != 0 {
      GoOnInv(s, i, Install(t, k + 1));
    } else {
      ReleaseDropInv(s, i);
    }
  }

  lemma StillOwnWords(s: State, i: nat, pc': Pc)
    requires Inv(s) && i < |s.txs| && Ending(s.txs[i].pc) && Ending(pc') && Writing(pc') == Writing(s.txs[i].pc)
    requires Ts(pc') == Ts(s.txs[i].pc) && Done(pc') == Done(s.txs[i].pc)
    ensures OwnWordsOk(s.sh, i, s.txs[i].(pc := pc'))
  {
    assert SharedShape(s.sh);
    forall a | 0 <= a < |s.sh.mem| && OwnLock(s.sh, i, Lk(s.sh, a))
      ensures OwnerWord(s.sh, s.txs[i].(pc := pc'), a) == OwnerWord(s.sh, s.txs[i], a)
    {
      SameDone(s.sh, s.txs[i], pc', a);
    }
    SameOwnWords(s, i, s.txs[i].(pc := pc'));
  }

  // ---- rollback ----

  function Undone(s: State, i: nat, k: nat): seq<Word>
    requires i < |s.txs| && k < |s.txs[i].entries| && s.txs[i].entries[k].addr < |s.sh.mem|
  {
    var e := s.txs[i].entries[k];
    if s.sh.design.WriteThrough? && e.mask != 0 then s.sh.mem[e.addr := e.value] else s.sh.mem
  }

  /** Restoring the word of an entry brings back what it held when its lock was taken. */
  lemma UndoneWords(s: State, i: nat, k: nat)
    requires Inv(s) && i < |s.txs| && s.txs[i].pc.Undo? && s.txs[i].pc.k == k < |s.txs[i].entries|
    requires s.txs[i].entries[k].addr < |s.sh.mem| && SharedShape(s.sh.(mem := Undone(s, i, k)))
    ensures OwnWordsOk(s.sh.(mem := Undone(s, i, k)), i, s.txs[i].(pc := UndoLock(k, s.txs[i].pc.t)))
  {
    var tx := s.txs[i];
    var sh' := s.sh.(mem := Undone(s, i, k));
    var tx' := tx.(pc := UndoLock(k, tx.pc.t));
    TxFacts(s, i);
    ValueFact(s.sh, tx, k);
    OneEntry(s.sh.h.lockOf, tx.entries, k);
    assert SharedShape(s.sh);
    hide Inv, OwnerWord, EntryValue, LogOk, SnapshotOk, RunOk, PcOk, StampOk, ChainsOk, EntriesHeld, EntryValues,
         TxShape, Stored;
    forall b | 0 <= b < |sh'.mem| && OwnLock(sh', i, Lk(sh', b))
      ensures sh'.mem[b] == OwnerWord(sh', tx', b)
    {
      assert OwnLock(s.sh, i, Lk(s.sh, b));
      WordFact(s, i, b);
      UndoneWord(s, i, k, b);
    }
  }

  lemma UndoneWord(s: State, i: nat, k: nat, b: nat)
    requires i < |s.txs| && s.txs[i].pc.Undo? && s.txs[i].pc.k == k < |s.txs[i].entries| && SharedShape(s.sh)
    requires s.txs[i].entries[k].addr < |s.sh.mem| && SharedShape(s.sh.(mem := Undone(s, i, k))) && b < |s.sh.mem|
    requires EntryValue(s.sh, s.txs[i], k) && Untouched(s.txs[i].log, s.txs[i].entries)
    requires Stored(s.txs[i].entries, s.txs[i].entries[k].addr) <==> s.txs[i].entries[k].mask != 0
    requires s.sh.mem[b] == OwnerWord(s.sh, s.txs[i], b)
    ensures Undone(s, i, k)[b]
            == OwnerWord(s.sh.(mem := Undone(s, i, k)), s.txs[i].(pc := UndoLock(k, s.txs[i].pc.t)), b)
  {
    var tx := s.txs[i];
    var tx' := tx.(pc := UndoLock(k, tx.pc.t));
    var sh' := s.sh.(mem := Undone(s, i, k));
    assert Base(sh', b) == Base(s.sh, b);
    hide ValueAt, Apply, Effect, Base, Stored;
    if s.sh.design.WriteThrough? {
      RestoredNext(tx, k, b);
      if b == tx.entries[k].addr && tx.entries[k].mask == 0 {
        NotStored(tx.log, tx.entries, Base(s.sh, b), b);
      }
    }
  }

  lemma RestoredNext(tx: Tx, k: nat, b: nat)
    requires tx.pc.Undo? && tx.pc.k == k < |tx.entries|
    ensures Restored(tx.(pc := UndoLock(k, tx.pc.t)), b) <==> Restored(tx, b) || tx.entries[k].addr == b
  {
    var tx' := tx.(pc := UndoLock(k, tx.pc.t));
    if Restored(tx, b) {
      var j :| 0 <= j < Done(tx.pc) && j < |tx.entries| && tx.entries[j].addr == b;
      assert tx'.entries[j].addr == b;
    }
    if tx.entries[k].addr == b {
      assert tx'.entries[k].addr == b;
    }
    if Restored(tx', b) {
      var j :| 0 <= j < Done(tx'.pc) && j < |tx'.entries| && tx'.entries[j].addr == b;
      assert tx.entries[j].addr == b;
    }
  }

  lemma UndoInv(s: State, i: nat, c: Command)
    requires Inv(s) && i < |s.txs| && s.txs[i].pc.Undo?
    ensures Inv(Next(s, i, c))
  {
    var tx := s.txs[i];
    var Undo(k, t) := tx.pc;
    TxFacts(s, i);
    if k == |tx.entries| {
      hide Inv;
      EndInv(s, i);
    } else {
      HeldNow(s, i, k);
      assert SharedShape(s.sh);
      UndoneWords(s, i, k);
      SameRole(s, i, tx.(pc := UndoLock(k, t)));
      hide Inv, OwnWordsOk, RoleKept, EntryHeld, LogOk, SnapshotOk, RunOk, StampOk, ChainsOk, EntriesHeld, EntryValues,
           Untouched, SetsShape;
      LoopInv(s, i, Undone(s, i, k), UndoLock(k, t));
      assert s.sh.(mem := s.sh.mem) == s.sh;
    }
  }

  /** When the rollback releases a lock, all words under it are as they were when it was taken. */
  lemma RestoredWord(s: State, i: nat, b: nat)
    requires Inv(s) && i < |s.txs| && s.txs[i].pc.UndoLock? && s.txs[i].pc.k < |s.txs[i].entries|
    requires s.txs[i].entries[s.txs[i].pc.k].next == 0 && b < |s.sh.mem|
    requires Lk(s.sh, b) == Lk(s.sh, s.txs[i].entries[s.txs[i].pc.k].addr)
    ensures s.sh.mem[b] == Base(s.sh, b) == ValueAt(s.sh.h, s.sh.clock, b)
  {
    var tx := s.txs[i];
    var k := tx.pc.k;
    HeldNow(s, i, k);
    WordFact(s, i, b);
    BaseIsLast(s, i, b);
    TxFacts(s, i);
    LastUnderLock(s, i, k);
    hide Inv, ValueAt, Base, Effect, EntryHeld, LogOk, SnapshotOk, RunOk, PcOk, StampOk, ChainsOk, EntriesHeld,
         EntryValues, TxShape;
    if s.sh.design.WriteThrough? && !Restored(tx, b) {
      NotStored(tx.log, tx.entries, Base(s.sh, b), b);
    }
  }

  /** The stamp with which the rollback releases the lock of entry k. */
  function UndoStamp(sh: Shared, tx: Tx): Stamp
    requires tx.pc.UndoLock? && tx.pc.k < |tx.entries|
  {
    var e := tx.entries[tx.pc.k];
    if sh.design.WriteBack? then e.stamp
    else if e.stamp.incarnation + 1 <= INCARNATION_MAX then Stamp(e.stamp.version, e.stamp.incarnation + 1)
    else Stamp(tx.pc.t, 0)
  }

  lemma UndoStampNew(s: State, i: nat)
    requires Inv(s) && i < |s.txs| && s.txs[i].pc.UndoLock? && s.txs[i].pc.k < |s.txs[i].entries|
    requires s.sh.design.WriteThrough? && s.txs[i].entries[s.txs[i].pc.k].stamp.incarnation + 1 > INCARNATION_MAX ==>
             s.txs[i].pc.t != 0
    ensures var st := UndoStamp(s.sh, s.txs[i]);
            var l := Lk(s.sh, s.txs[i].entries[s.txs[i].pc.k].addr);
            && l < |s.sh.vers| && NotAfter(s.sh.vers[l], st) && st.version <= s.sh.clock
            && (s.sh.design.WriteThrough? ==> Before(s.sh.vers[l], st))
  {
    TxFacts(s, i);
    HeldNow(s, i, s.txs[i].pc.k);
    hide Inv, LogOk, SnapshotOk, RunOk, StampOk, ChainsOk, EntriesHeld, EntryValues, Untouched, SetsShape, NoPending;
  }

  lemma UndoTickInv(s: State, i: nat)
    requires Inv(s) && i < |s.txs| && s.txs[i].pc.UndoLock? && s.txs[i].pc.t == 0
    ensures Inv(State(Tick(s.sh, CommitHistory.Commit(i, Aborted, s.txs[i].start, [], [])),
                      s.txs[i := s.txs[i].(pc := UndoLock(s.txs[i].pc.k, s.sh.clock + 1))]))
  {
    var tx := s.txs[i];
    var e := CommitHistory.Commit(i, Aborted, tx.start, [], []);
    var r := After(Tick(s.sh, e), tx.(pc := UndoLock(tx.pc.k, s.sh.clock + 1)));
    TxFacts(s, i);
    assert GoodAfter(s.sh, r);
    assert PastOk(s.sh);
    TickGrows(s.sh, e);
    forall l {:trigger OwnLock(s.sh, i, l)} | 0 <= l < |s.sh.locks| && OwnLock(s.sh, i, l)
      ensures CoversFrom(s.sh.h.lockOf, r.tx.entries, Pos(r.tx), l)
    {
      HeldCovers(s, i, l);
    }
    ShapeAfter(s, i, r);
    UndoTickTx(s, i);
    PastGrows(s.sh, r.sh);
    UndoTickWords(s, i, r.tx);
    hide Inv, TxOk, PastOk, TxShape, GoodAfter, BooksOk, MemoryOk, CoversFrom, Covers, Env, Shape, OwnerWord;
    TickBooks(s, i, e, r.tx);
    TickMemory(s, i, e, r.tx);
    Assemble(s, i, r);
  }

  lemma UndoTickWords(s: State, i: nat, tx': Tx)
    requires Inv(s) && i < |s.txs| && s.txs[i].pc.UndoLock?
             && tx' == s.txs[i].(pc := UndoLock(s.txs[i].pc.k, s.sh.clock + 1))
    ensures SharedShape(s.sh) && forall a :: 0 <= a < |s.sh.mem| && OwnLock(s.sh, i, Lk(s.sh, a)) ==>
              OwnerWord(s.sh, tx', a) == OwnerWord(s.sh, s.txs[i], a)
  {
    assert SharedShape(s.sh);
    forall a | 0 <= a < |s.sh.mem| && OwnLock(s.sh, i, Lk(s.sh, a))
      ensures OwnerWord(s.sh, tx', a) == OwnerWord(s.sh, s.txs[i], a)
    {
      SameDone(s.sh, s.txs[i], tx'.pc, a);
    }
  }

  lemma UndoTickTx(s: State, i: nat)
    requires Inv(s) && i < |s.txs| && s.txs[i].pc.UndoLock? && TxShape(s.sh, s.txs[i])
    requires var r := After(Tick(s.sh, CommitHistory.Commit(i, Aborted, s.txs[i].start, [], [])),
                            s.txs[i].(pc := UndoLock(s.txs[i].pc.k, s.sh.clock + 1)));
             GoodAfter(s.sh, r)
    ensures TxOk(Tick(s.sh, CommitHistory.Commit(i, Aborted, s.txs[i].start, [], [])), i,
                 s.txs[i].(pc := UndoLock(s.txs[i].pc.k, s.sh.clock + 1)))
  {
    var tx := s.txs[i];
    var e := CommitHistory.Commit(i, Aborted, tx.start, [], []);
    var sh' := Tick(s.sh, e);
    var pc' := UndoLock(tx.pc.k, s.sh.clock + 1);
    var tx' := tx.(pc := pc');
    TxFacts(s, i);
    AllBasesFixed(s, i);
    assert TxShape(sh', tx);
    TickSelf(s, i, e);
    assert LaterThanLocks(tx', s.sh.clock + 1) by {
      forall j {:trigger tx'.entries[j]} | Pos(tx') <= j < |tx'.entries|
        ensures tx'.entries[j].stamp.version < s.sh.clock + 1
      {
        assert EntryHeld(s.sh, i, tx, j);
      }
    }
    hide Inv, LogOk, SnapshotOk, RunOk, ChainsOk, EntriesHeld, EntryValues, Untouched, Env, BasesFixed, TxShape,
         LaterThanLocks;
    TxStable(s.sh, sh', i, tx);
    SnapshotPc(sh', tx, pc');
    EntriesPc(sh', i, tx, pc');
    NoRun(sh', i, tx');
  }

  lemma NoRun(sh: Shared, i: nat, tx: Tx)
    requires SharedShape(sh) && !Running(tx.pc)
    ensures RunOk(sh, i, tx)
  {
  }

  lemma UndoDropInv(s: State, i: nat)
    requires Inv(s) && i < |s.txs| && s.txs[i].pc.UndoLock? && s.txs[i].pc.k < |s.txs[i].entries|
    requires s.txs[i].entries[s.txs[i].pc.k].next == 0
    requires s.sh.design.WriteThrough? && s.txs[i].entries[s.txs[i].pc.k].stamp.incarnation + 1 > INCARNATION_MAX ==>
             s.txs[i].pc.t != 0
    requires SharedShape(s.sh) && s.txs[i].entries[s.txs[i].pc.k].addr < |s.sh.mem|
    ensures var tx := s.txs[i];
            Inv(State(FreeLock(s.sh, tx.entries[tx.pc.k].addr, UndoStamp(s.sh, tx)),
                      s.txs[i := tx.(pc := Undo(tx.pc.k + 1, tx.pc.t))]))
  {
    var tx := s.txs[i];
    UndoStampNew(s, i);
    hide Inv, ValueAt, TxShape, UndoStamp, NotAfter, Before;
    forall b | 0 <= b < |s.sh.mem| && Lk(s.sh, b) == Lk(s.sh, tx.entries[tx.pc.k].addr)
      ensures s.sh.mem[b] == ValueAt(s.sh.h, s.sh.clock, b)
    {
      RestoredWord(s, i, b);
    }
    DropInv(s, i, UndoStamp(s.sh, tx), Undo(tx.pc.k + 1, tx.pc.t));
  }

  lemma UndoLockInv(s: State, i: nat, c: Command)
    requires Inv(s) && i < |s.txs| && s.txs[i].pc.UndoLock?
    ensures Inv(Next(s, i, c))
  {
    var tx := s.txs[i];
    var UndoLock(k, t) := tx.pc;
    TxFacts(s, i);
    EntryIndex(s.sh, tx, k);
    hide TxsOk, OwnersOk, PendingOk, VersionsOk, MemoryOk, PastOk, TxOk, SetsShape, FreeLock, Tick;
    if tx.entries[k].next != 0 {
      GoOnInv(s, i, Undo(k + 1, t));
    } else if s.sh.design.WriteThrough? && tx.entries[k].stamp.incarnation + 1 > INCARNATION_MAX && t == 0 {
      UndoTickInv(s, i);
    } else {
      UndoDropInv(s, i);
    }
  }
}
