/** Encounter-time locking, both designs: a transaction whose reads are still current, while all other threads are idle,
    is not given up as long as its write set has room. It does what its program asks for and commits. */
module EtlAlone {
  import opened Counting
  import opened CommitHistory
  import opened Requests
  import opened EtlMachine
  import opened EtlInvariant
  import opened EtlTheorems
  import opened EtlCommands
  import EtlRuns

  ghost predicate OthersIdle(s: State, i: nat) {
    forall j :: 0 <= j < |s.txs| && j != i ==> s.txs[j].pc.Idle?
  }

  /** Nothing that has been read has changed. In the write-through design the read under way may be newer than `end`. */
  ghost predicate Current(sh: Shared, i: nat, tx: Tx)
    requires TxShape(sh, tx)
  {
    forall k :: 0 <= k < |tx.rset| ==> EntryCurrent(sh, i, tx, k)
  }

  ghost predicate EntryCurrent(sh: Shared, i: nat, tx: Tx, k: nat)
    requires TxShape(sh, tx) && k < |tx.rset|
  {
    EntryValid(sh, i, tx, k) && (k < Completed(sh, tx) ==> tx.rset[k].version <= tx.end)
  }

  predicate Reading(pc: Pc) {
    pc.RLoadLock? || pc.RLoadValue? || pc.RReloadLock? || pc.RClock? || pc.RExtend? || pc.RRecheck? || pc.ROwn?
  }

  predicate Operating(pc: Pc) {
    Reading(pc) || pc.WLoadLock? || pc.WCas? || pc.WLoad? || pc.WStore?
  }

  predicate Ending(pc: Pc) {
    pc.TakeTime? || pc.Validate? || Writing(pc)
  }

  /** Nothing stands in the way of the access to come. */
  ghost predicate Clear(sh: Shared, i: nat, tx: Tx)
    requires SharedShape(sh) && TxShape(sh, tx)
  {
    && (!Writing(tx.pc) ==> Current(sh, i, tx))
    && (Operating(tx.pc) || tx.pc.Active? ==> sh.clock < sh.max && (tx.readOnly ==> tx.end == sh.clock))
    && match tx.pc
       case RLoadValue(a, v) => sh.locks[Lk(sh, a)] == Free(v)
       case RReloadLock(a, v, _) => sh.locks[Lk(sh, a)] == Free(v)
       case RClock(a, v, _) => sh.locks[Lk(sh, a)] == Free(v)
       case RExtend(a, v, _, now, _) => sh.locks[Lk(sh, a)] == Free(v) && now == sh.clock
       case RRecheck(a, v, _) => sh.locks[Lk(sh, a)] == Free(v) && v.version <= tx.end
       case WLoadLock(_, _, _) => |tx.entries| < tx.size
       case WCas(a, _, _, v) => sh.locks[Lk(sh, a)] == Free(v) && |tx.entries| < tx.size
       case Undo(_, _) => false
       case UndoLock(_, _) => false
       case Idle => false
       case _ => true
  }

  /** How many accesses are still to come, at most. */
  function Rank(tx: Tx): nat {
    var n, m := |tx.entries|, |tx.rset|;
    match tx.pc
    case RLoadLock(_) => m + 7
    case RLoadValue(_, _) => m + 6
    case RReloadLock(_, _, _) => m + 5
    case RClock(_, _, _) => m + 3
    case RExtend(_, _, _, _, k) => if k <= m then m - k + 2 else 0
    case RRecheck(_, _, _) => 1
    case ROwn(_) => 1
    case WLoadLock(_, _, _) => 5
    case WCas(_, _, _, _) => 4
    case WLoad(_, _, _) => 2
    case WStore(_, _, _, _) => 1
    case TakeTime => m + 2 * n + 3
    case Validate(_, k) => if k <= m then m - k + 2 * n + 2 else 0
    case Install(_, k) => if k <= n then 2 * (n - k) + 1 else 0
    case Release(_, k) => if k <= n then 2 * (n - k) else 0
    case _ => 0
  }

  /** The length of the write set when the operation under way is done, at most. */
  function Length(tx: Tx): nat {
    |tx.entries| + One(tx.pc.WLoadLock? || tx.pc.WCas?)
  }

  /** A lock is free, with a version that is not in the future, or held by thread i. */
  lemma LockOwner(s: State, i: nat, l: nat)
    requires Inv(s) && OthersIdle(s, i) && i < |s.txs| && l < |s.sh.locks|
    ensures match s.sh.locks[l]
            case Free(v) => v.version <= s.sh.clock
            case Held(o, e) => o == i && e < |s.txs[i].entries|
  {
    assert Owned(s, l);
    if s.sh.locks[l].Held? {
      assert TxOk(s.sh, i, s.txs[i]);
      var k :| Pos(s.txs[i]) <= k < |s.txs[i].entries| && UnderLock(s.sh.h.lockOf, s.txs[i].entries, k, l);
      assert EntryHeld(s.sh, i, s.txs[i], k);
    }
    hide TxsOk, PendingOk, MemoryOk, PastOk, Shape, LogOk, SnapshotOk, RunOk, PcOk, StampOk, ChainsOk, EntryValues,
         Untouched;
  }

  lemma Own(s: State, i: nat)
    requires Inv(s) && i < |s.txs|
    ensures Shape(s) && SharedShape(s.sh) && TxShape(s.sh, s.txs[i]) && TxOk(s.sh, i, s.txs[i])
  {
  }

  /** The acting thread's next state is in shape. */
  lemma ShapeNext(s: State, i: nat, c: Command)
    requires Inv(s) && i < |s.txs|
    ensures SharedShape(s.sh) && TxShape(s.sh, s.txs[i]) && Shape(s) && Inv(Next(s, i, c))
    ensures var r := Step(s.sh, i, s.txs[i], c); SharedShape(r.sh) && TxShape(r.sh, r.tx) && TxOk(r.sh, i, r.tx)
  {
    NextInv(s, i, c);
    Own(s, i);
    Own(Next(s, i, c), i);
    hide Inv, SharedShape, TxShape, Step, TxOk;
  }

  /** From one descriptor to the next, when no lock is lost and at most a new read set entry comes. */
  lemma CurrentMore(sh: Shared, i: nat, tx: Tx, sh': Shared, tx': Tx, r: REntry)
    requires TxShape(sh, tx) && TxShape(sh', tx') && Current(sh, i, tx) && |sh'.locks| == |sh.locks|
    requires tx'.rset == tx.rset || tx'.rset == tx.rset + [r]
    requires |tx'.entries| >= |tx.entries| && tx'.end >= tx.end
    requires forall l :: 0 <= l < |sh.locks| && sh'.locks[l] != sh.locks[l] ==>
               sh'.locks[l].Held? && sh'.locks[l].owner == i && sh'.locks[l].entry < |tx'.entries|
    requires tx'.rset != tx.rset ==>
               r.lock < |sh'.locks| && sh'.locks[r.lock].Free? && sh'.locks[r.lock].stamp.version == r.version
               && (|tx.rset| < Completed(sh', tx') ==> r.version <= tx'.end)
    requires forall k :: 0 <= k < |tx.rset| && Completed(sh, tx) <= k < Completed(sh', tx') ==>
               tx.rset[k].version <= tx'.end
    ensures Current(sh', i, tx')
  {
    hide PcShape, Completed;
    forall k | 0 <= k < |tx'.rset|
      ensures EntryCurrent(sh', i, tx', k)
    {
      if k < |tx.rset| {
        assert tx'.rset[k] == tx.rset[k];
        assert EntryCurrent(sh, i, tx, k);
      }
    }
  }

  // ---- loads and stores ----

  /** What an access of an operation that is not given up comes to. */
  ghost predicate Proceeds(sh: Shared, i: nat, tx: Tx, r: After) {
    && r.sh == sh.(mem := r.sh.mem, locks := r.sh.locks) && |r.sh.mem| == |sh.mem|
    && r.tx.readOnly == tx.readOnly && r.tx.size == tx.size && Length(r.tx) <= Length(tx)
    && (Operating(r.tx.pc) || r.tx.pc.Active?)
    && SharedShape(r.sh) && TxShape(r.sh, r.tx) && Clear(r.sh, i, r.tx) && Rank(r.tx) < Rank(tx)
  }

  /** The machine is in a state where thread i is undisturbed and may go on. */
  ghost predicate Undisturbed(s: State, i: nat) {
    && Inv(s) && i < |s.txs| && OthersIdle(s, i)
    && SharedShape(s.sh) && TxShape(s.sh, s.txs[i]) && Clear(s.sh, i, s.txs[i])
  }

  lemma LoadsProceed(s: State, i: nat)
    requires Undisturbed(s, i)
    requires var pc := s.txs[i].pc; pc.RLoadLock? || pc.RLoadValue? || pc.RClock? || pc.ROwn?
    requires var r := StepLoads(s.sh, i, s.txs[i]); SharedShape(r.sh) && TxShape(r.sh, r.tx)
    ensures Proceeds(s.sh, i, s.txs[i], StepLoads(s.sh, i, s.txs[i]))
  {
    var tx := s.txs[i];
    var r := StepLoads(s.sh, i, tx);
    LockOwner(s, i, Lk(s.sh, tx.pc.a));
    hide Inv, OthersIdle, SetsShape, PcShape, Current, Base, ChainFind;
    assert r.sh == s.sh && r.tx.rset == tx.rset && r.tx.entries == tx.entries && r.tx.end == tx.end;
    CurrentMore(s.sh, i, tx, r.sh, r.tx, REntry(0, 0));
  }

  lemma ReloadProceeds(s: State, i: nat)
    requires Undisturbed(s, i) && s.txs[i].pc.RReloadLock?
    requires var r := StepReload(s.sh, i, s.txs[i]); SharedShape(r.sh) && TxShape(r.sh, r.tx)
    ensures Proceeds(s.sh, i, s.txs[i], StepReload(s.sh, i, s.txs[i]))
  {
    var tx := s.txs[i];
    var r := StepReload(s.sh, i, tx);
    LockOwner(s, i, Lk(s.sh, tx.pc.a));
    hide Inv, OthersIdle, SetsShape, PcShape, Current;
    CurrentMore(s.sh, i, tx, r.sh, r.tx, REntry(Lk(s.sh, tx.pc.a), tx.pc.v.version));
  }

  lemma RecheckProceeds(s: State, i: nat)
    requires Undisturbed(s, i) && s.txs[i].pc.RRecheck?
    requires var r := StepRecheck(s.sh, i, s.txs[i]); SharedShape(r.sh) && TxShape(r.sh, r.tx)
    ensures Proceeds(s.sh, i, s.txs[i], StepRecheck(s.sh, i, s.txs[i]))
  {
    var tx := s.txs[i];
    var r := StepRecheck(s.sh, i, tx);
    hide Inv, OthersIdle, SetsShape, PcShape, Current;
    CurrentMore(s.sh, i, tx, r.sh, r.tx, REntry(Lk(s.sh, tx.pc.a), tx.pc.v.version));
  }

  lemma ExtendProceeds(s: State, i: nat)
    requires Undisturbed(s, i) && s.txs[i].pc.RExtend?
    requires var r := StepExtend(s.sh, i, s.txs[i]); SharedShape(r.sh) && TxShape(r.sh, r.tx)
    ensures Proceeds(s.sh, i, s.txs[i], StepExtend(s.sh, i, s.txs[i]))
  {
    var tx := s.txs[i];
    var r := StepExtend(s.sh, i, tx);
    Own(s, i);
    assert tx.end <= s.sh.clock && tx.pc.v.version <= s.sh.clock && !tx.readOnly by { ExtendFacts(s, i); }
    assert tx.pc.k < |tx.rset| ==> EntryCurrent(s.sh, i, tx, tx.pc.k);
    VersionsPast(s, i);
    hide Inv, OthersIdle, SetsShape, PcShape, Current, TxOk, EntryValid;
    CurrentMore(s.sh, i, tx, r.sh, r.tx, REntry(0, 0));
  }

  lemma ExtendFacts(s: State, i: nat)
    requires Undisturbed(s, i) && s.txs[i].pc.RExtend?
    ensures var tx := s.txs[i];
            tx.end <= s.sh.clock && tx.pc.v.version <= s.sh.clock && !tx.readOnly
            && (s.sh.design.WriteBack? ==> tx.pc.v.version <= tx.pc.now)
  {
    Own(s, i);
  }

  /** Whatever is in the read set has a version that the clock has reached. */
  lemma VersionsPast(s: State, i: nat)
    requires Undisturbed(s, i) && !Writing(s.txs[i].pc)
    ensures forall k :: 0 <= k < |s.txs[i].rset| && (Completed(s.sh, s.txs[i]) <= k) ==>
              s.txs[i].rset[k].version <= s.sh.clock
  {
    Own(s, i);
    var tx := s.txs[i];
    forall k | 0 <= k < |tx.rset| && Completed(s.sh, tx) <= k
      ensures tx.rset[k].version <= s.sh.clock
    {
      assert tx.pc.RClock? || tx.pc.RExtend?;
      assert k == |tx.rset| - 1 && tx.rset[k] == REntry(Lk(s.sh, tx.pc.a), tx.pc.v.version);
    }
  }

  /** The write set as it is after an access to entry k. */
  predicate Longer(tx: Tx, tx': Tx) {
    && tx'.rset == tx.rset && tx'.end == tx.end && tx'.readOnly == tx.readOnly && tx'.size == tx.size
    && |tx.entries| <= |tx'.entries| <= |tx.entries| + 1
    && (tx'.pc.Active? || tx'.pc.WLoad? || tx'.pc.WStore?)
  }

  lemma EntryLonger(sh: Shared, tx: Tx, es: seq<WEntry>, k: nat, value: Word, mask: Word)
    requires k < |es| && |tx.entries| <= |es| <= |tx.entries| + 1
    ensures var r := WriteEntry(sh, tx, es, k, value, mask); r.sh == sh && Longer(tx, r.tx)
  {
    hide Merge, Join;
  }

  lemma WriteLonger(s: State, i: nat)
    requires Undisturbed(s, i) && s.txs[i].pc.WLoadLock?
    ensures var r := StepWrite(s.sh, i, s.txs[i]);
            r.sh == s.sh && (Longer(s.txs[i], r.tx)
                             || (r.tx == s.txs[i].(pc := r.tx.pc) && r.tx.pc.WCas?
                                 && s.sh.locks[Lk(s.sh, r.tx.pc.a)] == Free(r.tx.pc.v)))
  {
    var tx := s.txs[i];
    var WLoadLock(a, value, mask) := tx.pc;
    var l := Lk(s.sh, a);
    LockOwner(s, i, l);
    if HasRead(tx.rset, l) {
      var k :| 0 <= k < |tx.rset| && tx.rset[k].lock == l;
      assert EntryCurrent(s.sh, i, tx, k);
    }
    hide Inv, OthersIdle, ChainFind, ChainLast, WriteEntry, HasRead, SetsShape, Linked;
    var w := s.sh.locks[l];
    if w.Held? {
      var k := ChainFind(tx.entries, w.entry, a);
      if k < |tx.entries| {
        EntryLonger(s.sh, tx, tx.entries, k, value, mask);
      } else {
        LinkedLonger(s.sh, tx, w.entry, a, value, mask);
      }
    }
  }

  lemma LinkedLonger(sh: Shared, tx: Tx, e: nat, a: nat, value: Word, mask: Word)
    requires e < |tx.entries|
    ensures var es := Linked(tx.entries, ChainLast(tx.entries, e), a);
            && |tx.entries| < |es|
            && var r := WriteEntry(sh, tx, es, |tx.entries|, value, mask);
               r.sh == sh && Longer(tx, r.tx)
  {
    hide WriteEntry, Longer;
    EntryLonger(sh, tx, Linked(tx.entries, ChainLast(tx.entries, e), a), |tx.entries|, value, mask);
  }

  lemma WriteProceeds(s: State, i: nat)
    requires Undisturbed(s, i) && s.txs[i].pc.WLoadLock?
    requires var r := StepWrite(s.sh, i, s.txs[i]); SharedShape(r.sh) && TxShape(r.sh, r.tx)
    ensures Proceeds(s.sh, i, s.txs[i], StepWrite(s.sh, i, s.txs[i]))
  {
    var tx := s.txs[i];
    var r := StepWrite(s.sh, i, tx);
    WriteLonger(s, i);
    hide Inv, OthersIdle, SetsShape, PcShape, Current, StepWrite;
    CurrentMore(s.sh, i, tx, r.sh, r.tx, REntry(0, 0));
  }

  lemma CasProceeds(s: State, i: nat)
    requires Undisturbed(s, i) && s.txs[i].pc.WCas?
    requires var r := StepCas(s.sh, i, s.txs[i]); SharedShape(r.sh) && TxShape(r.sh, r.tx)
    ensures Proceeds(s.sh, i, s.txs[i], StepCas(s.sh, i, s.txs[i]))
  {
    var tx := s.txs[i];
    var WCas(a, value, mask, v) := tx.pc;
    var r := StepCas(s.sh, i, tx);
    var taken := s.sh.(locks := s.sh.locks[Lk(s.sh, a) := Held(i, |tx.entries|)]);
    EntryLonger(taken, tx, Acquired(tx.entries, a, v), |tx.entries|, value, mask);
    EntryAdds(taken, tx, Acquired(tx.entries, a, v), |tx.entries|, value, mask);
    hide Inv, OthersIdle, SetsShape, PcShape, Current, WriteEntry;
    CurrentMore(s.sh, i, tx, r.sh, r.tx, REntry(0, 0));
  }

  lemma EntryAdds(sh: Shared, tx: Tx, es: seq<WEntry>, k: nat, value: Word, mask: Word)
    requires k < |es|
    ensures |WriteEntry(sh, tx, es, k, value, mask).tx.entries| == |es|
  {
    hide Merge, Join;
  }

  lemma LoadedProceeds(s: State, i: nat)
    requires Undisturbed(s, i) && s.txs[i].pc.WLoad?
    requires var r := StepWLoad(s.sh, s.txs[i]); SharedShape(r.sh) && TxShape(r.sh, r.tx)
    ensures Proceeds(s.sh, i, s.txs[i], StepWLoad(s.sh, s.txs[i]))
  {
    var tx := s.txs[i];
    var r := StepWLoad(s.sh, tx);
    hide Inv, OthersIdle, SetsShape, PcShape, Current, Merge, Join;
    CurrentMore(s.sh, i, tx, r.sh, r.tx, REntry(0, 0));
  }

  lemma StoreProceeds(s: State, i: nat)
    requires Undisturbed(s, i) && s.txs[i].pc.WStore?
    requires var r := StepWStore(s.sh, s.txs[i]); SharedShape(r.sh) && TxShape(r.sh, r.tx)
    ensures Proceeds(s.sh, i, s.txs[i], StepWStore(s.sh, s.txs[i]))
  {
    var tx := s.txs[i];
    var r := StepWStore(s.sh, tx);
    hide Inv, OthersIdle, SetsShape, PcShape, Current;
    CurrentMore(s.sh, i, tx, r.sh, r.tx, REntry(0, 0));
  }

  // ---- commit ----

  /** The history `h` with one more timestamp, of thread i for the given log. */
  ghost predicate OneMore(h: History, h': History, i: nat, tx: Tx, st: Status) {
    && h'.lockOf == h.lockOf && h'.init == h.init && |h'.commits| == |h.commits| + 1
    && h'.commits[..|h.commits|] == h.commits
    && var c := h'.commits[|h.commits|]; c.tid == i && c.status == st && c.start == tx.start && c.log == tx.log
  }

  /** The records while the commit is under way, and after it, when they were those of `was` before. */
  ghost predicate Track(was: Shared, sh: Shared, i: nat, tx: Tx) {
    && sh.finished == was.finished && sh.max == was.max && sh.design == was.design
    && match tx.pc
       case TakeTime => sh.h == was.h
       case Validate(t, _) => t == |was.h.commits| + 1 && OneMore(was.h, sh.h, i, tx, Pending)
       case Install(t, _) => t == |was.h.commits| + 1 && OneMore(was.h, sh.h, i, tx, Committed)
       case Release(t, _) => t == |was.h.commits| + 1 && OneMore(was.h, sh.h, i, tx, Committed)
       case Idle => OneMore(was.h, sh.h, i, tx, Committed)
       case _ => false
  }

  ghost predicate Advances(was: Shared, i: nat, tx: Tx, r: After)
  {
    && SharedShape(r.sh) && TxShape(r.sh, r.tx) && (Ending(r.tx.pc) || r.tx.pc.Idle?)
    && (Ending(r.tx.pc) ==> Clear(r.sh, i, r.tx)) && Rank(r.tx) < Rank(tx)
    && r.tx.log == tx.log && r.tx.start == tx.start && r.tx.entries == tx.entries && Track(was, r.sh, i, r.tx)
  }

  lemma TimeAdvances(s: State, i: nat, was: Shared)
    requires Undisturbed(s, i) && s.txs[i].pc.TakeTime? && Track(was, s.sh, i, s.txs[i])
    requires var r := StepTime(s.sh, i, s.txs[i]); SharedShape(r.sh) && TxShape(r.sh, r.tx)
    ensures Advances(was, i, s.txs[i], StepTime(s.sh, i, s.txs[i]))
  {
    var tx := s.txs[i];
    var r := StepTime(s.sh, i, tx);
    hide Inv, OthersIdle, SetsShape, PcShape, Current, Updates;
    CurrentMore(s.sh, i, tx, r.sh, r.tx, REntry(0, 0));
    assert r.sh.h.commits[..|s.sh.h.commits|] == s.sh.h.commits;
  }

  lemma ValidateAdvances(s: State, i: nat, was: Shared)
    requires Undisturbed(s, i) && s.txs[i].pc.Validate? && Track(was, s.sh, i, s.txs[i])
    requires var r := StepValidate(s.sh, i, s.txs[i]); SharedShape(r.sh) && TxShape(r.sh, r.tx)
    ensures Advances(was, i, s.txs[i], StepValidate(s.sh, i, s.txs[i]))
  {
    var tx := s.txs[i];
    var r := StepValidate(s.sh, i, tx);
    assert tx.pc.k < |tx.rset| ==> EntryCurrent(s.sh, i, tx, tx.pc.k);
    hide Inv, OthersIdle, SetsShape, PcShape, Current, EntryValid;
    CurrentMore(s.sh, i, tx, r.sh, r.tx, REntry(0, 0));
    assert r.sh.h.commits[..|was.h.commits|] == s.sh.h.commits[..|was.h.commits|];
  }

  lemma InstallAdvances(s: State, i: nat, was: Shared)
    requires Undisturbed(s, i) && (s.txs[i].pc.Install? || s.txs[i].pc.Release?) && Track(was, s.sh, i, s.txs[i])
    requires var r := if s.txs[i].pc.Install? then StepInstall(s.sh, s.txs[i]) else StepRelease(s.sh, s.txs[i]);
             SharedShape(r.sh) && TxShape(r.sh, r.tx)
    ensures Advances(was, i, s.txs[i],
                     if s.txs[i].pc.Install? then StepInstall(s.sh, s.txs[i]) else StepRelease(s.sh, s.txs[i]))
  {
    hide Inv, OthersIdle, SetsShape, Current, OneMore;
    assert s.txs[i].pc.k <= |s.txs[i].entries|;
    var tx := s.txs[i];
    forall pc', st
      ensures OneMore(was.h, s.sh.h, i, tx, st) ==> OneMore(was.h, s.sh.h, i, tx.(pc := pc'), st)
    {
      SameRecord(was.h, s.sh.h, i, tx, pc', st);
    }
  }

  lemma SameRecord(h: History, h': History, i: nat, tx: Tx, pc': Pc, st: Status)
    ensures OneMore(h, h', i, tx, st) ==> OneMore(h, h', i, tx.(pc := pc'), st)
  {
  }

  // ---- whole operations ----

  lemma OperationStep(s: State, i: nat, c: Command)
    requires Undisturbed(s, i) && Operating(s.txs[i].pc)
    ensures Shape(s) && Proceeds(s.sh, i, s.txs[i], Step(s.sh, i, s.txs[i], c))
    ensures Undisturbed(Next(s, i, c), i)
  {
    hide Inv, SharedShape, TxShape, Clear, StepLoads, StepReload, StepExtend, StepRecheck, StepWrite, StepCas, TxOk;
    hide StepWLoad, StepWStore;
    var tx := s.txs[i];
    ShapeNext(s, i, c);
    match tx.pc {
      case RExtend(_, _, _, _, _) => ExtendProceeds(s, i);
      case WLoadLock(_, _, _) => WriteProceeds(s, i);
      case WCas(_, _, _, _) => CasProceeds(s, i);
      case WLoad(_, _, _) => LoadedProceeds(s, i);
      case WStore(_, _, _, _) => StoreProceeds(s, i);
      case RReloadLock(_, _, _) => ReloadProceeds(s, i);
      case RRecheck(_, _, _) => RecheckProceeds(s, i);
      case _ => LoadsProceed(s, i);
    }
  }

  lemma CommitStep(s: State, i: nat, c: Command, was: Shared)
    requires Undisturbed(s, i) && Ending(s.txs[i].pc) && Track(was, s.sh, i, s.txs[i])
    ensures Shape(s) && Advances(was, i, s.txs[i], Step(s.sh, i, s.txs[i], c))
    ensures Inv(Next(s, i, c)) && OthersIdle(Next(s, i, c), i)
    ensures Ending(Next(s, i, c).txs[i].pc) ==> Undisturbed(Next(s, i, c), i)
  {
    hide Inv, SharedShape, TxShape, Clear, Track, StepTime, StepValidate, StepInstall, StepRelease, TxOk;
    var tx := s.txs[i];
    ShapeNext(s, i, c);
    match tx.pc {
      case TakeTime => TimeAdvances(s, i, was);
      case Validate(_, _) => ValidateAdvances(s, i, was);
      case _ => InstallAdvances(s, i, was);
    }
  }

  /** The run consists of turns of thread i. */
  predicate By(run: seq<Turn>, i: nat) {
    forall k :: 0 <= k < |run| ==> run[k].thread == i
  }

  /** Thread i makes turns by itself and gets from s to r; its attempt, seen as `was` before, is then `at`. */
  ghost predicate Leads(s: State, i: nat, run: seq<Turn>, was: Attempt, r: State, at: Attempt) {
    && i < |s.txs| == |r.txs| && By(run, i) && Exec(s, run) == r && AttemptOf(s, run, i, was) == at
  }

  lemma Nothing(s: State, i: nat, was: Attempt)
    requires i < |s.txs|
    ensures Leads(s, i, [], was, s, was)
  {
  }

  /** One more turn. */
  lemma {:induction false} Further(s: State, i: nat, run: seq<Turn>, was: Attempt, r: State, at: Attempt, c: Command)
    requires Leads(s, i, run, was, r, at) && Shape(r)
    ensures Leads(s, i, run + [Turn(i, c)], was, Next(r, i, c), Ask(r.sh, r.txs[i], c, at))
  {
    hide Shape, Step, Ask;
    var longer := run + [Turn(i, c)];
    assert longer[..|run|] == run;
  }

  /** An operation under way is completed. */
  lemma {:induction false} Completes(s: State, i: nat, run: seq<Turn>, was: Attempt, r: State, at: Attempt)
      returns (run': seq<Turn>, r': State)
    requires Leads(s, i, run, was, r, at) && Undisturbed(r, i) && (Operating(r.txs[i].pc) || r.txs[i].pc.Active?)
    ensures Leads(s, i, run', was, r', at) && Undisturbed(r', i) && r'.txs[i].pc.Active?
    ensures Same(r, r', i, Length(r.txs[i]))
    decreases Rank(r.txs[i])
  {
    hide Shape, Step, Leads, Clear, Operating, Inv, Exec, AttemptOf;
    if r.txs[i].pc.Active? {
      run', r' := run, r;
    } else {
      var c := Begin(false);
      OperationStep(r, i, c);
      Further(s, i, run, was, r, at, c);
      assert Ask(r.sh, r.txs[i], c, at) == at;
      hide Undisturbed, Ask;
      run', r' := Completes(s, i, run + [Turn(i, c)], was, Next(r, i, c), at);
    }
  }

  /** Between two states, thread i has done operations: memory and locks may differ, but no records. */
  predicate Same(r: State, r': State, i: nat, length: nat) {
    && i < |r.txs| == |r'.txs|
    && r'.sh == r.sh.(mem := r'.sh.mem, locks := r'.sh.locks) && |r'.sh.mem| == |r.sh.mem|
    && r'.txs[i].readOnly == r.txs[i].readOnly && r'.txs[i].size == r.txs[i].size && |r'.txs[i].entries| <= length
  }

  /** A commit under way is completed. */
  lemma {:induction false} Finishes(s: State, i: nat, run: seq<Turn>, was: Attempt, r: State, at: Attempt, sh: Shared)
      returns (run': seq<Turn>, r': State)
    requires Leads(s, i, run, was, r, at) && Undisturbed(r, i) && Ending(r.txs[i].pc) && Track(sh, r.sh, i, r.txs[i])
    ensures Leads(s, i, run', was, r', at) && Inv(r') && OthersIdle(r', i) && i < |r'.txs| && r'.txs[i].pc.Idle?
    ensures Track(sh, r'.sh, i, r'.txs[i])
    ensures r'.txs[i].log == r.txs[i].log && r'.txs[i].start == r.txs[i].start
    decreases Rank(r.txs[i])
  {
    hide Shape, Step, Leads, Clear, Inv, Exec, AttemptOf, Track;
    var c := Begin(false);
    CommitStep(r, i, c, sh);
    Further(s, i, run, was, r, at, c);
    assert Ask(r.sh, r.txs[i], c, at) == at;
    hide Undisturbed, Ask, Ending;
    run', r' := run + [Turn(i, c)], Next(r, i, c);
    if !r'.txs[i].pc.Idle? {
      run', r' := Finishes(s, i, run', was, r', at, sh);
    }
  }

  /** What the program may ask for. */
  predicate Askable(sh: Shared, q: Request, readOnly: bool) {
    q.a < |sh.mem| && (q.Put? ==> !readOnly && (sh.design.WriteThrough? ==> q.mask != 0))
  }

  predicate AllAskable(sh: Shared, rs: seq<Request>, readOnly: bool) {
    forall k :: 0 <= k < |rs| ==> Askable(sh, rs[k], readOnly)
  }

  function Puts(rs: seq<Request>): nat {
    if rs == [] then 0 else One(rs[0].Put?) + Puts(rs[1..])
  }

  function Asks(r: Request): Command {
    match r
    case Get(a) => Load(a)
    case Put(a, value, mask) => Store(a, value, mask)
  }

  lemma AskStep(s: State, i: nat, q: Request)
    requires Undisturbed(s, i) && s.txs[i].pc.Active? && Askable(s.sh, q, s.txs[i].readOnly)
    requires |s.txs[i].entries| + One(q.Put?) <= s.txs[i].size
    ensures Shape(s) && var r := Next(s, i, Asks(q));
            && Undisturbed(r, i) && r.sh == s.sh && Operating(r.txs[i].pc)
            && r.txs[i] == s.txs[i].(pc := r.txs[i].pc) && Length(r.txs[i]) <= |s.txs[i].entries| + One(q.Put?)
  {
    hide Inv, SharedShape, TxShape, TxOk, Current;
    var tx := s.txs[i];
    var c := Asks(q);
    var r := Step(s.sh, i, tx, c);
    ShapeNext(s, i, c);
    assert r == StepUser(s.sh, i, tx, c);
    CurrentMore(s.sh, i, tx, r.sh, r.tx, REntry(0, 0));
  }

  lemma {:induction false} DoesOne(s: State, i: nat, run: seq<Turn>, was: Attempt, r: State, at: Attempt, q: Request)
      returns (run': seq<Turn>, r': State)
    requires Leads(s, i, run, was, r, at) && Undisturbed(r, i) && r.txs[i].pc.Active?
    requires at.readOnly == r.txs[i].readOnly && Askable(r.sh, q, at.readOnly)
    requires |r.txs[i].entries| + One(q.Put?) <= r.txs[i].size
    ensures Leads(s, i, run', was, r', at.(requests := at.requests + [q])) && Undisturbed(r', i) && r'.txs[i].pc.Active?
    ensures Same(r, r', i, |r.txs[i].entries| + One(q.Put?))
  {
    hide Inv, Shape, Step, Clear, Operating, Undisturbed, Exec, AttemptOf;
    var c := Asks(q);
    AskStep(r, i, q);
    Further(s, i, run, was, r, at, c);
    assert Ask(r.sh, r.txs[i], c, at) == at.(requests := at.requests + [q]);
    hide Ask, Askable;
    run', r' := Completes(s, i, run + [Turn(i, c)], was, Next(r, i, c), at.(requests := at.requests + [q]));
  }

  /** What the program asks for is done, one request after another. */
  lemma {:induction false} Does(s: State, i: nat, run: seq<Turn>, was: Attempt, r: State, at: Attempt, rs: seq<Request>)
      returns (run': seq<Turn>, r': State)
    requires Leads(s, i, run, was, r, at) && Undisturbed(r, i) && r.txs[i].pc.Active?
    requires at.readOnly == r.txs[i].readOnly && AllAskable(r.sh, rs, at.readOnly)
    requires |r.txs[i].entries| + Puts(rs) <= r.txs[i].size
    ensures Leads(s, i, run', was, r', at.(requests := at.requests + rs)) && Undisturbed(r', i) && r'.txs[i].pc.Active?
    ensures Same(r, r', i, |r.txs[i].entries| + Puts(rs))
    decreases |rs|
  {
    hide Inv, Shape, Step, Clear, Operating, Undisturbed, Exec, AttemptOf;
    if rs == [] {
      assert at.(requests := at.requests + rs) == at;
      run', r' := run, r;
    } else {
      run', r' := DoesOne(s, i, run, was, r, at, rs[0]);
      assert AllAskable(r'.sh, rs[1..], at.readOnly);
      hide AllAskable;
      run', r' := Does(s, i, run', was, r', at.(requests := at.requests + [rs[0]]), rs[1..]);
      assert at.requests + rs == at.requests + [rs[0]] + rs[1..];
    }
  }

  /** The transaction with descriptor tx has been put on record: at the timestamp that follows, when it has written. */
  ghost predicate OnRecord(s: State, r: State, i: nat, tx: Tx) {
    if tx.entries == [] then
      r.sh == s.sh.(finished := s.sh.finished + [Finished(i, tx.log, tx.start, tx.end, s.sh.clock)])
    else
      r.sh.finished == s.sh.finished && OneMore(s.sh.h, r.sh.h, i, tx, Committed)
  }

  /** The program asks for a commit. */
  lemma {:induction false} Commits(s: State, i: nat, run: seq<Turn>, was: Attempt, r: State, at: Attempt)
      returns (run': seq<Turn>, r': State)
    requires Leads(s, i, run, was, r, at) && Undisturbed(r, i) && r.txs[i].pc.Active?
    ensures Leads(s, i, run', was, r', at.(ending := Committing))
    ensures Inv(r') && OthersIdle(r', i) && i < |r'.txs| && r'.txs[i].pc.Idle?
    ensures OnRecord(r, r', i, r.txs[i])
  {
    hide Inv, SharedShape, TxShape, TxOk, Current, Leads, Shape;
    var tx := r.txs[i];
    var c := Command.Commit;
    var at1 := at.(ending := Committing);
    ShapeNext(r, i, c);
    Further(s, i, run, was, r, at, c);
    assert Ask(r.sh, tx, c, at) == at1;
    run', r' := run + [Turn(i, c)], Next(r, i, c);
    if tx.entries != [] {
      CurrentMore(r.sh, i, tx, r'.sh, r'.txs[i], REntry(0, 0));
      assert Track(r.sh, r'.sh, i, r'.txs[i]);
      run', r' := Finishes(s, i, run', was, r', at1, r.sh);
    }
  }

  /** The log leads from the memory committed last to the new one. */
  lemma EffectOfCommit(s: State, r: State, i: nat)
    requires Inv(s) && i < |s.txs| && Inv(r) && Reachable(r) && |r.txs| == |s.txs| && OnRecord(s, r, i, s.txs[i])
    requires s.txs[i].entries != [] && forall j :: 0 <= j < |r.txs| ==> r.txs[j].pc.Idle?
    ensures Replay(MemoryAt(s.sh.h, |s.sh.h.commits|), s.txs[i].log) == Legal(r.sh.mem)
  {
    hide Inv, Reachable, Replay, MemoryAt;
    var n := |s.sh.h.commits|;
    Serializable(r, n + 1);
    AtRest(r);
    SameBefore(s.sh.h, r.sh.h, n);
  }

  /** While no transaction is active, memory is the last committed one. */
  lemma AtRest(s: State)
    requires Reachable(s) && forall j :: 0 <= j < |s.txs| ==> s.txs[j].pc.Idle?
    ensures s.sh.mem == MemoryAt(s.sh.h, |s.sh.h.commits|)
  {
    RolloverStartsAfresh(s);
  }

  lemma {:induction false} ReachableRun(s: State, run: seq<Turn>)
    requires Reachable(s)
    ensures Reachable(Exec(s, run))
    decreases |run|
  {
    hide Reachable, Shape, Next;
    if run != [] {
      var n := |run| - 1;
      ReachableRun(s, run[..n]);
      var t := Exec(s, run[..n]);
      if run[n].thread < |t.txs| { EtlRuns.ReachableNext(t, run[n].thread, run[n].command); }
    }
  }

  /** What the program has asked for is on record: without a timestamp, or at the one that follows. */
  ghost predicate Recorded(sh: Shared, r: State, i: nat, tx: Tx) {
    if tx.entries == [] then
      r.sh.h == sh.h && r.sh.finished == sh.finished + [Finished(i, tx.log, tx.start, tx.end, sh.clock)]
    else
      r.sh.finished == sh.finished && OneMore(sh.h, r.sh.h, i, tx, Committed)
  }

  lemma {:induction false} DoesAndCommits(s: State, i: nat, run0: seq<Turn>, was: Attempt, s0: State, at: Attempt,
                                          rs: seq<Request>)
      returns (run1: seq<Turn>, s1: State, run: seq<Turn>, r: State)
    requires Leads(s, i, run0, was, s0, at) && Undisturbed(s0, i) && s0.txs[i].pc.Active?
    requires at.readOnly == s0.txs[i].readOnly && AllAskable(s0.sh, rs, at.readOnly)
    requires |s0.txs[i].entries| + Puts(rs) <= s0.txs[i].size
    ensures Leads(s, i, run1, was, s1, at.(requests := at.requests + rs)) && s1.txs[i].pc.Active?
    ensures Same(s0, s1, i, |s0.txs[i].entries| + Puts(rs)) && OthersIdle(s1, i)
    ensures Leads(s, i, run, was, r, at.(requests := at.requests + rs, ending := Committing))
    ensures i < |s1.txs| == |r.txs| && OthersIdle(r, i) && r.txs[i].pc.Idle?
    ensures OnRecord(s1, r, i, s1.txs[i]) && Recorded(s0.sh, r, i, s1.txs[i])
  {
    hide Inv, Shape, Exec, AttemptOf, Clear, SharedShape, TxShape, AllAskable, OneMore;
    run1, s1 := Does(s, i, run0, was, s0, at, rs);
    run, r := Commits(s, i, run1, was, s1, at.(requests := at.requests + rs));
  }

  /** A transaction whose reads are still current, while all other threads are idle and its write set has room, makes
      whatever further accesses its program asks for, extends its snapshot where it has to, passes its validation, and
      is on record with exactly the requests of its program; and what it has stored is in memory. */
  lemma {:induction false} CommitsUndisturbed(s: State, i: nat, was: Attempt, rs: seq<Request>)
      returns (run: seq<Turn>, r: State, tx: Tx)
    requires Reachable(s) && Shape(s) && i < |s.txs| && OthersIdle(s, i) && s.txs[i].pc.Active?
    requires Current(s.sh, i, s.txs[i]) && s.sh.clock < s.sh.max
    requires s.txs[i].readOnly ==> s.txs[i].end == s.sh.clock
    requires InTune(s.txs[i], was) && AllAskable(s.sh, rs, s.txs[i].readOnly)
    requires |s.txs[i].entries| + Puts(rs) <= s.txs[i].size
    ensures By(run, i) && r == Exec(s, run) && i < |r.txs| && r.txs[i].pc.Idle?
    ensures AttemptOf(s, run, i, was) == was.(requests := was.requests + rs, ending := Committing)
    ensures Matches(tx.log, was.requests + rs) && tx.start == was.start && Recorded(s.sh, r, i, tx)
    ensures tx.entries != [] ==> Replay(MemoryAt(s.sh.h, |s.sh.h.commits|), tx.log) == Legal(r.sh.mem)
  {
    hide Reachable, Inv, Shape, Matches, Replay, MemoryAt, Current, Leads, InTune, Undisturbed, AllAskable, Recorded;
    hide OnRecord, OthersIdle, Exec, AttemptOf, By;
    Setup(s, i, was);
    var run1, s1;
    run1, s1, run, r := DoesAndCommits(s, i, [], was, s, was, rs);
    tx := s1.txs[i];
    Conclude(s, i, was, run1, s1, run, r, was.(requests := was.requests + rs));
  }

  lemma Setup(s: State, i: nat, was: Attempt)
    requires Reachable(s) && Shape(s) && i < |s.txs| && OthersIdle(s, i) && s.txs[i].pc.Active?
    requires Current(s.sh, i, s.txs[i]) && s.sh.clock < s.sh.max && (s.txs[i].readOnly ==> s.txs[i].end == s.sh.clock)
    requires InTune(s.txs[i], was)
    ensures Undisturbed(s, i) && was.readOnly == s.txs[i].readOnly && Leads(s, i, [], was, s, was)
  {
    InTuneActive(s.txs[i], was);
    ReachableInv(s);
    Own(s, i);
    hide Reachable, Inv, Shape, InTune, Current, TxOk, SharedShape, TxShape, Undisturbed, Leads;
    StartsClear(s, i);
    Nothing(s, i, was);
  }

  /** Once the commit is over: what is known of the log, and of memory. */
  lemma {:induction false} Conclude(s: State, i: nat, was: Attempt, run1: seq<Turn>, s1: State, run: seq<Turn>,
                                    r: State, at: Attempt)
    requires Reachable(s) && i < |s.txs| && InTune(s.txs[i], was)
    requires Leads(s, i, run1, was, s1, at) && Leads(s, i, run, was, r, at.(ending := Committing))
    requires i < |s1.txs| && s1.txs[i].pc.Active? && i < |r.txs| && r.txs[i].pc.Idle? && OthersIdle(r, i)
    requires s1.sh == s.sh.(mem := s1.sh.mem, locks := s1.sh.locks) && OnRecord(s1, r, i, s1.txs[i])
    ensures By(run, i) && r == Exec(s, run) && AttemptOf(s, run, i, was) == at.(ending := Committing)
    ensures Inv(s1) && Inv(r) && Reachable(r) && |s1.txs| == |r.txs|
    ensures Matches(s1.txs[i].log, at.requests) && s1.txs[i].start == at.start
    ensures s1.txs[i].entries != [] ==>
              Replay(MemoryAt(s.sh.h, |s.sh.h.commits|), s1.txs[i].log) == Legal(r.sh.mem)
  {
    hide Reachable, Inv, Matches, Replay, MemoryAt, Leads, InTune, OnRecord, Exec, AttemptOf, By;
    RunFacts(s, i, run1, was, s1, at);
    RunFacts(s, i, run, was, r, at.(ending := Committing));
    InTuneActive(s1.txs[i], at);
    if s1.txs[i].entries != [] { EffectOfCommit(s1, r, i); }
  }

  lemma StartsClear(s: State, i: nat)
    requires Inv(s) && i < |s.txs| && OthersIdle(s, i) && s.txs[i].pc.Active?
    requires SharedShape(s.sh) && TxShape(s.sh, s.txs[i])
    requires Current(s.sh, i, s.txs[i]) && s.sh.clock < s.sh.max && (s.txs[i].readOnly ==> s.txs[i].end == s.sh.clock)
    ensures Undisturbed(s, i)
  {
    hide Inv, SharedShape, TxShape, Current;
  }

  lemma InTuneActive(tx: Tx, at: Attempt)
    requires InTune(tx, at) && tx.pc.Active?
    ensures Matches(tx.log, at.requests) && tx.start == at.start && tx.readOnly == at.readOnly
  {
  }

  lemma {:induction false} RunFacts(s: State, i: nat, run: seq<Turn>, was: Attempt, r: State, at: Attempt)
    requires Reachable(s) && i < |s.txs| && InTune(s.txs[i], was) && Leads(s, i, run, was, r, at)
    ensures Reachable(r) && Inv(r) && |r.txs| == |s.txs| && InTune(r.txs[i], at)
    ensures By(run, i) && r == Exec(s, run) && AttemptOf(s, run, i, was) == at
  {
    hide Inv, Reachable, InTune, Exec, AttemptOf;
    ReachableInv(s);
    AllByOne(s, i, run);
    RunInTune(s, run, i, was);
    ReachableRun(s, run);
    ReachableInv(r);
  }

  lemma {:induction false} AllByOne(s: State, i: nat, run: seq<Turn>)
    requires i < |s.txs| && By(run, i)
    ensures Fits(s, run)
  {
  }

  /** A write-free transaction that is not older than memory replays on memory, and changes nothing. */
  lemma WriteFreeEffect(s: State, r: State, i: nat)
    requires Inv(s) && i < |s.txs| && Reachable(r) && forall j :: 0 <= j < |r.txs| ==> r.txs[j].pc.Idle?
    requires var tx := s.txs[i];
             tx.entries == [] && tx.start == |s.sh.h.commits| == s.sh.clock && Recorded(s.sh, r, i, tx)
    ensures Replay(MemoryAt(s.sh.h, |s.sh.h.commits|), s.txs[i].log) == Legal(r.sh.mem)
  {
    var tx := s.txs[i];
    var f := |r.sh.finished| - 1;
    Own(s, i);
    NotTouched(tx);
    hide Inv, Reachable, Replay, MemoryAt, TxOk, SharedShape, TxShape, Effect;
    WriteFree(r, f);
    AtRest(r);
    assert r.sh.finished[f] == Finished(i, tx.log, tx.start, tx.end, s.sh.clock);
    var m := MemoryAt(s.sh.h, |s.sh.h.commits|);
    ReplayEffect(m, tx.log);
    assert Replay(m, tx.log).mem == m;
  }

  lemma NotTouched(tx: Tx)
    requires Untouched(tx.log, tx.entries) && tx.entries == []
    ensures forall a: nat, x: Word :: Effect(tx.log, x, a) == x
  {
    assert forall a: nat :: !Stored(tx.entries, a);
  }

  lemma Begins(s: State, i: nat, readOnly: bool) returns (run: seq<Turn>, r: State)
    requires Reachable(s) && Shape(s) && i < |s.txs| && (forall j :: 0 <= j < |s.txs| ==> s.txs[j].pc.Idle?)
    requires s.sh.clock < s.sh.max
    ensures Leads(s, i, run, None, r, Attempt(readOnly, s.sh.clock, [], Going))
    ensures Undisturbed(r, i) && r.sh == s.sh && s.sh.clock == |s.sh.h.commits|
    ensures r.txs[i] == Tx(Active, readOnly, s.sh.clock, s.sh.clock, [], [], [], s.txs[i].size)
  {
    ReachableInv(s);
    var c := Begin(readOnly);
    Own(s, i);
    ShapeNext(s, i, c);
    Nothing(s, i, None);
    hide Inv, Shape, SharedShape, TxShape, TxOk, Reachable;
    Further(s, i, [], None, s, None, c);
    run, r := [Turn(i, c)], Next(s, i, c);
    assert [] + [Turn(i, c)] == run;
    hide Exec, AttemptOf;
  }

  /** From any reachable state with all threads idle: a transaction that begins, asks for the loads and stores `rs`, and
      commits, while nobody else moves and its write set has room, leaves in every word what its stores make of it,
      and each of its loads has returned what memory held with its own earlier stores on top. */
  lemma {:induction false} RunsUndisturbed(s: State, i: nat, readOnly: bool, rs: seq<Request>)
      returns (run: seq<Turn>, r: State, tx: Tx)
    requires Reachable(s) && Shape(s) && i < |s.txs| && (forall j :: 0 <= j < |s.txs| ==> s.txs[j].pc.Idle?)
    requires s.sh.clock < s.sh.max && AllAskable(s.sh, rs, readOnly) && Puts(rs) <= s.txs[i].size
    ensures By(run, i) && r == Exec(s, run) && i < |r.txs| && r.txs[i].pc.Idle?
    ensures AttemptOf(s, run, i, None) == Attempt(readOnly, s.sh.clock, rs, Committing)
    ensures Matches(tx.log, rs) && tx.start == s.sh.clock && Recorded(s.sh, r, i, tx) && |r.sh.mem| == |s.sh.mem|
    ensures forall a :: 0 <= a < |s.sh.mem| ==> r.sh.mem[a] == Result(rs, s.sh.mem[a], a)
    ensures forall k :: 0 <= k < |rs| && rs[k].Get? ==>
              rs[k].a < |s.sh.mem| && tx.log[k].value == Result(rs[..k], s.sh.mem[rs[k].a], rs[k].a)
  {
    hide Reachable, Inv, Shape, Matches, Replay, MemoryAt, Leads, InTune, Undisturbed, AllAskable, Recorded, OnRecord;
    hide Result, Exec, AttemptOf, By;
    var run0, s0 := Begins(s, i, readOnly);
    var at := Attempt(readOnly, s.sh.clock, [], Going);
    var run1, s1;
    run1, s1, run, r := DoesAndCommits(s, i, run0, None, s0, at, rs);
    tx := s1.txs[i];
    assert at.requests + rs == rs;
    StartsInTune(s, i);
    Conclude(s, i, None, run1, s1, run, r, at.(requests := rs));
    AtRest(s);
    Effects(s, s1, r, i);
    LegalResult(s.sh.mem, tx.log, rs);
  }

  lemma Effects(s: State, s1: State, r: State, i: nat)
    requires Inv(s1) && Reachable(r) && Inv(r) && i < |s1.txs| == |r.txs|
    requires forall j :: 0 <= j < |r.txs| ==> r.txs[j].pc.Idle?
    requires s1.sh == s.sh.(mem := s1.sh.mem, locks := s1.sh.locks)
    requires s.sh.mem == MemoryAt(s.sh.h, |s.sh.h.commits|) && s1.txs[i].start == s.sh.clock == |s.sh.h.commits|
    requires Recorded(s.sh, r, i, s1.txs[i]) && OnRecord(s1, r, i, s1.txs[i])
    ensures Replay(s.sh.mem, s1.txs[i].log) == Legal(r.sh.mem)
  {
    hide Inv, Reachable, Replay, MemoryAt, OneMore;
    if s1.txs[i].entries != [] { EffectOfCommit(s1, r, i); } else { WriteFreeEffect(s1, r, i); }
  }

  // ---- giving up ----

  /** How many accesses of a rollback are still to come, at most. */
  function Undone(tx: Tx): nat {
    var n := |tx.entries|;
    match tx.pc
    case Undo(k, _) => if k <= n then 3 * (n - k) + 1 else 0
    case UndoLock(k, t) => if k < n then 3 * (n - k) - One(t > 0) else 0
    case _ => 0
  }

  lemma UndoStep(sh: Shared, i: nat, tx: Tx)
    requires SharedShape(sh) && TxShape(sh, tx) && Undoing(tx.pc)
    ensures var r := if tx.pc.Undo? then StepUndo(sh, tx) else StepUndoLock(sh, i, tx);
            (Undoing(r.tx.pc) || r.tx.pc.Idle?) && Undone(r.tx) < Undone(tx)
  {
    hide SetsShape, SharedShape;
  }

  /** A rollback under way ends, after at most as many turns of the thread as `Undone` says, and then the thread holds
      no lock. */
  lemma {:induction false} RollsBack(s: State, i: nat) returns (run: seq<Turn>)
    requires Inv(s) && i < |s.txs| && Undoing(s.txs[i].pc)
    ensures By(run, i) && |run| <= Undone(s.txs[i]) && i < |Exec(s, run).txs| && Exec(s, run).txs[i].pc.Idle?
    ensures forall l :: 0 <= l < |Exec(s, run).sh.locks| ==> !OwnLock(Exec(s, run).sh, i, l)
    decreases Undone(s.txs[i])
  {
    hide Inv, SharedShape, TxShape, StepUndo, StepUndoLock, OwnLock, TxOk, Shape, Undone, Exec;
    var c := Begin(false);
    ShapeNext(s, i, c);
    UndoStep(s.sh, i, s.txs[i]);
    var r := Next(s, i, c);
    OneTurn(s, i, c);
    hide Step;
    if Undoing(r.txs[i].pc) {
      var rest := RollsBack(r, i);
      run := [Turn(i, c)] + rest;
      ExecThen(s, [Turn(i, c)], rest);
    } else {
      run := [Turn(i, c)];
      IdleHoldsNothing(r, i);
    }
  }

  lemma OneTurn(s: State, i: nat, c: Command)
    requires Shape(s) && i < |s.txs|
    ensures Exec(s, [Turn(i, c)]) == Next(s, i, c)
  {
    hide Next, Shape;
    assert [Turn(i, c)][..0] == [];
    assert Exec(s, []) == s;
  }

  lemma {:induction false} ExecThen(s: State, first: seq<Turn>, more: seq<Turn>)
    ensures Exec(s, first + more) == Exec(Exec(s, first), more)
    decreases |more|
  {
    hide Shape, Next;
    if more == [] {
      assert first + more == first;
    } else {
      assert (first + more)[..|first + more| - 1] == first + more[..|more| - 1];
      ExecThen(s, first, more[..|more| - 1]);
    }
  }

  predicate HeldByOther(sh: Shared, i: nat, l: nat) {
    l < |sh.locks| && sh.locks[l].Held? && sh.locks[l].owner != i
  }

  /** Since the lock was read with this version, somebody else has taken it, or has released it with another one. */
  predicate Changed(sh: Shared, i: nat, r: REntry) {
    HeldByOther(sh, i, r.lock)
    || (r.lock < |sh.vers| && r.lock < |sh.locks| && sh.locks[r.lock].Free? && sh.vers[r.lock].version != r.version)
  }

  /** An entry that a lock of the thread points to is there. */
  lemma EntryThere(s: State, i: nat, l: nat)
    requires Inv(s) && i < |s.txs| && l < |s.sh.locks|
    ensures OwnLock(s.sh, i, l) ==> s.sh.locks[l].entry < |s.txs[i].entries|
    ensures l < |s.sh.vers| && (s.sh.locks[l].Free? ==> s.sh.locks[l].stamp == s.sh.vers[l])
  {
    assert Owned(s, l);
    if OwnLock(s.sh, i, l) {
      assert TxOk(s.sh, i, s.txs[i]);
      var k :| Pos(s.txs[i]) <= k < |s.txs[i].entries| && UnderLock(s.sh.h.lockOf, s.txs[i].entries, k, l);
      assert EntryHeld(s.sh, i, s.txs[i], k);
    }
    hide TxsOk, PendingOk, MemoryOk, PastOk, Shape, LogOk, SnapshotOk, RunOk, PcOk, StampOk, ChainsOk, EntryValues,
         Untouched;
  }

  /** Validation fails for an entry if and only if its lock has changed. */
  lemma ValidIffUnchanged(s: State, i: nat, k: nat)
    requires Reachable(s) && i < |s.txs| && k < |s.txs[i].rset|
    ensures Shape(s) && TxShape(s.sh, s.txs[i])
    ensures EntryValid(s.sh, i, s.txs[i], k) <==> !Changed(s.sh, i, s.txs[i].rset[k])
  {
    ReachableInv(s);
    Own(s, i);
    EntryThere(s, i, s.txs[i].rset[k].lock);
    hide Inv, TxOk, Reachable;
  }

  /** Why an attempt may end without a commit: the program aborts it; a lock that it needs is another thread's; what it
      has read has changed; a read-only transaction comes upon a version newer than its snapshot; a writer comes upon
      one under a lock it has read; its write set is full; or the clock is at its end. */
  predicate MayGiveUp(sh: Shared, i: nat, tx: Tx, c: Command) {
    match tx.pc
    case Active => c.Abort?
    case RLoadLock(a) => HeldByOther(sh, i, Lk(sh, a))
    case RReloadLock(a, v, _) => HeldByOther(sh, i, Lk(sh, a)) || (tx.readOnly && v.version > tx.end)
    case RRecheck(a, _, _) => HeldByOther(sh, i, Lk(sh, a))
    case RClock(_, _, _) => sh.clock >= sh.max
    case RExtend(_, _, _, _, k) => k < |tx.rset| && Changed(sh, i, tx.rset[k])
    case WLoadLock(a, _, _) =>
      || HeldByOther(sh, i, Lk(sh, a)) || |tx.entries| == tx.size
      || (Lk(sh, a) < |sh.vers| && sh.vers[Lk(sh, a)].version > tx.end && HasRead(tx.rset, Lk(sh, a)))
    case Validate(t, k) => (k == 0 ==> tx.start != t - 1) && k < |tx.rset| && Changed(sh, i, tx.rset[k])
    case _ => false
  }

  predicate Over(pc: Pc) {
    Undoing(pc) || pc.Idle?
  }

  /** No attempt is given up for another reason. */
  lemma {:induction false} GivesUpOnlyFor(s: State, i: nat, c: Command)
    requires Reachable(s) && Shape(s) && i < |s.txs| && !Over(s.txs[i].pc)
    ensures Over(Next(s, i, c).txs[i].pc) && !s.txs[i].pc.Install? && !(s.txs[i].pc.Active? && c.Commit?)
            ==> MayGiveUp(s.sh, i, s.txs[i], c)
  {
    hide StepUser, StepLoads, StepReload, StepExtend, StepRecheck, StepWrite, StepCas, StepWLoad, StepWStore, Reachable;
    hide StepTime, StepValidate, StepInstall, StepRelease, StepUndo, StepUndoLock, MayGiveUp, TxShape, SharedShape;
    ShapeParts(s, i);
    var tx := s.txs[i];
    match tx.pc {
      case RExtend(_, _, _, _, _) => ValidationGivesUp(s, i, c);
      case Validate(_, _) => ValidationGivesUp(s, i, c);
      case WLoadLock(_, _, _) => WriteGivesUp(s, i, c);
      case RLoadLock(_) => ReadGivesUp(s, i, c);
      case RReloadLock(_, _, _) => ReadGivesUp(s, i, c);
      case RRecheck(_, _, _) => ReadGivesUp(s, i, c);
      case _ => OtherGivesUp(s.sh, i, tx, c);
    }
  }

  lemma ReadGivesUp(s: State, i: nat, c: Command)
    requires Reachable(s) && Shape(s) && i < |s.txs|
    requires var pc := s.txs[i].pc; pc.RLoadLock? || pc.RReloadLock? || pc.RRecheck?
    ensures SharedShape(s.sh) && TxShape(s.sh, s.txs[i])
    ensures Over(Step(s.sh, i, s.txs[i], c).tx.pc) ==> MayGiveUp(s.sh, i, s.txs[i], c)
  {
    ReachableInv(s);
    ShapeParts(s, i);
    var a := s.txs[i].pc.a;
    EntryThere(s, i, Lk(s.sh, a));
    hide Inv, SetsShape, Reachable, ReadWith, WithRead;
    LoadedGoesOn(s.sh, i, s.txs[i], a, s.sh.locks[Lk(s.sh, a)]);
  }

  lemma LoadedGoesOn(sh: Shared, i: nat, tx: Tx, a: nat, l: LockWord)
    requires l.Free? || l.owner != i || l.entry < |tx.entries|
    ensures Over(ReadWith(sh, i, tx, a, l).tx.pc) ==> l.Held? && l.owner != i
  {
    hide ChainFind, Base;
  }

  lemma WriteGivesUp(s: State, i: nat, c: Command)
    requires Reachable(s) && Shape(s) && i < |s.txs| && s.txs[i].pc.WLoadLock?
    ensures SharedShape(s.sh) && TxShape(s.sh, s.txs[i])
    ensures Over(Step(s.sh, i, s.txs[i], c).tx.pc) ==> MayGiveUp(s.sh, i, s.txs[i], c)
  {
    ReachableInv(s);
    ShapeParts(s, i);
    var tx := s.txs[i];
    EntryThere(s, i, Lk(s.sh, tx.pc.a));
    hide Inv, SetsShape, Reachable, StepWrite, PcShape;
    WriteGoesOn(s.sh, i, tx);
  }

  lemma WriteGoesOn(sh: Shared, i: nat, tx: Tx)
    requires SharedShape(sh) && TxShape(sh, tx) && tx.pc.WLoadLock?
    requires var w := sh.locks[Lk(sh, tx.pc.a)]; w.Free? || w.owner != i || w.entry < |tx.entries|
    ensures Over(StepWrite(sh, i, tx).tx.pc) ==>
              var w := sh.locks[Lk(sh, tx.pc.a)];
              || |tx.entries| == tx.size || (w.Held? && w.owner != i)
              || (w.Free? && w.stamp.version > tx.end && HasRead(tx.rset, Lk(sh, tx.pc.a)))
  {
    hide SetsShape, ChainFind, ChainLast, WriteEntry, HasRead, Linked;
    var WLoadLock(a, value, mask) := tx.pc;
    var w := sh.locks[Lk(sh, a)];
    if w.Held? && w.owner == i {
      var k := ChainFind(tx.entries, w.entry, a);
      if k < |tx.entries| {
        EntryGoesOn(sh, tx, tx.entries, k, value, mask);
      } else {
        LinkedGoesOn(sh, tx, w.entry, a, value, mask);
      }
    }
  }

  lemma LinkedGoesOn(sh: Shared, tx: Tx, e: nat, a: nat, value: Word, mask: Word)
    requires e < |tx.entries|
    ensures var es := Linked(tx.entries, ChainLast(tx.entries, e), a);
            |tx.entries| < |es| && !Over(WriteEntry(sh, tx, es, |tx.entries|, value, mask).tx.pc)
  {
    hide WriteEntry;
    EntryGoesOn(sh, tx, Linked(tx.entries, ChainLast(tx.entries, e), a), |tx.entries|, value, mask);
  }

  lemma EntryGoesOn(sh: Shared, tx: Tx, es: seq<WEntry>, k: nat, value: Word, mask: Word)
    requires k < |es|
    ensures !Over(WriteEntry(sh, tx, es, k, value, mask).tx.pc)
  {
    hide Merge, Join;
  }

  lemma ValidationGivesUp(s: State, i: nat, c: Command)
    requires Reachable(s) && Shape(s) && i < |s.txs| && (s.txs[i].pc.RExtend? || s.txs[i].pc.Validate?)
    ensures SharedShape(s.sh) && TxShape(s.sh, s.txs[i])
    ensures Over(Step(s.sh, i, s.txs[i], c).tx.pc) ==> MayGiveUp(s.sh, i, s.txs[i], c)
  {
    ShapeParts(s, i);
    if s.txs[i].pc.k < |s.txs[i].rset| { ValidIffUnchanged(s, i, s.txs[i].pc.k); }
    hide Reachable, SetsShape, EntryValid, Changed, Shape, SharedShape;
  }

  lemma OtherGivesUp(sh: Shared, i: nat, tx: Tx, c: Command)
    requires SharedShape(sh) && TxShape(sh, tx) && !Over(tx.pc)
    requires !tx.pc.RExtend? && !tx.pc.Validate? && !tx.pc.WLoadLock?
    requires !tx.pc.RLoadLock? && !tx.pc.RReloadLock? && !tx.pc.RRecheck?
    ensures Over(Step(sh, i, tx, c).tx.pc) && !tx.pc.Install? && !(tx.pc.Active? && c.Commit?)
            ==> MayGiveUp(sh, i, tx, c)
  {
    hide SetsShape, Merge, Join, Base, WriteEntry, Updates;
    if tx.pc.WCas? {
      var WCas(a, value, mask, v) := tx.pc;
      var taken := sh.(locks := sh.locks[Lk(sh, a) := Held(i, |tx.entries|)]);
      EntryGoesOn(taken, tx, Acquired(tx.entries, a, v), |tx.entries|, value, mask);
    }
  }
}
