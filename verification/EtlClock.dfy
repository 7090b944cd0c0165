/** How far the clock can get in the encounter-time locking designs. An attempt that has not yet begun to commit may
    take one timestamp in the write-back design; in the write-through design two, since its rollback may take one
    when its commit has failed. VERSION_MAX keeps others from starting. */
module EtlClock {
  import opened CommitHistory
  import opened EtlMachine
  import opened EtlInvariant
  import opened EtlTheorems
  import ClockBarrier

  function Most(d: Design): nat {
    if d.WriteBack? then 1 else 2
  }

  /** The timestamps that the attempt may still take. */
  function Due(d: Design, pc: Pc): nat {
    match pc
    case Idle => 0
    case Validate(_, _) => Most(d) - 1
    case Install(_, _) => 0
    case Release(_, _) => 0
    case Undo(_, t) => if t == 0 then Most(d) - 1 else 0
    case UndoLock(_, t) => if t == 0 then Most(d) - 1 else 0
    case _ => Most(d)
  }

  /** The timestamps that one step takes. */
  predicate Takes(sh: Shared, tx: Tx, r: After) {
    && r.sh.max == sh.max && r.sh.design == sh.design && sh.clock <= r.sh.clock <= sh.clock + 1
    && (r.sh.clock > sh.clock ==> !tx.pc.Idle? && !r.tx.pc.Idle?)
    && if tx.pc.Idle? then r.tx.pc.Idle? || sh.clock < sh.max
       else r.sh.clock - sh.clock + Due(sh.design, r.tx.pc) <= Due(sh.design, tx.pc)
  }

  lemma UserTakes(sh: Shared, i: nat, tx: Tx, c: Command)
    requires tx.pc.Idle? || tx.pc.Active?
    ensures Takes(sh, tx, StepUser(sh, i, tx, c))
  {
  }

  lemma ReadTakes(sh: Shared, i: nat, tx: Tx)
    requires SharedShape(sh) && TxShape(sh, tx)
    ensures tx.pc.RLoadLock? || tx.pc.RLoadValue? || tx.pc.RClock? || tx.pc.ROwn? ==>
            Takes(sh, tx, StepLoads(sh, i, tx))
    ensures tx.pc.RReloadLock? ==> Takes(sh, tx, StepReload(sh, i, tx))
    ensures tx.pc.RExtend? ==> Takes(sh, tx, StepExtend(sh, i, tx))
    ensures tx.pc.RRecheck? ==> Takes(sh, tx, StepRecheck(sh, i, tx))
  {
    hide SetsShape, ChainFind, EntryValid, Base, WithRead;
  }

  lemma EntryTakes(sh: Shared, tx: Tx, es: seq<WEntry>, k: nat, value: Word, mask: Word)
    requires k < |es| && (tx.pc.WLoadLock? || tx.pc.WCas?)
    ensures Takes(sh, tx, WriteEntry(sh, tx, es, k, value, mask))
  {
    hide Merge, Join;
  }

  lemma WriteTakes(sh: Shared, i: nat, tx: Tx)
    requires SharedShape(sh) && TxShape(sh, tx) && tx.pc.WLoadLock?
    ensures Takes(sh, tx, StepWrite(sh, i, tx))
  {
    hide SetsShape, ChainFind, ChainLast, WriteEntry, HasRead;
    var WLoadLock(a, value, mask) := tx.pc;
    var w := sh.locks[Lk(sh, a)];
    if w.Held? && w.entry < |tx.entries| {
      var k := ChainFind(tx.entries, w.entry, a);
      if k < |tx.entries| {
        EntryTakes(sh, tx, tx.entries, k, value, mask);
      }
      EntryTakes(sh, tx, Linked(tx.entries, ChainLast(tx.entries, w.entry), a), |tx.entries|, value, mask);
    }
  }

  lemma CasTakes(sh: Shared, i: nat, tx: Tx)
    requires SharedShape(sh) && TxShape(sh, tx) && tx.pc.WCas?
    ensures Takes(sh, tx, StepCas(sh, i, tx))
  {
    hide SetsShape, WriteEntry;
    var WCas(a, value, mask, v) := tx.pc;
    var taken := sh.(locks := sh.locks[Lk(sh, a) := Held(i, |tx.entries|)]);
    EntryTakes(taken, tx, Acquired(tx.entries, a, v), |tx.entries|, value, mask);
  }

  lemma StoreTakes(sh: Shared, i: nat, tx: Tx)
    requires SharedShape(sh) && TxShape(sh, tx)
    ensures tx.pc.WLoad? ==> Takes(sh, tx, StepWLoad(sh, tx))
    ensures tx.pc.WStore? ==> Takes(sh, tx, StepWStore(sh, tx))
    ensures tx.pc.TakeTime? ==> Takes(sh, tx, StepTime(sh, i, tx))
  {
    hide SetsShape, Merge, Join, Updates;
  }

  lemma CommitTakes(sh: Shared, i: nat, tx: Tx)
    requires SharedShape(sh) && TxShape(sh, tx)
    ensures tx.pc.Validate? ==> Takes(sh, tx, StepValidate(sh, i, tx))
    ensures tx.pc.Install? ==> Takes(sh, tx, StepInstall(sh, tx))
    ensures tx.pc.Release? ==> Takes(sh, tx, StepRelease(sh, tx))
  {
    hide SetsShape, EntryValid, Record;
  }

  lemma UndoTakes(sh: Shared, i: nat, tx: Tx)
    requires SharedShape(sh) && TxShape(sh, tx)
    ensures tx.pc.Undo? ==> Takes(sh, tx, StepUndo(sh, tx))
    ensures tx.pc.UndoLock? ==> Takes(sh, tx, StepUndoLock(sh, i, tx))
  {
    hide SetsShape;
  }

  lemma StepTakes(sh: Shared, i: nat, tx: Tx, c: Command)
    requires SharedShape(sh) && TxShape(sh, tx)
    ensures Takes(sh, tx, Step(sh, i, tx, c))
  {
    hide SharedShape, TxShape, Takes, StepUser, StepLoads, StepReload, StepExtend, StepRecheck, StepWrite, StepCas;
    hide StepWLoad, StepWStore, StepTime, StepValidate, StepInstall, StepRelease, StepUndo, StepUndoLock;
    if tx.pc.Idle? || tx.pc.Active? { UserTakes(sh, i, tx, c); }
    if tx.pc.WLoadLock? { WriteTakes(sh, i, tx); }
    if tx.pc.WCas? { CasTakes(sh, i, tx); }
    ReadTakes(sh, i, tx);
    StoreTakes(sh, i, tx);
    CommitTakes(sh, i, tx);
    UndoTakes(sh, i, tx);
  }

  /** The threads as the barrier sees them, when all are registered. */
  function Pcs(d: Design, txs: seq<Tx>): (pc: seq<ClockBarrier.Pc>)
    ensures |pc| == |txs|
  {
    seq(|txs|, i requires 0 <= i < |txs| =>
      if txs[i].pc.Idle? then ClockBarrier.Outside else ClockBarrier.Running(Most(d) - Due(d, txs[i].pc)))
  }

  ghost predicate ClockOk(s: State) {
    s.sh.clock >= s.sh.max > 0 ==>
      s.sh.clock + ClockBarrier.AllDue(Most(s.sh.design), Pcs(s.sh.design, s.txs))
      <= s.sh.max - 1 + Most(s.sh.design) * |s.txs|
  }

  lemma ClockKept(s: State, i: nat, c: Command)
    requires Shape(s) && i < |s.txs| && ClockOk(s)
    ensures ClockOk(Next(s, i, c))
  {
    var d, most := s.sh.design, Most(s.sh.design);
    var r := Step(s.sh, i, s.txs[i], c);
    var pcs, pcs' := Pcs(d, s.txs), Pcs(d, s.txs[i := r.tx]);
    StepTakes(s.sh, i, s.txs[i], c);
    hide Step, Shape;
    assert pcs' == pcs[i := pcs'[i]];
    ClockBarrier.CountUpdate(most, pcs, i, pcs'[i]);
    ClockBarrier.DueBound(most, pcs);
    ClockBarrier.DueBound(most, pcs');
  }

  lemma {:induction false} ExecClock(s: State, run: seq<Turn>)
    requires ClockOk(s)
    ensures ClockOk(Exec(s, run))
    decreases |run|
  {
    hide Shape, Next, ClockOk;
    if run != [] {
      var n := |run| - 1;
      ExecClock(s, run[..n]);
      var before := Exec(s, run[..n]);
      if Shape(before) && run[n].thread < |before.txs| { ClockKept(before, run[n].thread, run[n].command); }
    }
  }

  lemma InitialClock(s: State)
    requires Initial(s)
    ensures ClockOk(s)
  {
  }

  /** The clock stays below VERSION_MAX plus the number of threads, or twice the number of threads in the
      write-through design. */
  lemma ClockIsBounded(s: State)
    requires Reachable(s) && s.sh.max > 0
    ensures s.sh.clock <= s.sh.max - 1 + (if s.sh.design.WriteBack? then |s.txs| else 2 * |s.txs|)
  {
    var s0: State, run: seq<Turn> :| Initial(s0) && s == Exec(s0, run);
    InitialClock(s0);
    ExecClock(s0, run);
    hide Exec, Initial, Reachable;
  }

  // ---- one thread ----

  /** Nobody else moves the clock, so that the thread validates nothing, and its rollback takes a timestamp only
      when its commit has taken none. */
  predicate LoneOk(sh: Shared, tx: Tx) {
    && sh.clock <= sh.max
    && match tx.pc
       case Idle => true
       case Validate(t, k) => k == 0 && tx.start == t - 1
       case Install(_, _) => true
       case Release(_, _) => true
       case Undo(_, t) => t == 0 ==> sh.clock < sh.max
       case UndoLock(_, t) => t == 0 ==> sh.clock < sh.max
       case _ => tx.start == sh.clock < sh.max
  }

  lemma LoneWrites(sh: Shared, i: nat, tx: Tx)
    requires SharedShape(sh) && TxShape(sh, tx) && LoneOk(sh, tx)
    ensures tx.pc.WLoadLock? ==> LoneOk(StepWrite(sh, i, tx).sh, StepWrite(sh, i, tx).tx)
    ensures tx.pc.WCas? ==> LoneOk(StepCas(sh, i, tx).sh, StepCas(sh, i, tx).tx)
  {
    hide SetsShape, ChainFind, ChainLast, HasRead, Merge, Join, Linked;
  }

  lemma LoneLoads(sh: Shared, i: nat, tx: Tx)
    requires SharedShape(sh) && TxShape(sh, tx) && LoneOk(sh, tx)
    ensures tx.pc.RLoadLock? || tx.pc.RLoadValue? || tx.pc.RClock? || tx.pc.ROwn? ==>
              LoneOk(StepLoads(sh, i, tx).sh, StepLoads(sh, i, tx).tx)
    ensures tx.pc.RExtend? ==> LoneOk(StepExtend(sh, i, tx).sh, StepExtend(sh, i, tx).tx)
  {
    hide SetsShape, ChainFind, EntryValid, Base, WithRead;
  }

  lemma LoneReloads(sh: Shared, i: nat, tx: Tx)
    requires SharedShape(sh) && TxShape(sh, tx) && LoneOk(sh, tx)
    ensures tx.pc.RReloadLock? ==> LoneOk(StepReload(sh, i, tx).sh, StepReload(sh, i, tx).tx)
    ensures tx.pc.RRecheck? ==> LoneOk(StepRecheck(sh, i, tx).sh, StepRecheck(sh, i, tx).tx)
  {
    hide SetsShape, ChainFind, Base, WithRead;
  }

  lemma LoneCommits(sh: Shared, i: nat, tx: Tx)
    requires SharedShape(sh) && TxShape(sh, tx) && LoneOk(sh, tx)
    ensures tx.pc.TakeTime? ==> LoneOk(StepTime(sh, i, tx).sh, StepTime(sh, i, tx).tx)
    ensures tx.pc.Validate? ==> LoneOk(StepValidate(sh, i, tx).sh, StepValidate(sh, i, tx).tx)
    ensures tx.pc.Undo? ==> LoneOk(StepUndo(sh, tx).sh, StepUndo(sh, tx).tx)
    ensures tx.pc.UndoLock? ==> LoneOk(StepUndoLock(sh, i, tx).sh, StepUndoLock(sh, i, tx).tx)
  {
    hide SetsShape, EntryValid, Updates, Record;
  }

  lemma LoneStep(sh: Shared, i: nat, tx: Tx, c: Command)
    requires SharedShape(sh) && TxShape(sh, tx) && LoneOk(sh, tx)
    ensures LoneOk(Step(sh, i, tx, c).sh, Step(sh, i, tx, c).tx)
  {
    hide SetsShape, Merge, Join;
    hide StepLoads, StepReload, StepExtend, StepRecheck, StepWrite, StepCas, StepTime, StepValidate, StepUndo,
         StepUndoLock;
    LoneLoads(sh, i, tx);
    LoneReloads(sh, i, tx);
    LoneWrites(sh, i, tx);
    LoneCommits(sh, i, tx);
  }

  ghost predicate Lone(s: State) {
    |s.txs| == 1 && LoneOk(s.sh, s.txs[0])
  }

  lemma {:induction false} ExecLone(s: State, run: seq<Turn>)
    requires Lone(s)
    ensures Lone(Exec(s, run))
    decreases |run|
  {
    hide Step, LoneOk;
    if run != [] {
      var n := |run| - 1;
      ExecLone(s, run[..n]);
      var before := Exec(s, run[..n]);
      if Shape(before) && run[n].thread < |before.txs| {
        LoneStep(before.sh, 0, before.txs[0], run[n].command);
      }
    }
  }

  lemma {:induction false} SameThreads(s: State, run: seq<Turn>)
    ensures |Exec(s, run).txs| == |s.txs|
    decreases |run|
  {
    hide Step, Shape;
    if run != [] { SameThreads(s, run[..|run| - 1]); }
  }

  /** One thread alone never takes the clock beyond VERSION_MAX, in either design. */
  lemma LoneClock(s: State)
    requires Reachable(s) && |s.txs| == 1
    ensures s.sh.clock <= s.sh.max
  {
    var s0: State, run: seq<Turn> :| Initial(s0) && s == Exec(s0, run);
    SameThreads(s0, run);
    ExecLone(s0, run);
    hide Exec;
  }
}
