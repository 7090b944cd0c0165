/** Encounter-time locking never waits: whatever the other threads hold, a thread that goes on by itself completes its
    operation, or its commit, or gives up and has rolled back. */
module EtlProgress {
  import opened Counting
  import opened CommitHistory
  import opened EtlMachine
  import opened EtlInvariant
  import opened EtlTheorems
  import opened EtlCommands
  import opened EtlAlone

  /** The lock is still what the thread has seen. */
  predicate Fresh(sh: Shared, a: nat, v: Stamp) {
    Lk(sh, a) < |sh.locks| && sh.locks[Lk(sh, a)] == LockWord.Free(v)
  }

  /** What a lock that has changed since costs: it is looked at once more. */
  function Again(sh: Shared, tx: Tx, a: nat, v: Stamp): nat {
    if Fresh(sh, a, v) then 0 else 2 * |tx.rset| + 12
  }

  /** How many accesses are still to come, at most, the rollback included. */
  function Bound(sh: Shared, tx: Tx): nat {
    var n, m := |tx.entries|, |tx.rset|;
    match tx.pc
    case Idle => 0
    case Active => 0
    case Undo(_, _) => Undone(tx)
    case UndoLock(_, _) => Undone(tx)
    case RLoadLock(_) => 3 * n + 5 + 2 * m + 10
    case RLoadValue(a, v) => 3 * n + 5 + 2 * m + 9 + Again(sh, tx, a, v)
    case RReloadLock(a, v, _) => 3 * n + 5 + 2 * m + 8 + Again(sh, tx, a, v)
    case RClock(a, v, _) => 3 * n + 5 + m + 5 + Again(sh, tx, a, v)
    case RExtend(a, v, _, _, k) => 3 * n + 5 + (if k <= m then m - k else 0) + 3 + Again(sh, tx, a, v)
    case RRecheck(a, v, _) => 3 * n + 5 + 2 + Again(sh, tx, a, v)
    case ROwn(_) => 3 * n + 5
    case WLoadLock(_, _, _) => 3 * n + 20
    case WCas(a, _, _, v) => if Fresh(sh, a, v) then 3 * n + 19 else 3 * n + 21
    case WLoad(_, _, _) => 3 * n + 10
    case WStore(_, _, _, _) => 3 * n + 9
    case TakeTime => 3 * n + 5 + m + 2 * n + 4
    case Validate(_, k) => 3 * n + 5 + (if k <= m then m - k else 0) + 2 * n + 3
    case Install(_, k) => if k <= n then 2 * (n - k) + 1 else 0
    case Release(_, k) => if k <= n then 2 * (n - k) else 0
  }

  lemma UndoneBound(tx: Tx)
    ensures Undone(tx) <= 3 * |tx.entries| + 1
  {
  }

  lemma LoadsFall(sh: Shared, i: nat, tx: Tx)
    requires SharedShape(sh) && TxShape(sh, tx)
    requires tx.pc.RLoadLock? || tx.pc.RLoadValue? || tx.pc.RClock? || tx.pc.ROwn?
    ensures var r := StepLoads(sh, i, tx); Bound(r.sh, r.tx) < Bound(sh, tx)
  {
    hide SetsShape, ChainFind, Base;
  }

  lemma ReloadFalls(sh: Shared, i: nat, tx: Tx)
    requires SharedShape(sh) && TxShape(sh, tx) && tx.pc.RReloadLock?
    ensures var r := StepReload(sh, i, tx); Bound(r.sh, r.tx) < Bound(sh, tx)
  {
    hide SetsShape, ChainFind, Base;
  }

  lemma ExtendFalls(sh: Shared, i: nat, tx: Tx)
    requires SharedShape(sh) && TxShape(sh, tx)
    ensures tx.pc.RExtend? ==> var r := StepExtend(sh, i, tx); Bound(r.sh, r.tx) < Bound(sh, tx)
    ensures tx.pc.RRecheck? ==> var r := StepRecheck(sh, i, tx); Bound(r.sh, r.tx) < Bound(sh, tx)
  {
    hide SetsShape, ChainFind, Base, EntryValid;
  }

  lemma EntryFalls(sh: Shared, tx: Tx, es: seq<WEntry>, k: nat, value: Word, mask: Word)
    requires k < |es| && |es| <= |tx.entries| + 1
    ensures var r := WriteEntry(sh, tx, es, k, value, mask); Bound(r.sh, r.tx) < 3 * |tx.entries| + 19
  {
    hide Merge, Join;
  }

  lemma WriteFalls(sh: Shared, i: nat, tx: Tx)
    requires SharedShape(sh) && TxShape(sh, tx) && tx.pc.WLoadLock?
    ensures var r := StepWrite(sh, i, tx); Bound(r.sh, r.tx) < Bound(sh, tx)
  {
    hide SetsShape, ChainFind, ChainLast, WriteEntry, HasRead, Linked;
    var WLoadLock(a, value, mask) := tx.pc;
    var w := sh.locks[Lk(sh, a)];
    if w.Held? && w.owner == i && w.entry < |tx.entries| {
      var k := ChainFind(tx.entries, w.entry, a);
      if k < |tx.entries| {
        EntryFalls(sh, tx, tx.entries, k, value, mask);
      } else {
        LinkedFalls(sh, tx, w.entry, a, value, mask);
      }
    }
  }

  lemma LinkedFalls(sh: Shared, tx: Tx, e: nat, a: nat, value: Word, mask: Word)
    requires e < |tx.entries|
    ensures var es := Linked(tx.entries, ChainLast(tx.entries, e), a);
            && |tx.entries| < |es|
            && var r := WriteEntry(sh, tx, es, |tx.entries|, value, mask);
               Bound(r.sh, r.tx) < 3 * |tx.entries| + 19
  {
    hide WriteEntry, Bound;
    EntryFalls(sh, tx, Linked(tx.entries, ChainLast(tx.entries, e), a), |tx.entries|, value, mask);
  }

  lemma StoreFalls(sh: Shared, i: nat, tx: Tx)
    requires SharedShape(sh) && TxShape(sh, tx)
    ensures tx.pc.WCas? ==> var r := StepCas(sh, i, tx); Bound(r.sh, r.tx) < Bound(sh, tx)
    ensures tx.pc.WLoad? ==> var r := StepWLoad(sh, tx); Bound(r.sh, r.tx) < Bound(sh, tx)
    ensures tx.pc.WStore? ==> var r := StepWStore(sh, tx); Bound(r.sh, r.tx) < Bound(sh, tx)
  {
    hide SetsShape, WriteEntry, Merge, Join;
    if tx.pc.WCas? {
      var WCas(a, value, mask, v) := tx.pc;
      var taken := sh.(locks := sh.locks[Lk(sh, a) := Held(i, |tx.entries|)]);
      EntryFalls(taken, tx, Acquired(tx.entries, a, v), |tx.entries|, value, mask);
    }
  }

  lemma CommitFalls(sh: Shared, i: nat, tx: Tx)
    requires SharedShape(sh) && TxShape(sh, tx)
    ensures tx.pc.TakeTime? ==> var r := StepTime(sh, i, tx); Bound(r.sh, r.tx) < Bound(sh, tx)
    ensures tx.pc.Validate? ==> var r := StepValidate(sh, i, tx); Bound(r.sh, r.tx) < Bound(sh, tx)
  {
    hide SetsShape, EntryValid, Record, Updates;
  }

  lemma InstallFalls(sh: Shared, tx: Tx)
    requires SharedShape(sh) && TxShape(sh, tx)
    ensures tx.pc.Install? ==> var r := StepInstall(sh, tx); Bound(r.sh, r.tx) < Bound(sh, tx)
    ensures tx.pc.Release? ==> var r := StepRelease(sh, tx); Bound(r.sh, r.tx) < Bound(sh, tx)
  {
    hide SetsShape;
  }

  lemma UndoFalls(sh: Shared, i: nat, tx: Tx)
    requires SharedShape(sh) && TxShape(sh, tx)
    ensures tx.pc.Undo? ==> var r := StepUndo(sh, tx); Bound(r.sh, r.tx) < Bound(sh, tx)
    ensures tx.pc.UndoLock? ==> var r := StepUndoLock(sh, i, tx); Bound(r.sh, r.tx) < Bound(sh, tx)
  {
    if Undoing(tx.pc) { UndoStep(sh, i, tx); }
    hide SetsShape, SharedShape, StepUndo, StepUndoLock, Undone;
  }

  /** Every access that is not the program's brings the thread nearer to its next command. */
  lemma StepFalls(sh: Shared, i: nat, tx: Tx, c: Command)
    requires SharedShape(sh) && TxShape(sh, tx) && !tx.pc.Idle? && !tx.pc.Active?
    ensures var r := Step(sh, i, tx, c); Bound(r.sh, r.tx) < Bound(sh, tx)
  {
    hide SharedShape, TxShape, StepUser, StepLoads, StepReload, StepExtend, StepRecheck, StepWrite, StepCas, Bound;
    hide StepWLoad, StepWStore, StepTime, StepValidate, StepInstall, StepRelease, StepUndo, StepUndoLock;
    match tx.pc {
      case RReloadLock(_, _, _) => ReloadFalls(sh, i, tx);
      case RExtend(_, _, _, _, _) => ExtendFalls(sh, i, tx);
      case RRecheck(_, _, _) => ExtendFalls(sh, i, tx);
      case WLoadLock(_, _, _) => WriteFalls(sh, i, tx);
      case WCas(_, _, _, _) => StoreFalls(sh, i, tx);
      case WLoad(_, _, _) => StoreFalls(sh, i, tx);
      case WStore(_, _, _, _) => StoreFalls(sh, i, tx);
      case TakeTime => CommitFalls(sh, i, tx);
      case Validate(_, _) => CommitFalls(sh, i, tx);
      case Install(_, _) => InstallFalls(sh, tx);
      case Release(_, _) => InstallFalls(sh, tx);
      case Undo(_, _) => UndoFalls(sh, i, tx);
      case UndoLock(_, _) => UndoFalls(sh, i, tx);
      case _ => LoadsFall(sh, i, tx);
    }
  }

  /** From every reachable state, a thread that goes on by itself comes to its program's next command, or to the end of
      its attempt, after at most `Bound` accesses, whatever locks the others hold. */
  lemma {:induction false} NeverWaits(s: State, i: nat) returns (run: seq<Turn>)
    requires Inv(s) && i < |s.txs|
    ensures By(run, i) && |run| <= Bound(s.sh, s.txs[i]) && i < |Exec(s, run).txs|
    ensures var pc := Exec(s, run).txs[i].pc; pc.Active? || pc.Idle?
    decreases Bound(s.sh, s.txs[i])
  {
    hide Inv, SharedShape, TxShape, TxOk, Shape, Bound, Exec, Step;
    if s.txs[i].pc.Active? || s.txs[i].pc.Idle? {
      run := [];
      NoTurn(s);
    } else {
      var c := Begin(false);
      ShapeNext(s, i, c);
      StepFalls(s.sh, i, s.txs[i], c);
      OneTurn(s, i, c);
      var rest := NeverWaits(Next(s, i, c), i);
      run := [Turn(i, c)] + rest;
      ExecThen(s, [Turn(i, c)], rest);
    }
  }

  lemma NoTurn(s: State)
    ensures Exec(s, []) == s
  {
  }

  /** When nothing but a full write set stops a store, the next attempt has room for twice as many entries. */
  lemma RoomDoubles(sh: Shared, i: nat, tx: Tx)
    requires SharedShape(sh) && TxShape(sh, tx) && tx.pc.WLoadLock? && Over(StepWrite(sh, i, tx).tx.pc)
    requires var l := Lk(sh, tx.pc.a);
             match sh.locks[l]
             case Held(o, e) => o == i && e < |tx.entries|
             case Free(v) => v.version <= tx.end || !HasRead(tx.rset, l)
    ensures |tx.entries| == tx.size && StepWrite(sh, i, tx).tx.size == 2 * tx.size
  {
    WriteGoesOn(sh, i, tx);
    hide SetsShape, ChainLast, WriteEntry, HasRead, Linked;
    var WLoadLock(a, value, mask) := tx.pc;
    var w := sh.locks[Lk(sh, a)];
    if w.Held? {
      var k := ChainFind(tx.entries, w.entry, a);
      if k < |tx.entries| { EntryGoesOn(sh, tx, tx.entries, k, value, mask); }
    }
  }
}
