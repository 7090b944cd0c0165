/** Commit-time locking: a load or a store may wait for a lock, but only for one whose owner is committing or rolling
    back, and that never waits. So no operation is stuck. */
module CtlProgress {
  import opened CommitHistory
  import opened CtlMachine
  import opened CtlInvariant
  import opened CtlTheorems
  import opened CtlCommands
  import opened CtlAlone

  /** The lock is still what the thread has seen. */
  predicate Fresh(sh: Shared, a: nat, v: nat) {
    Lk(sh, a) < |sh.locks| && sh.locks[Lk(sh, a)] == LockWord.Free(v)
  }

  /** What a lock that has changed since costs: it is looked at again. */
  function Again(sh: Shared, tx: Tx, a: nat, v: nat): nat {
    if Fresh(sh, a, v) then 0 else 2 * |tx.rset| + 12
  }

  /** How many accesses are still to come, at most, the rollback included, if the thread does not wait. */
  function Bound(sh: Shared, tx: Tx): nat {
    var n, m := |tx.writes|, |tx.rset|;
    match tx.pc
    case Idle => 0
    case Active => 0
    case Undo(k) => k + 1
    case RLoadLock(_) => n + 2 + 2 * m + 10
    case RLoadValue(a, v) => n + 2 + 2 * m + 9 + Again(sh, tx, a, v)
    case RReloadLock(a, v, _) => n + 2 + 2 * m + 8 + Again(sh, tx, a, v)
    case RClock(a, v, _) => n + 2 + m + 5 + 2 * Again(sh, tx, a, v)
    case RExtend(a, v, _, _, k) => n + 2 + (if k <= m then m - k else 0) + 3 + 2 * Again(sh, tx, a, v)
    case RRecheck(a, v, _) => n + 2 + 2 + 2 * Again(sh, tx, a, v)
    case WLoadLock(_, _, _) => n + 3
    case AcqLoad(k) => n + 2 + m + 3 * n + 10 + 4 * k
    case AcqCas(k, v) =>
      n + 2 + m + 3 * n + 10 + (if 0 < k <= n && Fresh(sh, tx.writes[k - 1].addr, v) then 4 * k - 1 else 4 * k + 1)
    case TakeTime => n + 2 + m + 3 * n + 5
    case Validate(_, k) => n + 2 + (if k <= m then m - k else 0) + 3 * n + 4
    case Install(_, k) => if k <= n then 3 * (n - k) + 1 else 0
    case Mix(_, k, _) => if k <= n then 3 * (n - k) else 0
    case Release(_, k) => if k < n then 3 * (n - k) - 1 else 0
  }

  /** The thread waits for the lock of a word. */
  predicate Waits(sh: Shared, tx: Tx)
    requires SharedShape(sh) && TxShape(sh, tx)
  {
    (tx.pc.RLoadLock? || tx.pc.WLoadLock?) && sh.locks[Lk(sh, tx.pc.a)].Held?
  }

  lemma ReadFalls(sh: Shared, i: nat, tx: Tx)
    requires SharedShape(sh) && TxShape(sh, tx) && !Waits(sh, tx)
    ensures tx.pc.RLoadLock? || tx.pc.RLoadValue? || tx.pc.RClock? ==>
              var r := StepLoads(sh, tx); Bound(r.sh, r.tx) < Bound(sh, tx)
    ensures tx.pc.RReloadLock? ==> var r := StepReload(sh, tx); Bound(r.sh, r.tx) < Bound(sh, tx)
  {
    hide SetsShape, Overlay;
  }

  lemma ExtendFalls(sh: Shared, i: nat, tx: Tx)
    requires SharedShape(sh) && TxShape(sh, tx) && !Waits(sh, tx)
    ensures tx.pc.RExtend? ==> var r := StepExtend(sh, i, tx); Bound(r.sh, r.tx) < Bound(sh, tx)
    ensures tx.pc.RRecheck? ==> var r := StepRecheck(sh, tx); Bound(r.sh, r.tx) < Bound(sh, tx)
    ensures tx.pc.WLoadLock? ==> var r := StepWrite(sh, tx); Bound(r.sh, r.tx) < Bound(sh, tx)
  {
    hide SetsShape, Overlay, EntryValid, Find, HasRead, Folded;
  }

  lemma AcquireFalls(sh: Shared, i: nat, tx: Tx)
    requires SharedShape(sh) && TxShape(sh, tx)
    ensures tx.pc.AcqLoad? ==> var r := StepAcqLoad(sh, i, tx); Bound(r.sh, r.tx) < Bound(sh, tx)
  {
  }

  lemma CasFalls(sh: Shared, i: nat, tx: Tx)
    requires SharedShape(sh) && TxShape(sh, tx)
    ensures tx.pc.AcqCas? ==> var r := StepAcqCas(sh, i, tx); Bound(r.sh, r.tx) < Bound(sh, tx)
  {
    hide SetsShape;
  }

  lemma CommitFalls(sh: Shared, i: nat, tx: Tx)
    requires SharedShape(sh) && TxShape(sh, tx)
    ensures tx.pc.TakeTime? ==> var r := StepTime(sh, i, tx); Bound(r.sh, r.tx) < Bound(sh, tx)
    ensures tx.pc.Validate? ==> var r := StepValidate(sh, i, tx); Bound(r.sh, r.tx) < Bound(sh, tx)
  {
    hide SetsShape, EntryValid, Record;
  }

  lemma InstallFalls(sh: Shared, tx: Tx)
    requires SharedShape(sh) && TxShape(sh, tx)
    ensures tx.pc.Install? ==> var r := StepInstall(sh, tx); Bound(r.sh, r.tx) < Bound(sh, tx)
    ensures tx.pc.Mix? ==> var r := StepMix(sh, tx); Bound(r.sh, r.tx) < Bound(sh, tx)
  {
    hide SetsShape, Merge;
  }

  lemma ReleaseFalls(sh: Shared, tx: Tx)
    requires SharedShape(sh) && TxShape(sh, tx)
    ensures tx.pc.Release? ==> var r := StepRelease(sh, tx); Bound(r.sh, r.tx) < Bound(sh, tx)
    ensures tx.pc.Undo? && tx.pc.k > 0 ==> var r := StepUndo(sh, tx); Bound(r.sh, r.tx) < Bound(sh, tx)
  {
    hide SetsShape;
  }

  /** Every access that is not the program's, and not a look at a lock that is held, brings the thread nearer to its
      next command. */
  lemma StepBrings(sh: Shared, i: nat, tx: Tx, c: Command)
    requires SharedShape(sh) && TxShape(sh, tx) && !tx.pc.Idle? && !tx.pc.Active? && !Waits(sh, tx)
    requires tx.pc.Undo? ==> tx.pc.k > 0
    ensures var r := Step(sh, i, tx, c); Bound(r.sh, r.tx) < Bound(sh, tx)
  {
    hide SharedShape, TxShape, StepUser, StepLoads, StepReload, StepExtend, StepRecheck, StepWrite, StepAcqLoad, Bound;
    hide StepAcqCas, StepTime, StepValidate, StepInstall, StepMix, StepRelease, StepUndo, Waits;
    match tx.pc {
      case RExtend(_, _, _, _, _) => ExtendFalls(sh, i, tx);
      case RRecheck(_, _, _) => ExtendFalls(sh, i, tx);
      case WLoadLock(_, _, _) => ExtendFalls(sh, i, tx);
      case AcqLoad(_) => AcquireFalls(sh, i, tx);
      case AcqCas(_, _) => CasFalls(sh, i, tx);
      case TakeTime => CommitFalls(sh, i, tx);
      case Validate(_, _) => CommitFalls(sh, i, tx);
      case Install(_, _) => InstallFalls(sh, tx);
      case Mix(_, _, _) => InstallFalls(sh, tx);
      case Release(_, _) => ReleaseFalls(sh, tx);
      case Undo(_) => ReleaseFalls(sh, tx);
      case _ => ReadFalls(sh, i, tx);
    }
  }

  lemma UndoGoesOn(s: State, i: nat)
    requires Inv(s) && i < |s.txs| && s.txs[i].pc.Undo?
    ensures s.txs[i].pc.k > 0
  {
    Own(s, i);
    UndoStep(s.sh, s.txs[i]);
  }

  /** Committing, or rolling back. */
  predicate Closing(pc: Pc) {
    Ending(pc) || pc.Undo?
  }

  lemma ClosingStays(sh: Shared, i: nat, tx: Tx, c: Command)
    requires SharedShape(sh) && TxShape(sh, tx) && Closing(tx.pc)
    ensures var pc := Step(sh, i, tx, c).tx.pc; Closing(pc) || pc.Idle?
  {
    hide SetsShape, EntryValid, Merge, Record;
  }

  /** Nobody but thread i has made a turn. */
  predicate OnlyMoves(s: State, r: State, i: nat) {
    |r.txs| == |s.txs| && forall j :: 0 <= j < |s.txs| && j != i ==> r.txs[j] == s.txs[j]
  }

  /** A thread that is committing or rolling back gets to the end by itself, whatever locks the others hold. */
  lemma {:induction false} Closes(s: State, i: nat) returns (run: seq<Turn>)
    requires Inv(s) && Shape(s) && i < |s.txs| && Closing(s.txs[i].pc)
    ensures By(run, i) && |run| <= Bound(s.sh, s.txs[i]) && Fits(s, run) && Inv(Exec(s, run))
    ensures Exec(s, run).txs[i].pc.Idle? && OnlyMoves(s, Exec(s, run), i)
    decreases Bound(s.sh, s.txs[i])
  {
    hide Inv, SharedShape, TxShape, TxOk, Bound, Exec, Step, Shape, Waits, OnlyMoves, Closing;
    var c := Begin(false);
    Own(s, i);
    NextInv(s, i, c);
    if s.txs[i].pc.Undo? { UndoGoesOn(s, i); }
    NotWaiting(s.sh, s.txs[i]);
    StepBrings(s.sh, i, s.txs[i], c);
    ClosingStays(s.sh, i, s.txs[i], c);
    OneTurn(s, i, c);
    var r := Next(s, i, c);
    OneMoves(s, i, c);
    Own(r, i);
    run := [Turn(i, c)];
    if !r.txs[i].pc.Idle? {
      var rest := Closes(r, i);
      ExecThen(s, run, rest);
      MovesThen(s, r, Exec(r, rest), i);
      run := run + rest;
    }
  }

  lemma NotWaiting(sh: Shared, tx: Tx)
    requires SharedShape(sh) && TxShape(sh, tx) && Closing(tx.pc)
    ensures !Waits(sh, tx) && !tx.pc.Idle? && !tx.pc.Active?
  {
  }

  lemma OneMoves(s: State, i: nat, c: Command)
    requires Shape(s) && i < |s.txs|
    ensures OnlyMoves(s, Next(s, i, c), i)
  {
    hide Step, Shape;
  }

  lemma MovesThen(s: State, r: State, t: State, i: nat)
    requires OnlyMoves(s, r, i) && OnlyMoves(r, t, i)
    ensures OnlyMoves(s, t, i)
  {
  }

  /** The first k threads are neither committing nor rolling back. */
  predicate ClosedBelow(s: State, k: nat) {
    forall j :: 0 <= j < |s.txs| && j < k ==> !Closing(s.txs[j].pc)
  }

  /** One after another, the threads that hold locks let them go; nobody else moves. */
  lemma {:induction false} AllClose(s: State, k: nat) returns (run: seq<Turn>)
    requires Inv(s) && Shape(s) && k <= |s.txs|
    ensures Fits(s, run) && Inv(Exec(s, run)) && |Exec(s, run).txs| == |s.txs| && ClosedBelow(Exec(s, run), k)
    ensures forall j :: 0 <= j < |s.txs| && !Closing(s.txs[j].pc) ==> Exec(s, run).txs[j] == s.txs[j]
    decreases k
  {
    hide Inv, Shape, Exec, Closing;
    if k == 0 {
      run := [];
      StayHere(s);
    } else {
      run := AllClose(s, k - 1);
      var r := Exec(s, run);
      Own(r, k - 1);
      if Closing(r.txs[k - 1].pc) {
        var more := Closes(r, k - 1);
        ExecThen(s, run, more);
        run := run + more;
        assert !Closing(Idle) by { NotClosing(); }
      }
    }
  }

  lemma NotClosing()
    ensures !Closing(Idle)
  {
  }

  lemma StayHere(s: State)
    requires Shape(s)
    ensures Exec(s, []) == s
  {
  }

  /** When nobody is committing or rolling back, no lock is held. */
  lemma AllFree(s: State)
    requires Inv(s) && ClosedBelow(s, |s.txs|)
    ensures forall l :: 0 <= l < |s.sh.locks| ==> s.sh.locks[l].Free?
  {
    forall l | 0 <= l < |s.sh.locks|
      ensures s.sh.locks[l].Free?
    {
      assert Owned(s, l);
    }
    hide TxsOk, PendingOk, VersionsOk, MemoryOk, PastOk, Shape;
  }

  lemma OperatingStays(sh: Shared, i: nat, tx: Tx, c: Command)
    requires SharedShape(sh) && TxShape(sh, tx) && Operating(tx.pc)
    ensures Step(sh, i, tx, c).sh == sh
    ensures var pc := Step(sh, i, tx, c).tx.pc; Operating(pc) || pc.Active? || Closing(pc) || pc.Idle?
  {
    hide SetsShape, EntryValid, Overlay, Find, HasRead, Folded;
  }

  /** With no lock held, a thread by itself completes its operation or gives up. */
  lemma {:induction false} Operates(s: State, i: nat) returns (run: seq<Turn>)
    requires Inv(s) && Shape(s) && i < |s.txs| && Operating(s.txs[i].pc)
    requires forall l :: 0 <= l < |s.sh.locks| ==> s.sh.locks[l].Free?
    ensures By(run, i) && Fits(s, run) && Inv(Exec(s, run))
    ensures var pc := Exec(s, run).txs[i].pc; pc.Active? || pc.Idle?
    decreases Bound(s.sh, s.txs[i])
  {
    hide Inv, SharedShape, TxShape, TxOk, Bound, Exec, Step, Shape, Waits, Operating, Closing, OnlyMoves;
    var c := Begin(false);
    Own(s, i);
    NextInv(s, i, c);
    FreeNotWaiting(s.sh, s.txs[i]);
    StepBrings(s.sh, i, s.txs[i], c);
    OperatingStays(s.sh, i, s.txs[i], c);
    OneTurn(s, i, c);
    var r := Next(s, i, c);
    Own(r, i);
    run := [Turn(i, c)];
    if Operating(r.txs[i].pc) {
      var rest := Operates(r, i);
      ExecThen(s, run, rest);
      run := run + rest;
    } else if Closing(r.txs[i].pc) {
      var rest := Closes(r, i);
      ExecThen(s, run, rest);
      run := run + rest;
    }
  }

  lemma FreeNotWaiting(sh: Shared, tx: Tx)
    requires SharedShape(sh) && TxShape(sh, tx) && Operating(tx.pc)
    requires forall l :: 0 <= l < |sh.locks| ==> sh.locks[l].Free?
    ensures !Waits(sh, tx) && !tx.pc.Undo? && !tx.pc.Idle? && !tx.pc.Active?
  {
  }

  /** Only threads that were committing or rolling back have moved. */
  predicate OnlyClosers(s: State, r: State) {
    |r.txs| == |s.txs| && forall j :: 0 <= j < |s.txs| && !Closing(s.txs[j].pc) ==> r.txs[j] == s.txs[j]
  }

  /** Nothing blocks for ever: from every reachable state, first those that are committing or rolling back get to the
      end, and then the thread by itself gets to its program's next command, or to the end of its attempt. Nobody is
      asked for anything new in the meantime. */
  lemma OperationPossible(s: State, i: nat) returns (run: seq<Turn>, mid: State, more: seq<Turn>, r: State)
    requires Reachable(s) && Shape(s) && i < |s.txs|
    ensures Fits(s, run) && mid == Exec(s, run) && OnlyClosers(s, mid)
    ensures By(more, i) && Fits(mid, more) && r == Exec(mid, more)
    ensures i < |r.txs| && (r.txs[i].pc.Active? || r.txs[i].pc.Idle?)
  {
    hide Inv, Reachable, Exec, Shape, Closing, Operating;
    ReachableInv(s);
    run := AllClose(s, |s.txs|);
    mid := Exec(s, run);
    Own(mid, i);
    AllFree(mid);
    if Operating(mid.txs[i].pc) {
      more := Operates(mid, i);
      r := Exec(mid, more);
    } else {
      more, r := [], mid;
      OneOf(mid.txs[i].pc);
      StayHere(mid);
    }
  }

  lemma OneOf(pc: Pc)
    ensures Operating(pc) || Closing(pc) || pc.Active? || pc.Idle?
  {
  }
}
