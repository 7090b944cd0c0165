/** What holds in every run of the commit-time locking design. */
module CtlTheorems {
  import opened CommitHistory
  import opened CtlMachine
  import opened CtlInvariant
  import opened CtlProof
  import opened CtlSteps
  import opened CtlCommit
  import opened CtlTimestamp
  import opened CtlInstall

  lemma NextInv(s: State, i: nat, c: Command)
    requires Inv(s) && i < |s.txs|
    ensures Inv(Next(s, i, c))
  {
    hide TxsOk, OwnersOk, PendingOk, VersionsOk, MemoryOk, PastOk, Next, Shape;
    match s.txs[i].pc {
      case Idle => UserInv(s, i, c);
      case Active => UserInv(s, i, c);
      case RLoadLock(_) => LoadsInv(s, i, c);
      case RLoadValue(_, _) => LoadsInv(s, i, c);
      case RReloadLock(_, _, _) => ReloadInv(s, i, c);
      case RClock(_, _, _) => LoadsInv(s, i, c);
      case RExtend(_, _, _, _, _) => ExtendInv(s, i, c);
      case RRecheck(_, _, _) => ReloadInv(s, i, c);
      case WLoadLock(_, _, _) => WriteInv(s, i, c);
      case AcqLoad(_) => AcqLoadInv(s, i, c);
      case AcqCas(_, _) => AcqCasInv(s, i, c);
      case TakeTime => TimeInv(s, i, c);
      case Validate(_, _) => ValidateInv(s, i, c);
      case Install(_, _) => InstallInv(s, i, c);
      case Mix(_, _, _) => MixInv(s, i, c);
      case Release(_, _) => ReleaseInv(s, i, c);
      case Undo(_) => UndoInv(s, i, c);
    }
  }

  /** A schedule says which thread makes its next access, and what its program asks for. */
  datatype Turn = Turn(thread: nat, command: Command)

  function Exec(s: State, run: seq<Turn>): (t: State)
    requires Shape(s) && forall k :: 0 <= k < |run| ==> run[k].thread < |s.txs|
    ensures Shape(t) && |t.txs| == |s.txs|
    decreases |run|
  {
    if run == [] then s else
      var n := |run| - 1;
      var before := Exec(s, run[..n]);
      ShapeKept(before, run[n].thread, run[n].command);
      Next(before, run[n].thread, run[n].command)
  }

  ghost predicate Reachable(s: State) {
    exists s0: State, run: seq<Turn> ::
      Initial(s0) && (forall k :: 0 <= k < |run| ==> run[k].thread < |s0.txs|) && s == Exec(s0, run)
  }

  lemma {:induction false} ExecInv(s: State, run: seq<Turn>)
    requires Inv(s) && forall k :: 0 <= k < |run| ==> run[k].thread < |s.txs|
    ensures Inv(Exec(s, run))
    decreases |run|
  {
    hide TxsOk, OwnersOk, PendingOk, VersionsOk, MemoryOk, PastOk, Next, Shape;
    if run != [] {
      var n := |run| - 1;
      ExecInv(s, run[..n]);
      NextInv(Exec(s, run[..n]), run[n].thread, run[n].command);
    }
  }

  lemma InitialReachable(s: State)
    requires Initial(s)
    ensures Reachable(s)
  {
    InitialInv(s);
    assert s == Exec(s, []);
  }

  lemma ReachableInv(s: State)
    requires Reachable(s)
    ensures Inv(s)
  {
    hide Inv, Initial, Shape;
    var s0: State, run: seq<Turn> :|
      Initial(s0) && (forall k :: 0 <= k < |run| ==> run[k].thread < |s0.txs|) && s == Exec(s0, run);
    InitialInv(s0);
    ExecInv(s0, run);
  }

  /** Opacity: at every moment, what any transaction has read and written so far, doomed or not, is what it
      would have seen running alone on the committed memory of its timestamp `end`, and `end` is not in the
      future nor before the transaction started. */
  lemma Opacity(s: State, i: nat)
    requires Reachable(s) && i < |s.txs|
    ensures var tx := s.txs[i];
            && tx.start <= tx.end <= |s.sh.h.commits|
            && Replay(MemoryAt(s.sh.h, tx.end), tx.log).Legal?
  {
    ReachableInv(s);
    hide OwnersOk, PendingOk, VersionsOk, MemoryOk, PastOk, PcOk, LocksOk, StampOk, Replay;
    var tx := s.txs[i];
    assert TxShape(s.sh, tx) && TxOk(s.sh, i, tx);
    SourcesNoLock(s.sh, tx);
    ReadsHoldSaw(s.sh.h, tx.log, tx.end);
    RunsAlone(s.sh.h, tx.log, tx.end);
  }

  /** Serializability in timestamp order: the t-th committed memory is the result of running the t-th
      transaction alone on its predecessor, or its predecessor itself when timestamp t was not used; and the
      transaction had started before any of the timestamps from `start` on was given out. */
  lemma Serializable(s: State, t: nat)
    requires Reachable(s) && 0 < t <= |s.sh.h.commits|
    ensures var c := s.sh.h.commits[t - 1];
            if c.status.Committed?
            then c.start < t && Replay(MemoryAt(s.sh.h, t - 1), c.log) == Legal(MemoryAt(s.sh.h, t))
            else MemoryAt(s.sh.h, t) == MemoryAt(s.sh.h, t - 1)
  {
    ReachableInv(s);
    hide OwnersOk, PendingOk, VersionsOk, MemoryOk, TxsOk, Replay, Apply, Effect;
    var h := s.sh.h;
    var c := h.commits[t - 1];
    if c.status.Committed? {
      assert CommitOk(s.sh, t);
      ReadsHoldSaw(h, c.log, t - 1);
      RunsAlone(h, c.log, t - 1);
      var m := Replay(MemoryAt(h, t - 1), c.log).mem;
      forall a | 0 <= a < |m|
        ensures m[a] == MemoryAt(h, t)[a]
      {
        assert Effect(c.log, ValueAt(h, t - 1, a), a) == Apply(c.writes, ValueAt(h, t - 1, a), a);
      }
      assert m == MemoryAt(h, t);
    }
  }

  /** A write-free transaction takes effect at `end`, between its start and its return. */
  lemma WriteFree(s: State, k: nat)
    requires Reachable(s) && k < |s.sh.finished|
    ensures var f := s.sh.finished[k];
            && f.start <= f.end <= f.at <= |s.sh.h.commits|
            && Replay(MemoryAt(s.sh.h, f.end), f.log).Legal?
  {
    ReachableInv(s);
    hide OwnersOk, PendingOk, VersionsOk, MemoryOk, TxsOk, Replay;
    var f := s.sh.finished[k];
    assert FinishedOk(s.sh, f);
    ReadsHoldSaw(s.sh.h, f.log, f.end);
    RunsAlone(s.sh.h, f.log, f.end);
  }

  /** Whatever is not being written back is the last committed memory. */
  lemma MemoryIsCommitted(s: State, a: nat)
    requires Reachable(s) && a < |s.sh.mem|
    requires LockIx(s.sh.h.lockOf, a) < |s.sh.locks|
    requires s.sh.locks[LockIx(s.sh.h.lockOf, a)].Free? || forall i :: 0 <= i < |s.txs| ==> !Writing(s.txs[i].pc)
    ensures s.sh.mem[a] == MemoryAt(s.sh.h, |s.sh.h.commits|)[a]
  {
    ReachableInv(s);
    hide OwnersOk, PendingOk, VersionsOk, TxsOk, PastOk;
    assert WordOk(s, a);
  }

  /** A lock is released once per acquisition, by the thread and through the entry it points to, and then
      every word it guards is the last committed memory. */
  lemma ReleaseComplete(s: State, i: nat, a: nat)
    requires Reachable(s) && i < |s.txs| && s.txs[i].pc.Release? && a < |s.sh.mem|
    requires s.txs[i].pc.k < |s.txs[i].writes| && |s.txs[i].noDrop| == |s.txs[i].writes|
    requires !s.txs[i].noDrop[s.txs[i].pc.k]
    requires LockIx(s.sh.h.lockOf, a) == LockIx(s.sh.h.lockOf, s.txs[i].writes[s.txs[i].pc.k].addr)
    ensures LockIx(s.sh.h.lockOf, a) < |s.sh.locks|
    ensures s.sh.locks[LockIx(s.sh.h.lockOf, a)] == Held(i, s.txs[i].pc.k)
    ensures s.sh.mem[a] == MemoryAt(s.sh.h, |s.sh.h.commits|)[a]
  {
    ReachableInv(s);
    hide OwnersOk, PendingOk, VersionsOk, MemoryOk, TxsOk, PastOk;
    assert TxShape(s.sh, s.txs[i]);
    ReleaseFacts(s, i);
    ReleasedWord(s, i, a);
  }

  /** A thread that has finished, or not begun, or is still running its program, owns no lock. */
  lemma NoLockLeft(s: State, l: nat)
    requires Reachable(s) && l < |s.sh.locks| && s.sh.locks[l].Held?
    ensures var o := s.sh.locks[l].owner;
            o < |s.txs| && !s.txs[o].pc.Idle? && !s.txs[o].pc.Active?
  {
    ReachableInv(s);
    hide TxsOk, PendingOk, VersionsOk, MemoryOk, PastOk;
    assert Owned(s, l);
  }

  /** `rollover_clock`: the clock and the lock words are zero again. The record starts again with what memory
      holds; of the descriptors, which a transaction initializes when it begins, nothing is used. */
  function RolledOver(s: State): State {
    State(Shared(s.sh.max, 0, s.sh.mem, seq(|s.sh.locks|, _ => Free(0)), seq(|s.sh.locks|, _ => 0),
                 History(s.sh.h.lockOf, s.sh.mem, []), []),
          seq(|s.txs|, _ => Tx(Idle, false, 0, 0, [], [], [], [], 0, [])))
  }

  /** When no transaction is active, the reset loses nothing: memory is the last committed memory, and it is the
      first committed memory of the runs that follow, which begin in an initial state. */
  lemma RolloverStartsAfresh(s: State)
    requires Reachable(s) && forall i :: 0 <= i < |s.txs| ==> s.txs[i].pc.Idle?
    ensures Initial(RolledOver(s))
    ensures MemoryAt(RolledOver(s).sh.h, 0) == s.sh.mem == MemoryAt(s.sh.h, |s.sh.h.commits|)
  {
    ReachableInv(s);
    assert SharedShape(s.sh);
    forall a | 0 <= a < |s.sh.mem|
      ensures s.sh.mem[a] == MemoryAt(s.sh.h, |s.sh.h.commits|)[a]
    {
      var l := LockIx(s.sh.h.lockOf, a);
      if s.sh.locks[l].Held? { NoLockLeft(s, l); }
      MemoryIsCommitted(s, a);
    }
    hide Inv, Reachable;
  }
}
