/** Encounter-time locking, both designs: what a program asks for is what is done. The loads, stores, commits and
    aborts are those of the schedule, not of the descriptors. */
module EtlCommands {
  import opened CommitHistory
  import opened Requests
  import opened EtlMachine
  import opened EtlInvariant
  import opened EtlProof
  import opened EtlSteps
  import opened EtlRelease
  import opened EtlTheorems
  import EtlClock

  /** A thread is given its turn with command c: its attempt as the program sees it. Between operations the command is
      taken; loads and stores outside memory, stores of a read-only transaction, and empty stores in the write-through
      design, are not made. */
  function Ask(sh: Shared, tx: Tx, c: Command, was: Attempt): Attempt {
    if tx.pc.Idle? then
      if c.Begin? && sh.clock < sh.max then Attempt(c.readOnly, sh.clock, [], Going) else was
    else if !tx.pc.Active? then was
    else
      match c
      case Begin(_) => was
      case Load(a) => if a < |sh.mem| then was.(requests := was.requests + [Get(a)]) else was
      case Store(a, value, mask) =>
        if a < |sh.mem| && !was.readOnly && (sh.design.WriteThrough? ==> mask != 0)
        then was.(requests := was.requests + [Put(a, value, mask)]) else was
      case Commit => was.(ending := Committing)
      case Abort => was.(ending := Aborting)
  }

  predicate Fits(s: State, run: seq<Turn>) {
    forall k :: 0 <= k < |run| ==> run[k].thread < |s.txs|
  }

  function Turned(s: State, turn: Turn): State {
    if Shape(s) && turn.thread < |s.txs| then Next(s, turn.thread, turn.command) else s
  }

  /** The attempt of thread i after a turn. */
  function Heard(s: State, i: nat, turn: Turn, was: Attempt): Attempt {
    if turn.thread != i || i >= |s.txs| then was else Ask(s.sh, s.txs[i], turn.command, was)
  }

  /** The attempt of thread i after a run, when it was `was` before. */
  function AttemptOf(s: State, run: seq<Turn>, i: nat, was: Attempt): Attempt
    decreases |run|
  {
    if run == [] then was else
      var n := |run| - 1;
      Heard(Exec(s, run[..n]), i, run[n], AttemptOf(s, run[..n], i, was))
  }

  lemma {:induction false} RunKeeps(s: State, run: seq<Turn>)
    requires Inv(s)
    ensures Inv(Exec(s, run)) && Shape(Exec(s, run)) && |Exec(s, run).txs| == |s.txs|
  {
    ExecInv(s, run);
    EtlClock.SameThreads(s, run);
    InvShape(Exec(s, run));
    hide Inv, Shape, Exec;
  }

  lemma {:induction false} LastTurn(s: State, run: seq<Turn>, i: nat, was: Attempt)
    requires Inv(s) && Fits(s, run) && |run| > 0
    ensures var n := |run| - 1;
            var t := Exec(s, run[..n]);
            && Fits(s, run[..n]) && Inv(t) && Shape(t) && |t.txs| == |s.txs|
            && Exec(s, run) == Turned(t, run[n])
            && AttemptOf(s, run, i, was) == Heard(t, i, run[n], AttemptOf(s, run[..n], i, was))
  {
    RunKeeps(s, run[..|run| - 1]);
    hide Inv, Shape, Next, Heard;
  }

  lemma InvShape(s: State)
    requires Inv(s)
    ensures Shape(s)
  {
  }

  /** The program has asked for loads and stores and for nothing else, and all of them have been done. */
  predicate Answered(tx: Tx, at: Attempt) {
    at.ending.Going? && Matches(tx.log, at.requests)
  }

  /** The same, but for the last, which is under way. */
  predicate Answering(tx: Tx, at: Attempt, q: Request) {
    at.ending.Going? && Owes(tx.log, at.requests, q)
  }

  /** The descriptor answers the program: the log is what was asked for, an operation under way is the last request,
      and a commit or an abort is under way exactly when the program has asked for it. */
  predicate InTune(tx: Tx, at: Attempt) {
    && (!tx.pc.Idle? ==> tx.readOnly == at.readOnly && tx.start == at.start && !at.ending.NotBegun?)
    && (at.ending.Aborting? ==> tx.pc.Idle? || Undoing(tx.pc))
    && match tx.pc
       case Idle => true
       case Undo(_, _) => true
       case UndoLock(_, _) => true
       case Active => Answered(tx, at)
       case RLoadLock(a) => Answering(tx, at, Get(a))
       case RLoadValue(a, _) => Answering(tx, at, Get(a))
       case RReloadLock(a, _, _) => Answering(tx, at, Get(a))
       case RClock(a, _, _) => Answering(tx, at, Get(a))
       case RExtend(a, _, _, _, _) => Answering(tx, at, Get(a))
       case RRecheck(a, _, _) => Answering(tx, at, Get(a))
       case ROwn(a) => Answering(tx, at, Get(a))
       case WLoadLock(a, value, mask) => Answering(tx, at, Put(a, value, mask))
       case WCas(a, value, mask, _) => Answering(tx, at, Put(a, value, mask))
       case WLoad(k, value, mask) => k < |tx.entries| && Answering(tx, at, Put(tx.entries[k].addr, value, mask))
       case WStore(k, _, value, mask) => k < |tx.entries| && Answering(tx, at, Put(tx.entries[k].addr, value, mask))
       case _ => at.ending.Committing? && Matches(tx.log, at.requests)
  }

  lemma UserInTune(sh: Shared, i: nat, tx: Tx, c: Command, at: Attempt)
    requires InTune(tx, at) && (tx.pc.Idle? || tx.pc.Active?)
    ensures InTune(StepUser(sh, i, tx, c).tx, Ask(sh, tx, c, at))
  {
    hide Matches, Owes;
    NothingAsked();
    if tx.pc.Active? {
      match c {
        case Load(a) => Asked(tx.log, at.requests, Get(a));
        case Store(a, value, mask) => Asked(tx.log, at.requests, Put(a, value, mask));
        case _ =>
      }
    }
  }

  lemma PaidGet(tx: Tx, at: Attempt, a: nat)
    requires Answering(tx, at, Get(a))
    ensures forall x, source :: Matches(tx.log + [Read(a, x, source)], at.requests)
  {
    forall x, source
      ensures Matches(tx.log + [Read(a, x, source)], at.requests)
    {
      Paid(tx.log, at.requests, Read(a, x, source), Get(a));
    }
  }

  lemma ReadInTune(sh: Shared, i: nat, tx: Tx, at: Attempt)
    requires SharedShape(sh) && TxShape(sh, tx) && InTune(tx, at)
    ensures tx.pc.RLoadLock? || tx.pc.RLoadValue? || tx.pc.RClock? || tx.pc.ROwn? ==>
              InTune(StepLoads(sh, i, tx).tx, at)
  {
    if tx.pc.RLoadLock? || tx.pc.ROwn? { PaidGet(tx, at, tx.pc.a); }
    hide Matches, Owes, SharedShape, SetsShape, ChainFind, Base, WithRead;
  }

  lemma ReloadInTune(sh: Shared, i: nat, tx: Tx, at: Attempt)
    requires SharedShape(sh) && TxShape(sh, tx) && InTune(tx, at)
    ensures tx.pc.RReloadLock? ==> InTune(StepReload(sh, i, tx).tx, at)
  {
    if tx.pc.RReloadLock? { PaidGet(tx, at, tx.pc.a); }
    hide Matches, Owes, SharedShape, SetsShape, ChainFind, Base, WithRead;
  }

  lemma ExtendInTune(sh: Shared, i: nat, tx: Tx, at: Attempt)
    requires SharedShape(sh) && TxShape(sh, tx) && InTune(tx, at)
    ensures tx.pc.RExtend? ==> InTune(StepExtend(sh, i, tx).tx, at)
    ensures tx.pc.RRecheck? ==> InTune(StepRecheck(sh, i, tx).tx, at)
  {
    if tx.pc.RExtend? || tx.pc.RRecheck? { PaidGet(tx, at, tx.pc.a); }
    hide Matches, Owes, SharedShape, SetsShape, ChainFind, Base, WithRead, EntryValid;
  }

  lemma EntryInTune(sh: Shared, tx: Tx, es: seq<WEntry>, k: nat, value: Word, mask: Word, at: Attempt)
    requires k < |es| && Answering(tx, at, Put(es[k].addr, value, mask)) && InTune(tx, at)
    requires !tx.pc.Idle? && !Undoing(tx.pc)
    ensures InTune(WriteEntry(sh, tx, es, k, value, mask).tx, at)
  {
    Paid(tx.log, at.requests, Op.Write(es[k].addr, value, mask), Put(es[k].addr, value, mask));
    hide Matches, Owes, Merge, Join;
  }

  lemma WriteInTune(sh: Shared, i: nat, tx: Tx, at: Attempt)
    requires SharedShape(sh) && TxShape(sh, tx) && InTune(tx, at) && tx.pc.WLoadLock?
    ensures InTune(StepWrite(sh, i, tx).tx, at)
  {
    var WLoadLock(a, value, mask) := tx.pc;
    var w := sh.locks[Lk(sh, a)];
    hide SetsShape, ChainFind, ChainLast, WriteEntry, HasRead, Matches, Owes, SharedShape, Linked;
    if w.Held? && w.entry < |tx.entries| && w.owner == i {
      Paid(tx.log, at.requests, Op.Write(a, value, mask), Put(a, value, mask));
      var k := ChainFind(tx.entries, w.entry, a);
      if k < |tx.entries| {
        EntryInTune(sh, tx, tx.entries, k, value, mask, at);
      } else {
        LinkedInTune(sh, tx, w.entry, a, value, mask, at);
      }
    }
  }

  lemma LinkedInTune(sh: Shared, tx: Tx, e: nat, a: nat, value: Word, mask: Word, at: Attempt)
    requires e < |tx.entries| && Answering(tx, at, Put(a, value, mask)) && InTune(tx, at) && tx.pc.WLoadLock?
    ensures var es := Linked(tx.entries, ChainLast(tx.entries, e), a);
            InTune(WriteEntry(sh, tx, es, |tx.entries|, value, mask).tx, at)
  {
    hide WriteEntry;
    EntryInTune(sh, tx, Linked(tx.entries, ChainLast(tx.entries, e), a), |tx.entries|, value, mask, at);
  }

  lemma CasInTune(sh: Shared, i: nat, tx: Tx, at: Attempt)
    requires SharedShape(sh) && TxShape(sh, tx) && InTune(tx, at) && tx.pc.WCas?
    ensures InTune(StepCas(sh, i, tx).tx, at)
  {
    hide SetsShape, WriteEntry, Matches, Owes;
    var WCas(a, value, mask, v) := tx.pc;
    var taken := sh.(locks := sh.locks[Lk(sh, a) := Held(i, |tx.entries|)]);
    EntryInTune(taken, tx, Acquired(tx.entries, a, v), |tx.entries|, value, mask, at);
  }

  lemma StoreInTune(sh: Shared, tx: Tx, at: Attempt)
    requires SharedShape(sh) && TxShape(sh, tx) && InTune(tx, at)
    ensures tx.pc.WLoad? ==> InTune(StepWLoad(sh, tx).tx, at)
    ensures tx.pc.WStore? ==> InTune(StepWStore(sh, tx).tx, at)
  {
    hide SetsShape, Merge, Join, Matches, Owes, SharedShape;
    if tx.pc.WLoad? || tx.pc.WStore? {
      var a := tx.entries[tx.pc.k].addr;
      Paid(tx.log, at.requests, Op.Write(a, tx.pc.value, tx.pc.mask), Put(a, tx.pc.value, tx.pc.mask));
    }
  }

  lemma CommitInTune(sh: Shared, i: nat, tx: Tx, at: Attempt)
    requires SharedShape(sh) && TxShape(sh, tx) && InTune(tx, at)
    ensures tx.pc.TakeTime? ==> InTune(StepTime(sh, i, tx).tx, at)
    ensures tx.pc.Validate? ==> InTune(StepValidate(sh, i, tx).tx, at)
    ensures tx.pc.Install? ==> InTune(StepInstall(sh, tx).tx, at)
    ensures tx.pc.Release? ==> InTune(StepRelease(sh, tx).tx, at)
  {
    hide Matches, Owes, EntryValid, SetsShape, Record, Updates;
  }

  lemma UndoInTune(sh: Shared, i: nat, tx: Tx, at: Attempt)
    requires SharedShape(sh) && TxShape(sh, tx) && InTune(tx, at)
    ensures tx.pc.Undo? ==> InTune(StepUndo(sh, tx).tx, at)
    ensures tx.pc.UndoLock? ==> InTune(StepUndoLock(sh, i, tx).tx, at)
  {
    hide Matches, Owes, SetsShape;
  }

  lemma StepInTune(sh: Shared, i: nat, tx: Tx, c: Command, at: Attempt)
    requires SharedShape(sh) && TxShape(sh, tx) && InTune(tx, at)
    ensures InTune(Step(sh, i, tx, c).tx, Ask(sh, tx, c, at))
  {
    hide InTune, SharedShape, TxShape, StepUser, StepLoads, StepReload, StepExtend, StepRecheck, StepWrite, StepCas;
    hide StepWLoad, StepWStore, StepTime, StepValidate, StepInstall, StepRelease, StepUndo, StepUndoLock;
    if tx.pc.Idle? || tx.pc.Active? {
      UserInTune(sh, i, tx, c, at);
    } else {
      assert Ask(sh, tx, c, at) == at;
      ReadInTune(sh, i, tx, at);
      ReloadInTune(sh, i, tx, at);
      ExtendInTune(sh, i, tx, at);
      if tx.pc.WLoadLock? { WriteInTune(sh, i, tx, at); }
      if tx.pc.WCas? { CasInTune(sh, i, tx, at); }
      StoreInTune(sh, tx, at);
      CommitInTune(sh, i, tx, at);
      UndoInTune(sh, i, tx, at);
    }
  }

  /** Over every run, every thread's descriptor answers its program. */
  lemma {:induction false} RunInTune(s: State, run: seq<Turn>, i: nat, was: Attempt)
    requires Inv(s) && Fits(s, run) && i < |s.txs| && InTune(s.txs[i], was)
    ensures i < |Exec(s, run).txs| && InTune(Exec(s, run).txs[i], AttemptOf(s, run, i, was))
    decreases |run|
  {
    hide InTune, Inv, Shape, Ask;
    if run != [] {
      var n := |run| - 1;
      LastTurn(s, run, i, was);
      RunInTune(s, run[..n], i, was);
      var t := Exec(s, run[..n]);
      ShapeParts(t, i);
      if run[n].thread == i { StepInTune(t.sh, i, t.txs[i], run[n].command, AttemptOf(s, run[..n], i, was)); }
      hide Step, Exec, AttemptOf;
    }
  }

  lemma ShapeParts(s: State, i: nat)
    requires Shape(s) && i < |s.txs|
    ensures SharedShape(s.sh) && TxShape(s.sh, s.txs[i])
  {
  }

  // ---- the records ----

  /** What one access of thread i does to the records: it adds one for its own timestamp or its own write-free commit,
      and decides its own pending one. A timestamp taken by a rollback is for nothing. */
  ghost predicate RecordsOk(sh: Shared, i: nat, tx: Tx, c: Command, sh': Shared) {
    && |sh.h.commits| <= |sh'.h.commits| <= |sh.h.commits| + 1
    && |sh.finished| <= |sh'.finished| <= |sh.finished| + 1
    && (forall t :: 0 <= t < |sh.h.commits| ==>
          || sh'.h.commits[t] == sh.h.commits[t]
          || (tx.pc.Validate? && tx.pc.t == t + 1
              && sh'.h.commits[t] == sh.h.commits[t].(status := sh'.h.commits[t].status)))
    && (|sh'.h.commits| > |sh.h.commits| ==>
          var d := sh'.h.commits[|sh.h.commits|];
          && d.tid == i && d.start == tx.start
          && ((tx.pc.UndoLock? && d.status.Aborted?)
              || (tx.pc.TakeTime? && d.status.Pending? && d.log == tx.log)))
    && sh'.finished[..|sh.finished|] == sh.finished
    && (|sh'.finished| > |sh.finished| ==>
          tx.pc.Active? && c.Commit? && tx.entries == []
          && sh'.finished[|sh.finished|] == Finished(i, tx.log, tx.start, tx.end, sh.clock))
  }

  lemma RecordsSame(sh: Shared, i: nat, tx: Tx, c: Command, sh': Shared)
    requires sh'.h == sh.h && sh'.finished == sh.finished
    ensures RecordsOk(sh, i, tx, c, sh')
  {
  }

  lemma StepRecords(sh: Shared, i: nat, tx: Tx, c: Command)
    requires SharedShape(sh) && TxShape(sh, tx)
    ensures RecordsOk(sh, i, tx, c, Step(sh, i, tx, c).sh)
  {
    hide StepUser, StepLoads, StepReload, StepExtend, StepRecheck, StepWrite, StepCas, SharedShape, TxShape;
    hide StepWLoad, StepWStore, StepTime, StepValidate, StepInstall, StepRelease, StepUndo, StepUndoLock, RecordsOk;
    if tx.pc.Idle? || tx.pc.Active? || tx.pc.TakeTime? || tx.pc.Validate? || tx.pc.UndoLock? {
      DecidingRecords(sh, i, tx, c);
      UndoRecords(sh, i, tx, c);
    } else {
      OtherRecords(sh, i, tx, c);
      RecordsSame(sh, i, tx, c, Step(sh, i, tx, c).sh);
    }
  }

  lemma DecidingRecords(sh: Shared, i: nat, tx: Tx, c: Command)
    requires SharedShape(sh) && TxShape(sh, tx)
    ensures tx.pc.Idle? || tx.pc.Active? ==> RecordsOk(sh, i, tx, c, StepUser(sh, i, tx, c).sh)
    ensures tx.pc.TakeTime? ==> RecordsOk(sh, i, tx, c, StepTime(sh, i, tx).sh)
    ensures tx.pc.Validate? ==> RecordsOk(sh, i, tx, c, StepValidate(sh, i, tx).sh)
  {
    hide EntryValid, SetsShape, Updates;
  }

  lemma UndoRecords(sh: Shared, i: nat, tx: Tx, c: Command)
    requires SharedShape(sh) && TxShape(sh, tx)
    ensures tx.pc.UndoLock? ==> RecordsOk(sh, i, tx, c, StepUndoLock(sh, i, tx).sh)
  {
    hide SetsShape;
  }

  lemma OtherRecords(sh: Shared, i: nat, tx: Tx, c: Command)
    requires SharedShape(sh) && TxShape(sh, tx)
    requires !tx.pc.Idle? && !tx.pc.Active? && !tx.pc.TakeTime? && !tx.pc.Validate? && !tx.pc.UndoLock?
    ensures Step(sh, i, tx, c).sh.h == sh.h && Step(sh, i, tx, c).sh.finished == sh.finished
  {
    hide SetsShape, StepLoads, StepReload, StepExtend, StepRecheck, StepWrite, StepCas, Merge, Join;
    match tx.pc {
      case WLoadLock(_, _, _) => WriteKeepsLocks(sh, i, tx);
      case WCas(_, _, _, _) => CasKeeps(sh, i, tx);
      case _ => ReadKeeps(sh, i, tx);
    }
  }

  lemma CasKeeps(sh: Shared, i: nat, tx: Tx)
    requires SharedShape(sh) && TxShape(sh, tx) && tx.pc.WCas?
    ensures StepCas(sh, i, tx).sh.h == sh.h && StepCas(sh, i, tx).sh.finished == sh.finished
  {
    hide SetsShape, WriteEntry;
    var WCas(a, value, mask, v) := tx.pc;
    var taken := sh.(locks := sh.locks[Lk(sh, a) := Held(i, |tx.entries|)]);
    WriteEntryKeepsLocks(taken, tx, Acquired(tx.entries, a, v), |tx.entries|, value, mask);
  }

  lemma ReadKeeps(sh: Shared, i: nat, tx: Tx)
    requires SharedShape(sh) && TxShape(sh, tx)
    ensures tx.pc.RLoadLock? || tx.pc.RLoadValue? || tx.pc.RClock? || tx.pc.ROwn? ==> StepLoads(sh, i, tx).sh == sh
    ensures tx.pc.RReloadLock? ==> StepReload(sh, i, tx).sh == sh
    ensures tx.pc.RRecheck? ==> StepRecheck(sh, i, tx).sh == sh
    ensures tx.pc.RExtend? ==> StepExtend(sh, i, tx).sh == sh
  {
    hide SetsShape, ChainFind, EntryValid, Base, WithRead;
  }

  /** At the end of the run the program of thread `tid` has asked for a commit of exactly what the log says, in an
      attempt that began at clock `start`. */
  ghost predicate CommitAskedNow(s: State, run: seq<Turn>, tid: nat, start: nat, log: seq<Op>) {
    var at := AttemptOf(s, run, tid, None);
    at.ending.Committing? && at.start == start && Matches(log, at.requests)
  }

  ghost predicate CommitAsked(s: State, run: seq<Turn>, tid: nat, start: nat, log: seq<Op>) {
    exists p :: 0 <= p <= |run| && CommitAskedNow(s, run[..p], tid, start, log)
  }

  lemma {:induction false} AskedEarlier(s: State, run: seq<Turn>, n: nat, tid: nat, start: nat, log: seq<Op>)
    requires n <= |run| && CommitAsked(s, run[..n], tid, start, log)
    ensures CommitAsked(s, run, tid, start, log)
  {
    var p :| 0 <= p <= n && CommitAskedNow(s, run[..n][..p], tid, start, log);
    assert run[..n][..p] == run[..p];
  }

  ghost predicate AllAsked(s0: State, run: seq<Turn>, s: State) {
    && (forall t :: 0 <= t < |s.sh.h.commits| && !s.sh.h.commits[t].status.Aborted? ==>
          var c := s.sh.h.commits[t]; CommitAsked(s0, run, c.tid, c.start, c.log))
    && (forall k :: 0 <= k < |s.sh.finished| ==>
          var f := s.sh.finished[k]; CommitAsked(s0, run, f.tid, f.start, f.log))
  }

  lemma InitialParts(s: State)
    requires Initial(s)
    ensures Inv(s) && Shape(s) && s.sh.h.commits == [] && s.sh.finished == []
    ensures forall i :: 0 <= i < |s.txs| ==> s.txs[i].pc.Idle?
  {
    InitialInv(s);
  }

  lemma StartsInTune(s: State, i: nat)
    requires i < |s.txs| && s.txs[i].pc.Idle?
    ensures InTune(s.txs[i], None)
  {
  }

  /** Whatever is on record, and has not been aborted, is an attempt that the program has told to commit, with the loads
      and stores that it has asked for in that attempt, in their order. */
  lemma {:induction false} RecordsAsked(s0: State, run: seq<Turn>)
    requires Initial(s0) && Fits(s0, run)
    ensures AllAsked(s0, run, Exec(s0, run))
    decreases |run|
  {
    InitialParts(s0);
    hide Initial, Inv, Shape, CommitAsked;
    if run != [] {
      var n := |run| - 1;
      var i := run[n].thread;
      LastTurn(s0, run, i, None);
      RecordsAsked(s0, run[..n]);
      var s := Exec(s0, run[..n]);
      StartsInTune(s0, i);
      RunInTune(s0, run[..n], i, None);
      hide InTune;
      RecordsStep(s0, run, s);
    }
  }

  lemma {:induction false} NewAsked(s0: State, run: seq<Turn>, s: State)
    requires Inv(s0) && Fits(s0, run) && |run| > 0 && s == Exec(s0, run[..|run| - 1]) && |s.txs| == |s0.txs|
    requires var i := run[|run| - 1].thread; InTune(s.txs[i], AttemptOf(s0, run[..|run| - 1], i, None))
    ensures var tx := s.txs[run[|run| - 1].thread];
            tx.pc.TakeTime? || tx.pc.Validate? || (tx.pc.Active? && run[|run| - 1].command.Commit?)
            ==> CommitAsked(s0, run, run[|run| - 1].thread, tx.start, tx.log)
  {
    hide Inv, Shape, Next, Exec, Matches, Owes, AttemptOf;
    var n := |run| - 1;
    var i := run[n].thread;
    LastTurn(s0, run, i, None);
    AskedAt(s0, run, n, i, s.txs[i].start, s.txs[i].log);
    AskedAt(s0, run, n + 1, i, s.txs[i].start, s.txs[i].log);
    assert run[..n + 1] == run;
  }

  lemma {:induction false} AskedAt(s: State, run: seq<Turn>, p: nat, i: nat, start: nat, log: seq<Op>)
    requires p <= |run|
    ensures CommitAskedNow(s, run[..p], i, start, log) ==> CommitAsked(s, run, i, start, log)
  {
  }

  lemma Stamp(s: State, j: nat)
    requires Inv(s) && j < |s.txs|
    ensures Shape(s) && SharedShape(s.sh) && TxShape(s.sh, s.txs[j])
    ensures Writing(s.txs[j].pc) ==> Ts(s.txs[j].pc) > 0
    ensures var tx := s.txs[j];
            var t := Ts(tx.pc);
            t > 0 ==> && t <= |s.sh.h.commits|
                      && var c := s.sh.h.commits[t - 1];
                         && c.tid == j && c.start == tx.start && c.log == tx.log
                         && c.status == if tx.pc.Validate? then Pending else Committed
  {
    assert TxOk(s.sh, j, s.txs[j]);
  }

  lemma {:induction false} RecordsStep(s0: State, run: seq<Turn>, s: State)
    requires Inv(s0) && Fits(s0, run) && |run| > 0 && s == Exec(s0, run[..|run| - 1]) && Inv(s) && |s.txs| == |s0.txs|
    requires AllAsked(s0, run[..|run| - 1], s)
    requires var i := run[|run| - 1].thread; InTune(s.txs[i], AttemptOf(s0, run[..|run| - 1], i, None))
    ensures AllAsked(s0, run, Exec(s0, run))
  {
    hide Inv, Shape, SharedShape, TxShape, InTune, CommitAsked, Exec, AttemptOf, Step;
    var n := |run| - 1;
    var i := run[n].thread;
    var tx := s.txs[i];
    var c := run[n].command;
    var r := Exec(s0, run);
    Stamp(s, i);
    LastTurn(s0, run, i, None);
    StepRecords(s.sh, i, tx, c);
    NewAsked(s0, run, s);
    forall t | 0 <= t < |r.sh.h.commits| && !r.sh.h.commits[t].status.Aborted?
      ensures var d := r.sh.h.commits[t]; CommitAsked(s0, run, d.tid, d.start, d.log)
    {
      if t < |s.sh.h.commits| && !s.sh.h.commits[t].status.Aborted? {
        var d := s.sh.h.commits[t];
        AskedEarlier(s0, run, n, d.tid, d.start, d.log);
      }
    }
    forall k | 0 <= k < |r.sh.finished|
      ensures var f := r.sh.finished[k]; CommitAsked(s0, run, f.tid, f.start, f.log)
    {
      if k < |s.sh.finished| {
        var f := s.sh.finished[k];
        assert f == r.sh.finished[..|s.sh.finished|][k];
        AskedEarlier(s0, run, n, f.tid, f.start, f.log);
      }
    }
  }

  // ---- commits stand ----

  /** A commit that has passed its validation is on record with what the program has asked for, and stays so. */
  lemma {:induction false} CommitStands(s0: State, run: seq<Turn>, n: nat, i: nat) returns (t: nat)
    requires Initial(s0) && Fits(s0, run) && n <= |run| && i < |s0.txs| && i < |Exec(s0, run[..n]).txs|
    requires Writing(Exec(s0, run[..n]).txs[i].pc)
    ensures var at := AttemptOf(s0, run[..n], i, None);
            && t < |Exec(s0, run).sh.h.commits|
            && var c := Exec(s0, run).sh.h.commits[t];
               c.tid == i && c.status.Committed? && c.start == at.start && Matches(c.log, at.requests)
  {
    hide Inv, Shape, SharedShape, TxShape, Initial, Exec, AttemptOf, Matches, Owes;
    InitialParts(s0);
    StartsInTune(s0, i);
    RunInTune(s0, run[..n], i, None);
    RunKeeps(s0, run[..n]);
    var s := Exec(s0, run[..n]);
    Stamp(s, i);
    t := Ts(s.txs[i].pc) - 1;
    Stands(s0, run, n, t);
  }

  lemma {:induction false} Stands(s0: State, run: seq<Turn>, n: nat, t: nat)
    requires Inv(s0) && Fits(s0, run) && n <= |run|
    requires t < |Exec(s0, run[..n]).sh.h.commits| && Exec(s0, run[..n]).sh.h.commits[t].status.Committed?
    ensures t < |Exec(s0, run).sh.h.commits|
    ensures Exec(s0, run).sh.h.commits[t] == Exec(s0, run[..n]).sh.h.commits[t]
    decreases |run|
  {
    if n == |run| {
      assert run[..n] == run;
    } else {
      var m := |run| - 1;
      LastTurn(s0, run, run[m].thread, None);
      assert run[..m][..n] == run[..n];
      hide Inv, Shape, Next, Exec, AttemptOf;
      Stands(s0, run[..m], n, t);
      StandsStep(Exec(s0, run[..m]), run[m].thread, run[m].command, t);
    }
  }

  lemma StandsStep(s: State, j: nat, c: Command, t: nat)
    requires Inv(s) && j < |s.txs| && t < |s.sh.h.commits| && s.sh.h.commits[t].status.Committed?
    ensures Shape(s) && t < |Next(s, j, c).sh.h.commits| && Next(s, j, c).sh.h.commits[t] == s.sh.h.commits[t]
  {
    Stamp(s, j);
    StepRecords(s.sh, j, s.txs[j], c);
    hide Inv, TxShape, SharedShape, Step;
  }

  // ---- aborts leave nothing ----

  /** Locks are only released, words only restored to what was committed last, and nothing is put on record but a
      timestamp taken in vain. */
  ghost predicate OnlyRestores(sh: Shared, sh': Shared, i: nat) {
    && sh'.finished == sh.finished && |sh'.locks| == |sh.locks| && |sh'.mem| == |sh.mem| <= |sh.h.init|
    && |sh.h.commits| <= |sh'.h.commits| <= |sh.h.commits| + 1
    && sh'.h.commits[..|sh.h.commits|] == sh.h.commits
    && (|sh'.h.commits| > |sh.h.commits| ==>
          && sh'.h.commits[|sh.h.commits|].tid == i && sh'.h.commits[|sh.h.commits|].status.Aborted?)
    && (forall l :: 0 <= l < |sh.locks| ==> sh'.locks[l] == sh.locks[l] || sh'.locks[l].Free?)
    && (forall a :: 0 <= a < |sh.mem| && sh'.mem[a] != sh.mem[a] ==>
          sh.design.WriteThrough? && sh'.mem[a] == MemoryAt(sh.h, |sh.h.commits|)[a])
  }

  lemma SameRestores(sh: Shared, i: nat)
    requires SharedShape(sh)
    ensures OnlyRestores(sh, sh, i)
  {
  }

  lemma UndoRestores(s: State, i: nat)
    requires Inv(s) && i < |s.txs| && s.txs[i].pc.Undo?
    ensures SharedShape(s.sh) && TxShape(s.sh, s.txs[i])
    ensures OnlyRestores(s.sh, StepUndo(s.sh, s.txs[i]).sh, i)
  {
    Stamp(s, i);
    var tx := s.txs[i];
    var k := tx.pc.k;
    if k < |tx.entries| {
      TxFacts(s, i);
      HeldNow(s, i, k);
      BaseIsLast(s, i, tx.entries[k].addr);
      assert tx.entries[k].mask != 0 && s.sh.design.WriteThrough? ==>
             tx.entries[k].value == Base(s.sh, tx.entries[k].addr)
      by { assert EntryValue(s.sh, tx, k); }
    }
    hide Inv, TxOk, EntryHeld, ValueAt, Base;
  }

  lemma UndoLockRestores(sh: Shared, i: nat, tx: Tx)
    requires SharedShape(sh) && TxShape(sh, tx) && tx.pc.UndoLock?
    ensures OnlyRestores(sh, StepUndoLock(sh, i, tx).sh, i)
  {
    hide ValueAt;
  }

  lemma RestoringStep(s: State, i: nat, c: Command, at: Attempt)
    requires Inv(s) && i < |s.txs| && InTune(s.txs[i], at) && Ask(s.sh, s.txs[i], c, at).ending.Aborting?
    ensures Shape(s) && OnlyRestores(s.sh, Next(s, i, c).sh, i)
  {
    Stamp(s, i);
    hide Inv, OnlyRestores, StepUndo, StepUndoLock, SharedShape, TxShape;
    if s.txs[i].pc.Undo? {
      UndoRestores(s, i);
    } else if s.txs[i].pc.UndoLock? {
      UndoLockRestores(s.sh, i, s.txs[i]);
    } else {
      SameRestores(s.sh, i);
    }
  }

  /** While the last thing that the program of thread i has asked for is to abort, the thread only releases locks and
      restores words to what was committed last. */
  lemma {:induction false} AbortOnlyRestores(s0: State, run: seq<Turn>, i: nat, q: nat)
    requires Initial(s0) && Fits(s0, run) && i < |s0.txs| && q < |run| && run[q].thread == i
    requires AttemptOf(s0, run[..q + 1], i, None).ending.Aborting?
    ensures OnlyRestores(Exec(s0, run[..q]).sh, Exec(s0, run[..q + 1]).sh, i)
  {
    InitialParts(s0);
    hide Initial, Shape, Inv, Step, InTune, Ask, OnlyRestores;
    StartsInTune(s0, i);
    RunInTune(s0, run[..q], i, None);
    assert run[..q + 1][..q] == run[..q];
    LastTurn(s0, run[..q + 1], i, None);
    RestoringStep(Exec(s0, run[..q]), i, run[q].command, AttemptOf(s0, run[..q], i, None));
  }

  /** The records of thread i after `sh'` are among those before, at `sh`, but for timestamps taken in vain. */
  ghost predicate NoNewRecord(sh: Shared, sh': Shared, i: nat) {
    && |sh.h.commits| <= |sh'.h.commits|
    && (forall t :: 0 <= t < |sh'.h.commits| && sh'.h.commits[t].tid == i ==>
          if t < |sh.h.commits| then sh'.h.commits[t] == sh.h.commits[t] else sh'.h.commits[t].status.Aborted?)
    && (forall k :: 0 <= k < |sh'.finished| && sh'.finished[k].tid == i ==>
          k < |sh.finished| && sh'.finished[k] == sh.finished[k])
  }

  /** Since moment n of the run, the last thing that the program of thread i has asked for is to abort. */
  ghost predicate AbortedSince(s0: State, run: seq<Turn>, n: nat, i: nat) {
    n <= |run| && forall q :: n < q <= |run| ==> AbortedAt(s0, run[..q], i)
  }

  predicate AbortedAt(s0: State, run: seq<Turn>, i: nat) {
    AttemptOf(s0, run, i, None).ending.Aborting?
  }

  lemma {:induction false} AbortedBefore(s0: State, run: seq<Turn>, n: nat, i: nat)
    requires AbortedSince(s0, run, n, i) && n < |run|
    ensures AbortedSince(s0, run[..|run| - 1], n, i) && AbortedAt(s0, run, i)
  {
    hide AbortedAt;
    var m := |run| - 1;
    assert run[..|run|] == run;
    forall q | n < q <= m
      ensures AbortedAt(s0, run[..m][..q], i)
    {
      assert run[..m][..q] == run[..q];
    }
  }

  /** From an abort until the thread begins again, none of its attempts is put on record or becomes committed,
      whatever other threads do; and when it is idle, it holds no lock. */
  lemma {:induction false} AbortLeavesNothing(s0: State, run: seq<Turn>, n: nat, i: nat)
    requires Initial(s0) && Fits(s0, run) && i < |s0.txs| && AbortedSince(s0, run, n, i)
    ensures NoNewRecord(Exec(s0, run[..n]).sh, Exec(s0, run).sh, i) && i < |Exec(s0, run).txs|
    ensures Exec(s0, run).txs[i].pc.Idle? ==>
              forall l :: 0 <= l < |Exec(s0, run).sh.locks| ==> !OwnLock(Exec(s0, run).sh, i, l)
  {
    InitialParts(s0);
    hide Inv, Shape, Initial, OwnLock, Exec;
    RunKeeps(s0, run);
    if Exec(s0, run).txs[i].pc.Idle? { IdleHoldsNothing(Exec(s0, run), i); }
    NoRecordSince(s0, run, n, i);
  }

  lemma {:induction false} NoRecordSince(s0: State, run: seq<Turn>, n: nat, i: nat)
    requires Initial(s0) && Fits(s0, run) && i < |s0.txs| && AbortedSince(s0, run, n, i)
    ensures NoNewRecord(Exec(s0, run[..n]).sh, Exec(s0, run).sh, i)
    decreases |run|
  {
    hide Initial, AttemptOf, Exec, AbortedAt;
    if n == |run| {
      assert run[..n] == run;
    } else {
      var m := |run| - 1;
      AbortedBefore(s0, run, n, i);
      assert run[..m][..n] == run[..n];
      NoRecordSince(s0, run[..m], n, i);
      hide NoNewRecord, AbortedSince;
      NoRecordTurn(s0, run, i);
      NoNewTwice(Exec(s0, run[..n]).sh, Exec(s0, run[..m]).sh, Exec(s0, run).sh, i);
    }
  }

  lemma {:induction false} NoRecordTurn(s0: State, run: seq<Turn>, i: nat)
    requires Initial(s0) && Fits(s0, run) && i < |s0.txs| && |run| > 0 && AbortedAt(s0, run, i)
    ensures NoNewRecord(Exec(s0, run[..|run| - 1]).sh, Exec(s0, run).sh, i)
  {
    hide Inv, Shape, Initial, AttemptOf, Exec, Step, OnlyRestores, NoNewRecord;
    var m := |run| - 1;
    InitialInv(s0);
    assert run[..m + 1] == run;
    if run[m].thread == i {
      AbortOnlyRestores(s0, run, i, m);
      NotRecorded(Exec(s0, run[..m]).sh, Exec(s0, run).sh, i);
    } else {
      LastTurn(s0, run, i, None);
      OtherRecord(Exec(s0, run[..m]), run[m].thread, run[m].command, i);
    }
  }

  lemma NoNewTwice(sh: Shared, sh1: Shared, sh2: Shared, i: nat)
    requires NoNewRecord(sh, sh1, i) && NoNewRecord(sh1, sh2, i)
    ensures NoNewRecord(sh, sh2, i)
  {
  }

  lemma NotRecorded(sh: Shared, sh': Shared, i: nat)
    requires OnlyRestores(sh, sh', i)
    ensures NoNewRecord(sh, sh', i)
  {
    assert forall t :: 0 <= t < |sh.h.commits| ==> sh'.h.commits[t] == sh'.h.commits[..|sh.h.commits|][t];
  }

  lemma IdleHoldsNothing(s: State, i: nat)
    requires Inv(s) && i < |s.txs| && s.txs[i].pc.Idle?
    ensures forall l :: 0 <= l < |s.sh.locks| ==> !OwnLock(s.sh, i, l)
  {
    forall l | 0 <= l < |s.sh.locks|
      ensures !OwnLock(s.sh, i, l)
    {
      assert Owned(s, l);
    }
  }

  lemma OtherRecord(s: State, j: nat, c: Command, i: nat)
    requires Inv(s) && j < |s.txs| && j != i
    ensures Shape(s) && NoNewRecord(s.sh, Next(s, j, c).sh, i)
  {
    Stamp(s, j);
    StepRecords(s.sh, j, s.txs[j], c);
    hide Inv, TxShape, SharedShape, Step;
    var f := Next(s, j, c).sh.finished;
    assert forall k :: 0 <= k < |s.sh.finished| ==> f[k] == f[..|s.sh.finished|][k];
  }
}
