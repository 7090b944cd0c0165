/** Commit-time locking: what a program asks for is what is done. The loads, stores, commits and aborts are those of
    the schedule, not of the descriptors. */
module CtlCommands {
  import opened CommitHistory
  import opened Requests
  import opened CtlMachine
  import opened CtlInvariant
  import opened CtlProof
  import opened CtlTheorems

  /** A thread is given its turn with command c: its attempt as the program sees it. Between operations the command is
      taken; loads and stores outside memory, and stores of a read-only transaction, are not made. */
  function Ask(sh: Shared, tx: Tx, c: Command, was: Attempt): Attempt {
    if tx.pc.Idle? then
      if c.Begin? && sh.clock < sh.max then Attempt(c.readOnly, sh.clock, [], Going) else was
    else if !tx.pc.Active? then was
    else
      match c
      case Begin(_) => was
      case Load(a) => if a < |sh.mem| then was.(requests := was.requests + [Get(a)]) else was
      case Store(a, value, mask) =>
        if a < |sh.mem| && !was.readOnly then was.(requests := was.requests + [Put(a, value, mask)]) else was
      case Commit => was.(ending := Committing)
      case Abort => was.(ending := Aborting)
  }

  predicate Fits(s: State, run: seq<Turn>) {
    forall k :: 0 <= k < |run| ==> run[k].thread < |s.txs|
  }

  /** The attempt of thread i after a run, when it was `was` before. */
  function AttemptOf(s: State, run: seq<Turn>, i: nat, was: Attempt): Attempt
    requires Shape(s) && i < |s.txs| && Fits(s, run)
    decreases |run|
  {
    if run == [] then was else
      var n := |run| - 1;
      var before := AttemptOf(s, run[..n], i, was);
      if run[n].thread != i then before
      else var t := Exec(s, run[..n]); Ask(t.sh, t.txs[i], run[n].command, before)
  }

  lemma {:induction false} LastTurn(s: State, run: seq<Turn>, i: nat, was: Attempt)
    requires Shape(s) && Fits(s, run) && |run| > 0 && i < |s.txs|
    ensures Fits(s, run[..|run| - 1])
    ensures var n := |run| - 1;
            var t := Exec(s, run[..n]);
            && Exec(s, run) == Next(t, run[n].thread, run[n].command)
            && AttemptOf(s, run, i, was)
               == if run[n].thread != i then AttemptOf(s, run[..n], i, was)
                  else Ask(t.sh, t.txs[i], run[n].command, AttemptOf(s, run[..n], i, was))
  {
    hide Shape, Next, Ask;
  }

  /** The descriptor answers the program: the log is what was asked for, an operation under way is the last request,
      and a commit or an abort is under way exactly when the program has asked for it. */
  predicate InTune(tx: Tx, at: Attempt) {
    && (!tx.pc.Idle? ==> tx.readOnly == at.readOnly && tx.start == at.start && !at.ending.NotBegun?)
    && (at.ending.Aborting? ==> tx.pc.Idle? || tx.pc.Undo?)
    && match tx.pc
       case Idle => true
       case Undo(_) => true
       case Active => at.ending.Going? && Matches(tx.log, at.requests)
       case RLoadLock(a) => at.ending.Going? && Owes(tx.log, at.requests, Get(a))
       case RLoadValue(a, _) => at.ending.Going? && Owes(tx.log, at.requests, Get(a))
       case RReloadLock(a, _, _) => at.ending.Going? && Owes(tx.log, at.requests, Get(a))
       case RClock(a, _, _) => at.ending.Going? && Owes(tx.log, at.requests, Get(a))
       case RExtend(a, _, _, _, _) => at.ending.Going? && Owes(tx.log, at.requests, Get(a))
       case RRecheck(a, _, _) => at.ending.Going? && Owes(tx.log, at.requests, Get(a))
       case WLoadLock(a, value, mask) => at.ending.Going? && Owes(tx.log, at.requests, Put(a, value, mask))
       case _ => at.ending.Committing? && Matches(tx.log, at.requests)
  }

  lemma UserInTune(sh: Shared, i: nat, tx: Tx, c: Command, at: Attempt)
    requires InTune(tx, at) && (tx.pc.Idle? || tx.pc.Active?)
    ensures InTune(StepUser(sh, i, tx, c).tx, Ask(sh, tx, c, at))
  {
    hide Find, Matches, Owes;
    if tx.pc.Active? {
      match c {
        case Load(a) => Asked(tx.log, at.requests, Get(a)); LoadInTune(sh, i, tx, a, at);
        case Store(a, value, mask) => Asked(tx.log, at.requests, Put(a, value, mask));
        case _ =>
      }
    } else {
      NothingAsked();
    }
  }

  lemma LoadInTune(sh: Shared, i: nat, tx: Tx, a: nat, at: Attempt)
    requires InTune(tx, at) && tx.pc.Active?
    ensures InTune(StepUser(sh, i, tx, Load(a)).tx, Ask(sh, tx, Load(a), at))
  {
    hide Find, Matches, Owes;
    Asked(tx.log, at.requests, Get(a));
    var k := Find(tx.writes, a);
    if k < |tx.writes| {
      Paid(tx.log, at.requests + [Get(a)], Read(a, tx.writes[k].value, Buffer), Get(a));
    }
  }

  lemma ReadInTune(sh: Shared, i: nat, tx: Tx, at: Attempt)
    requires SharedShape(sh) && TxShape(sh, tx) && InTune(tx, at)
    ensures tx.pc.RLoadLock? || tx.pc.RLoadValue? || tx.pc.RClock? ==> InTune(StepLoads(sh, tx).tx, at)
    ensures tx.pc.RReloadLock? ==> InTune(StepReload(sh, tx).tx, at)
    ensures tx.pc.RExtend? ==> InTune(StepExtend(sh, i, tx).tx, at)
    ensures tx.pc.RRecheck? ==> InTune(StepRecheck(sh, tx).tx, at)
  {
    hide Matches, Owes, Overlay, EntryValid, SharedShape, SetsShape;
    if tx.pc.RReloadLock? || tx.pc.RRecheck? {
      var a := tx.pc.a;
      forall v: nat
        ensures Matches(tx.log + [Read(a, Overlay(tx.writes, a, tx.pc.x), Memory(v, tx.pc.x))], at.requests)
      {
        Paid(tx.log, at.requests, Read(a, Overlay(tx.writes, a, tx.pc.x), Memory(v, tx.pc.x)), Get(a));
      }
    }
  }

  lemma WriteInTune(sh: Shared, tx: Tx, at: Attempt)
    requires SharedShape(sh) && TxShape(sh, tx) && InTune(tx, at) && tx.pc.WLoadLock?
    ensures InTune(StepWrite(sh, tx).tx, at)
  {
    hide Matches, Owes, Find, HasRead, Folded, SetsShape;
    var WLoadLock(a, value, mask) := tx.pc;
    Paid(tx.log, at.requests, Op.Write(a, value, mask), Put(a, value, mask));
  }

  lemma CommitInTune(sh: Shared, i: nat, tx: Tx, at: Attempt)
    requires SharedShape(sh) && TxShape(sh, tx) && InTune(tx, at)
    ensures tx.pc.AcqLoad? ==> InTune(StepAcqLoad(sh, i, tx).tx, at)
    ensures tx.pc.AcqCas? ==> InTune(StepAcqCas(sh, i, tx).tx, at)
    ensures tx.pc.TakeTime? ==> InTune(StepTime(sh, i, tx).tx, at)
    ensures tx.pc.Validate? ==> InTune(StepValidate(sh, i, tx).tx, at)
    ensures tx.pc.Install? ==> InTune(StepInstall(sh, tx).tx, at)
    ensures tx.pc.Mix? ==> InTune(StepMix(sh, tx).tx, at)
    ensures tx.pc.Release? ==> InTune(StepRelease(sh, tx).tx, at)
    ensures tx.pc.Undo? ==> InTune(StepUndo(sh, tx).tx, at)
  {
    hide Matches, Owes, EntryValid, SetsShape, Merge, Record;
  }

  lemma StepInTune(sh: Shared, i: nat, tx: Tx, c: Command, at: Attempt)
    requires SharedShape(sh) && TxShape(sh, tx) && InTune(tx, at)
    ensures InTune(Step(sh, i, tx, c).tx, Ask(sh, tx, c, at))
  {
    hide InTune, SharedShape, TxShape, StepUser, StepLoads, StepReload, StepExtend, StepRecheck, StepWrite, StepAcqLoad;
    hide StepAcqCas, StepTime, StepValidate, StepInstall, StepMix, StepRelease, StepUndo;
    if tx.pc.Idle? || tx.pc.Active? {
      UserInTune(sh, i, tx, c, at);
    } else {
      assert Ask(sh, tx, c, at) == at;
      ReadInTune(sh, i, tx, at);
      if tx.pc.WLoadLock? { WriteInTune(sh, tx, at); }
      CommitInTune(sh, i, tx, at);
    }
  }

  /** Over every run, every thread's descriptor answers its program. */
  lemma {:induction false} RunInTune(s: State, run: seq<Turn>, i: nat, was: Attempt)
    requires Shape(s) && Fits(s, run) && i < |s.txs| && InTune(s.txs[i], was)
    ensures InTune(Exec(s, run).txs[i], AttemptOf(s, run, i, was))
    decreases |run|
  {
    hide InTune, Shape, Ask;
    if run != [] {
      var n := |run| - 1;
      RunInTune(s, run[..n], i, was);
      var t := Exec(s, run[..n]);
      var j := run[n].thread;
      assert SharedShape(t.sh) && TxShape(t.sh, t.txs[i]) by { ShapeParts(t, i); }
      if j == i { StepInTune(t.sh, i, t.txs[i], run[n].command, AttemptOf(s, run[..n], i, was)); }
      hide Step;
    }
  }

  lemma ShapeParts(s: State, i: nat)
    requires Shape(s) && i < |s.txs|
    ensures SharedShape(s.sh) && TxShape(s.sh, s.txs[i])
  {
  }

  // ---- the records ----

  /** What one access of thread i does to the records: it adds one for its own timestamp or its own write-free commit,
      and decides its own pending one. */
  ghost predicate RecordsOk(sh: Shared, i: nat, tx: Tx, c: Command, sh': Shared) {
    && |sh.h.commits| <= |sh'.h.commits| <= |sh.h.commits| + 1
    && |sh.finished| <= |sh'.finished| <= |sh.finished| + 1
    && (forall t :: 0 <= t < |sh.h.commits| ==>
          || sh'.h.commits[t] == sh.h.commits[t]
          || (tx.pc.Validate? && tx.pc.t == t + 1
              && sh'.h.commits[t] == sh.h.commits[t].(status := sh'.h.commits[t].status)))
    && (|sh'.h.commits| > |sh.h.commits| ==>
          && tx.pc.TakeTime?
          && sh'.h.commits[|sh.h.commits|] == CommitHistory.Commit(i, Pending, tx.start, tx.writes, tx.log))
    && sh'.finished[..|sh.finished|] == sh.finished
    && (|sh'.finished| > |sh.finished| ==>
          tx.pc.Active? && c.Commit? && tx.writes == []
          && sh'.finished[|sh.finished|] == Finished(i, tx.log, tx.start, tx.end, sh.clock))
  }

  lemma RecordsSame(sh: Shared, i: nat, tx: Tx, c: Command, sh': Shared)
    requires sh'.h == sh.h && sh'.finished == sh.finished
    ensures RecordsOk(sh, i, tx, c, sh')
  {
  }

  lemma StepRecords(sh: Shared, i: nat, tx: Tx, c: Command)
    requires SharedShape(sh) && TxShape(sh, tx)
    ensures RecordsOk(sh, i, tx, c, Step(sh, i, tx, c).sh)
  {
    hide StepUser, StepLoads, StepReload, StepExtend, StepRecheck, StepWrite, StepAcqLoad;
    hide StepAcqCas, StepTime, StepValidate, StepInstall, StepMix, StepRelease, StepUndo, RecordsOk;
    if tx.pc.Idle? || tx.pc.Active? || tx.pc.TakeTime? || tx.pc.Validate? {
      DecidingRecords(sh, i, tx, c);
    } else {
      OtherRecords(sh, i, tx, c);
      RecordsSame(sh, i, tx, c, Step(sh, i, tx, c).sh);
    }
  }

  lemma DecidingRecords(sh: Shared, i: nat, tx: Tx, c: Command)
    requires SharedShape(sh) && TxShape(sh, tx)
    ensures tx.pc.Idle? || tx.pc.Active? ==> RecordsOk(sh, i, tx, c, StepUser(sh, i, tx, c).sh)
    ensures tx.pc.TakeTime? ==> RecordsOk(sh, i, tx, c, StepTime(sh, i, tx).sh)
    ensures tx.pc.Validate? ==> RecordsOk(sh, i, tx, c, StepValidate(sh, i, tx).sh)
  {
    hide Find, EntryValid, SetsShape;
  }

  lemma OtherRecords(sh: Shared, i: nat, tx: Tx, c: Command)
    requires SharedShape(sh) && TxShape(sh, tx)
    requires !tx.pc.Idle? && !tx.pc.Active? && !tx.pc.TakeTime? && !tx.pc.Validate?
    ensures Step(sh, i, tx, c).sh.h == sh.h && Step(sh, i, tx, c).sh.finished == sh.finished
  {
    hide EntryValid, SetsShape, Find, HasRead, Merge, Overlay, Folded;
  }

  /** At the end of the run the program of thread `tid` has asked for a commit of exactly what the log says, in an
      attempt that began at clock `start`. */
  ghost predicate CommitAskedNow(s: State, run: seq<Turn>, tid: nat, start: nat, log: seq<Op>)
    requires Shape(s) && Fits(s, run)
  {
    && tid < |s.txs|
    && var at := AttemptOf(s, run, tid, None); at.ending.Committing? && at.start == start && Matches(log, at.requests)
  }

  ghost predicate CommitAsked(s: State, run: seq<Turn>, tid: nat, start: nat, log: seq<Op>)
    requires Shape(s) && Fits(s, run)
  {
    exists p :: 0 <= p <= |run| && CommitAskedNow(s, run[..p], tid, start, log)
  }

  lemma {:induction false} AskedEarlier(s: State, run: seq<Turn>, n: nat, tid: nat, start: nat, log: seq<Op>)
    requires Shape(s) && Fits(s, run) && n <= |run| && CommitAsked(s, run[..n], tid, start, log)
    ensures CommitAsked(s, run, tid, start, log)
  {
    var p :| 0 <= p <= n && CommitAskedNow(s, run[..n][..p], tid, start, log);
    assert run[..n][..p] == run[..p];
  }

  ghost predicate AllAsked(s0: State, run: seq<Turn>, s: State)
    requires Shape(s0) && Fits(s0, run)
  {
    && (forall t :: 0 <= t < |s.sh.h.commits| ==>
          var c := s.sh.h.commits[t]; CommitAsked(s0, run, c.tid, c.start, c.log))
    && (forall k :: 0 <= k < |s.sh.finished| ==>
          var f := s.sh.finished[k]; CommitAsked(s0, run, f.tid, f.start, f.log))
  }

  lemma InitialParts(s: State)
    requires Initial(s)
    ensures Shape(s) && s.sh.h.commits == [] && s.sh.finished == []
    ensures forall i :: 0 <= i < |s.txs| ==> s.txs[i].pc.Idle?
  {
  }

  lemma StartsInTune(s: State, i: nat)
    requires i < |s.txs| && s.txs[i].pc.Idle?
    ensures InTune(s.txs[i], None)
  {
  }

  /** A timestamp, and a write-free commit, is only ever taken for an attempt that the program has told to commit, with
      the loads and stores that it has asked for in that attempt, in their order. */
  lemma {:induction false} RecordsAsked(s0: State, run: seq<Turn>)
    requires Initial(s0) && (Shape(s0) ==> Fits(s0, run))
    ensures Shape(s0) && AllAsked(s0, run, Exec(s0, run))
    decreases |run|
  {
    InitialParts(s0);
    hide Initial, Shape, CommitAsked;
    if run != [] {
      var n := |run| - 1;
      RecordsAsked(s0, run[..n]);
      var s := Exec(s0, run[..n]);
      StartsInTune(s0, run[n].thread);
      RunInTune(s0, run[..n], run[n].thread, None);
      ShapeParts(s, run[n].thread);
      hide InTune;
      RecordsStep(s0, run, s);
    }
  }

  lemma {:induction false} NewAsked(s0: State, run: seq<Turn>, s: State)
    requires Shape(s0) && Fits(s0, run) && |run| > 0 && s == Exec(s0, run[..|run| - 1])
    requires run[|run| - 1].thread < |s.txs|
    requires var i := run[|run| - 1].thread; InTune(s.txs[i], AttemptOf(s0, run[..|run| - 1], i, None))
    ensures var tx := s.txs[run[|run| - 1].thread];
            tx.pc.TakeTime? || (tx.pc.Active? && run[|run| - 1].command.Commit?)
            ==> CommitAsked(s0, run, run[|run| - 1].thread, tx.start, tx.log)
  {
    hide Shape, Next, Exec, Matches, Owes, AttemptOf;
    var n := |run| - 1;
    var i := run[n].thread;
    LastTurn(s0, run, i, None);
    AskedAt(s0, run, n, i, s.txs[i].start, s.txs[i].log);
    AskedAt(s0, run, n + 1, i, s.txs[i].start, s.txs[i].log);
    assert run[..n + 1] == run;
  }

  lemma {:induction false} AskedAt(s: State, run: seq<Turn>, p: nat, i: nat, start: nat, log: seq<Op>)
    requires Shape(s) && Fits(s, run) && p <= |run|
    ensures CommitAskedNow(s, run[..p], i, start, log) ==> CommitAsked(s, run, i, start, log)
  {
  }

  lemma {:induction false} RecordsStep(s0: State, run: seq<Turn>, s: State)
    requires Shape(s0) && Fits(s0, run) && |run| > 0 && s == Exec(s0, run[..|run| - 1])
    requires AllAsked(s0, run[..|run| - 1], s)
    requires var i := run[|run| - 1].thread;
             && InTune(s.txs[i], AttemptOf(s0, run[..|run| - 1], i, None))
             && SharedShape(s.sh) && TxShape(s.sh, s.txs[i])
    ensures AllAsked(s0, run, Exec(s0, run))
  {
    var n := |run| - 1;
    var i := run[n].thread;
    var tx := s.txs[i];
    var c := run[n].command;
    var r := Exec(s0, run);
    assert r.sh == Step(s.sh, i, tx, c).sh;
    StepRecords(s.sh, i, tx, c);
    hide Shape, SharedShape, TxShape, Step, InTune, CommitAsked, Exec, AttemptOf;
    NewAsked(s0, run, s);
    forall t | 0 <= t < |r.sh.h.commits|
      ensures var d := r.sh.h.commits[t]; CommitAsked(s0, run, d.tid, d.start, d.log)
    {
      if t < |s.sh.h.commits| {
        var d := s.sh.h.commits[t];
        AskedEarlier(s0, run, n, d.tid, d.start, d.log);
      }
    }
    forall k | 0 <= k < |r.sh.finished|
      ensures var f := r.sh.finished[k]; CommitAsked(s0, run, f.tid, f.start, f.log)
    {
      if k < |s.sh.finished| {
        var f := s.sh.finished[k];
        assert f == r.sh.finished[..|s.sh.finished|][k];
        AskedEarlier(s0, run, n, f.tid, f.start, f.log);
      }
    }
  }

  // ---- commits stand ----

  /** A commit that has passed its validation is on record with what the program has asked for, and stays so. */
  lemma {:induction false} CommitStands(s0: State, run: seq<Turn>, n: nat, i: nat) returns (t: nat)
    requires Initial(s0) && (Shape(s0) ==> Fits(s0, run)) && n <= |run| && i < |s0.txs|
    requires Shape(s0) && Writing(Exec(s0, run[..n]).txs[i].pc)
    ensures var at := AttemptOf(s0, run[..n], i, None);
            && t < |Exec(s0, run).sh.h.commits|
            && var c := Exec(s0, run).sh.h.commits[t];
               c.tid == i && c.status.Committed? && c.start == at.start && Matches(c.log, at.requests)
  {
    InitialParts(s0);
    StartsInTune(s0, i);
    RunInTune(s0, run[..n], i, None);
    InitialInv(s0);
    ExecInv(s0, run[..n]);
    var s := Exec(s0, run[..n]);
    Stamp(s, i);
    hide Inv, Shape, SharedShape, TxShape, Initial, Next, Matches, Owes;
    t := Ts(s.txs[i].pc) - 1;
    Stands(s0, run, n, t);
  }

  lemma {:induction false} Stands(s0: State, run: seq<Turn>, n: nat, t: nat)
    requires Inv(s0) && Fits(s0, run) && n <= |run|
    requires t < |Exec(s0, run[..n]).sh.h.commits| && Exec(s0, run[..n]).sh.h.commits[t].status.Committed?
    ensures t < |Exec(s0, run).sh.h.commits|
    ensures Exec(s0, run).sh.h.commits[t] == Exec(s0, run[..n]).sh.h.commits[t]
    decreases |run|
  {
    if n == |run| {
      assert run[..n] == run;
    } else {
      var m := |run| - 1;
      LastTurn(s0, run, run[m].thread, None);
      assert run[..m][..n] == run[..n];
      ExecInv(s0, run[..m]);
      hide Inv, Shape, Next, Exec, AttemptOf;
      Stands(s0, run[..m], n, t);
      StandsStep(Exec(s0, run[..m]), run[m].thread, run[m].command, t);
    }
  }

  lemma StandsStep(s: State, j: nat, c: Command, t: nat)
    requires Inv(s) && j < |s.txs| && t < |s.sh.h.commits| && s.sh.h.commits[t].status.Committed?
    ensures Shape(s) && t < |Next(s, j, c).sh.h.commits| && Next(s, j, c).sh.h.commits[t] == s.sh.h.commits[t]
  {
    Stamp(s, j);
    StepRecords(s.sh, j, s.txs[j], c);
    hide Inv, TxShape, SharedShape, Step;
  }

  lemma Stamp(s: State, j: nat)
    requires Inv(s) && j < |s.txs|
    ensures Shape(s) && SharedShape(s.sh) && TxShape(s.sh, s.txs[j]) && StampOk(s.sh, j, s.txs[j])
  {
    assert TxOk(s.sh, j, s.txs[j]);
  }

  // ---- aborts leave nothing ----

  /** Only locks differ, and only from held to free. */
  ghost predicate OnlyReleases(sh: Shared, sh': Shared) {
    && sh' == sh.(locks := sh'.locks) && |sh'.locks| == |sh.locks|
    && forall l :: 0 <= l < |sh.locks| ==> sh'.locks[l] == sh.locks[l] || sh'.locks[l].Free?
  }

  lemma QuietStep(sh: Shared, i: nat, tx: Tx, c: Command, at: Attempt)
    requires SharedShape(sh) && TxShape(sh, tx) && InTune(tx, at) && Ask(sh, tx, c, at).ending.Aborting?
    ensures OnlyReleases(sh, Step(sh, i, tx, c).sh)
  {
    hide SetsShape, Matches, Owes, Find;
    assert tx.pc.Undo? || Step(sh, i, tx, c).sh == sh;
    if tx.pc.Undo? { UndoReleases(sh, tx); }
  }

  lemma UndoReleases(sh: Shared, tx: Tx)
    requires SharedShape(sh) && TxShape(sh, tx) && tx.pc.Undo?
    ensures OnlyReleases(sh, StepUndo(sh, tx).sh)
  {
  }

  /** Position q of the run: thread i moves, and only releases locks. */
  ghost predicate OnlyReleasesAt(s0: State, run: seq<Turn>, q: nat)
    requires Shape(s0) && Fits(s0, run) && q < |run|
  {
    OnlyReleases(Exec(s0, run[..q]).sh, Exec(s0, run[..q + 1]).sh)
  }

  /** While the last thing that the program of thread i has asked for is to abort, the thread writes to no word, takes
      no timestamp, records nothing, and only releases locks. */
  lemma {:induction false} AbortOnlyReleases(s0: State, run: seq<Turn>, i: nat, q: nat)
    requires Initial(s0) && Shape(s0) && Fits(s0, run) && i < |s0.txs| && q < |run| && run[q].thread == i
    requires AttemptOf(s0, run[..q + 1], i, None).ending.Aborting?
    ensures OnlyReleasesAt(s0, run, q)
  {
    InitialParts(s0);
    StartsInTune(s0, i);
    RunInTune(s0, run[..q], i, None);
    var s := Exec(s0, run[..q]);
    ShapeParts(s, i);
    assert run[..q + 1][..q] == run[..q];
    QuietStep(s.sh, i, s.txs[i], run[q].command, AttemptOf(s0, run[..q], i, None));
    hide Initial, Shape, Step, InTune, Ask, SharedShape, TxShape, OnlyReleases;
  }

  /** The records of thread i after `sh'` are among those before, at `sh`. */
  ghost predicate NoNewRecord(sh: Shared, sh': Shared, i: nat) {
    && (forall t :: 0 <= t < |sh'.h.commits| && sh'.h.commits[t].tid == i ==>
          t < |sh.h.commits| && sh'.h.commits[t] == sh.h.commits[t])
    && (forall k :: 0 <= k < |sh'.finished| && sh'.finished[k].tid == i ==>
          k < |sh.finished| && sh'.finished[k] == sh.finished[k])
  }

  /** From an abort until the thread begins again, none of its attempts is put on record or becomes committed,
      whatever other threads do; and when it is idle, it holds no lock. */
  lemma {:induction false} AbortLeavesNothing(s0: State, run: seq<Turn>, n: nat, i: nat)
    requires Initial(s0) && Shape(s0) && Fits(s0, run) && i < |s0.txs| && n <= |run|
    requires forall q :: n < q <= |run| ==> AttemptOf(s0, run[..q], i, None).ending.Aborting?
    ensures NoNewRecord(Exec(s0, run[..n]).sh, Exec(s0, run).sh, i)
    ensures Exec(s0, run).txs[i].pc.Idle? ==>
              forall l :: 0 <= l < |Exec(s0, run).sh.locks| ==> OwnedByOther(Exec(s0, run).sh.locks[l], i)
    decreases |run|
  {
    hide Inv, Shape, Initial, OwnedByOther, AttemptOf, Exec;
    InitialInv(s0);
    ExecInv(s0, run);
    if Exec(s0, run).txs[i].pc.Idle? { IdleHoldsNothing(Exec(s0, run), i); }
    if n == |run| {
      assert run[..n] == run;
    } else {
      var m := |run| - 1;
      LastTurn(s0, run, i, None);
      forall q | n < q <= m
        ensures AttemptOf(s0, run[..m][..q], i, None).ending.Aborting?
      {
        assert run[..m][..q] == run[..q];
      }
      assert run[..m][..n] == run[..n] && run[..m + 1] == run;
      AbortLeavesNothing(s0, run[..m], n, i);
      ExecInv(s0, run[..m]);
      if run[m].thread == i {
        AbortOnlyReleases(s0, run, i, m);
      } else {
        OtherRecord(Exec(s0, run[..m]), run[m].thread, run[m].command, i);
      }
    }
  }

  predicate OwnedByOther(l: LockWord, i: nat) {
    l.Held? ==> l.owner != i
  }

  lemma IdleHoldsNothing(s: State, i: nat)
    requires Inv(s) && i < |s.txs| && s.txs[i].pc.Idle?
    ensures forall l :: 0 <= l < |s.sh.locks| ==> OwnedByOther(s.sh.locks[l], i)
  {
    forall l | 0 <= l < |s.sh.locks|
      ensures OwnedByOther(s.sh.locks[l], i)
    {
      assert Owned(s, l);
    }
  }

  lemma OtherRecord(s: State, j: nat, c: Command, i: nat)
    requires Inv(s) && j < |s.txs| && j != i
    ensures Shape(s) && NoNewRecord(s.sh, Next(s, j, c).sh, i)
  {
    Stamp(s, j);
    StepRecords(s.sh, j, s.txs[j], c);
    hide Inv, TxShape, SharedShape, Step;
    var f := Next(s, j, c).sh.finished;
    assert forall k :: 0 <= k < |s.sh.finished| ==> f[k] == f[..|s.sh.finished|][k];
  }
}
