/** How far the clock gets in the commit-time locking design: an attempt that has not yet taken its timestamp may
    still take one, and VERSION_MAX keeps others from starting. */
module CtlClock {
  import opened CommitHistory
  import opened CtlMachine
  import opened CtlInvariant
  import opened CtlSteps
  import opened CtlTheorems
  import ClockBarrier
  import LockWords

  /** The timestamps that the attempt may still take. */
  function Due(pc: Pc): nat {
    match pc
    case Idle => 0
    case Validate(_, _) => 0
    case Install(_, _) => 0
    case Mix(_, _, _) => 0
    case Release(_, _) => 0
    case Undo(_) => 0
    case _ => 1
  }

  /** The timestamps that one step takes. */
  predicate Takes(sh: Shared, tx: Tx, r: After) {
    && r.sh.max == sh.max && sh.clock <= r.sh.clock <= sh.clock + 1
    && (r.sh.clock > sh.clock ==> !tx.pc.Idle? && !r.tx.pc.Idle?)
    && if tx.pc.Idle? then r.tx.pc.Idle? || sh.clock < sh.max
       else r.sh.clock - sh.clock + Due(r.tx.pc) <= Due(tx.pc)
  }

  lemma UserTakes(sh: Shared, i: nat, tx: Tx, c: Command)
    requires tx.pc.Idle? || tx.pc.Active?
    ensures Takes(sh, tx, StepUser(sh, i, tx, c))
  {
    hide Find;
  }

  lemma ReadTakes(sh: Shared, i: nat, tx: Tx)
    requires SharedShape(sh) && TxShape(sh, tx)
    ensures tx.pc.RLoadLock? || tx.pc.RLoadValue? || tx.pc.RClock? ==> Takes(sh, tx, StepLoads(sh, tx))
    ensures tx.pc.RReloadLock? ==> Takes(sh, tx, StepReload(sh, tx))
    ensures tx.pc.RExtend? ==> Takes(sh, tx, StepExtend(sh, i, tx))
    ensures tx.pc.RRecheck? ==> Takes(sh, tx, StepRecheck(sh, tx))
  {
    hide SetsShape, Overlay, EntryValid;
  }

  lemma WriteTakes(sh: Shared, i: nat, tx: Tx)
    requires SharedShape(sh) && TxShape(sh, tx)
    ensures tx.pc.WLoadLock? ==> Takes(sh, tx, StepWrite(sh, tx))
    ensures tx.pc.AcqLoad? ==> Takes(sh, tx, StepAcqLoad(sh, i, tx))
    ensures tx.pc.AcqCas? ==> Takes(sh, tx, StepAcqCas(sh, i, tx))
    ensures tx.pc.TakeTime? ==> Takes(sh, tx, StepTime(sh, i, tx))
  {
    hide SetsShape, Find, HasRead, Folded;
  }

  lemma CommitTakes(sh: Shared, i: nat, tx: Tx)
    requires SharedShape(sh) && TxShape(sh, tx)
    ensures tx.pc.Validate? ==> Takes(sh, tx, StepValidate(sh, i, tx))
    ensures tx.pc.Install? ==> Takes(sh, tx, StepInstall(sh, tx))
    ensures tx.pc.Mix? ==> Takes(sh, tx, StepMix(sh, tx))
    ensures tx.pc.Release? ==> Takes(sh, tx, StepRelease(sh, tx))
    ensures tx.pc.Undo? ==> Takes(sh, tx, StepUndo(sh, tx))
  {
    hide SetsShape, EntryValid, Merge, Record;
  }

  lemma StepTakes(sh: Shared, i: nat, tx: Tx, c: Command)
    requires SharedShape(sh) && TxShape(sh, tx)
    ensures Takes(sh, tx, Step(sh, i, tx, c))
  {
    hide SharedShape, TxShape, Takes, StepUser, StepLoads, StepReload, StepExtend, StepRecheck, StepWrite, StepAcqLoad;
    hide StepAcqCas, StepTime, StepValidate, StepInstall, StepMix, StepRelease, StepUndo;
    if tx.pc.Idle? || tx.pc.Active? { UserTakes(sh, i, tx, c); }
    ReadTakes(sh, i, tx);
    WriteTakes(sh, i, tx);
    CommitTakes(sh, i, tx);
  }

  /** The threads as the barrier sees them, when all are registered. */
  function Pcs(txs: seq<Tx>): (pc: seq<ClockBarrier.Pc>)
    ensures |pc| == |txs|
  {
    seq(|txs|, i requires 0 <= i < |txs| =>
      if txs[i].pc.Idle? then ClockBarrier.Outside else ClockBarrier.Running(1 - Due(txs[i].pc)))
  }

  ghost predicate ClockOk(s: State) {
    s.sh.clock >= s.sh.max > 0 ==> s.sh.clock + ClockBarrier.AllDue(1, Pcs(s.txs)) <= s.sh.max - 1 + |s.txs|
  }

  lemma ClockKept(s: State, i: nat, c: Command)
    requires Shape(s) && i < |s.txs| && ClockOk(s)
    ensures ClockOk(Next(s, i, c))
  {
    var r := Step(s.sh, i, s.txs[i], c);
    var pcs, pcs' := Pcs(s.txs), Pcs(s.txs[i := r.tx]);
    StepTakes(s.sh, i, s.txs[i], c);
    hide Step, Shape;
    assert pcs' == pcs[i := pcs'[i]];
    ClockBarrier.CountUpdate(1, pcs, i, pcs'[i]);
    ClockBarrier.DueBound(1, pcs);
    ClockBarrier.DueBound(1, pcs');
  }

  lemma {:induction false} ExecClock(s: State, run: seq<Turn>)
    requires Shape(s) && (forall k :: 0 <= k < |run| ==> run[k].thread < |s.txs|) && ClockOk(s)
    ensures ClockOk(Exec(s, run))
    decreases |run|
  {
    hide Shape, Next, ClockOk;
    if run != [] {
      var n := |run| - 1;
      ExecClock(s, run[..n]);
      ClockKept(Exec(s, run[..n]), run[n].thread, run[n].command);
    }
  }

  lemma InitialClock(s: State)
    requires Initial(s)
    ensures ClockOk(s)
  {
  }

  /** The clock stays below VERSION_MAX plus the number of threads. */
  lemma ClockIsBounded(s: State)
    requires Reachable(s) && s.sh.max > 0
    ensures s.sh.clock <= s.sh.max - 1 + |s.txs|
  {
    var s0: State, run: seq<Turn> :|
      Initial(s0) && (forall k :: 0 <= k < |run| ==> run[k].thread < |s0.txs|) && s == Exec(s0, run);
    InitialClock(s0);
    ExecClock(s0, run);
    hide Exec, Initial, Reachable;
  }

  // ---- the bound is reached ----

  lemma ReachableNext(s: State, i: nat, c: Command)
    requires Reachable(s) && i < |s.txs|
    ensures Shape(s) && Reachable(Next(s, i, c))
  {
    hide Initial, Next, Shape, Inv;
    ReachableShape(s);
    var s0: State, run: seq<Turn> :|
      Initial(s0) && (forall k :: 0 <= k < |run| ==> run[k].thread < |s0.txs|) && s == Exec(s0, run);
    InitialShape(s0);
    var longer := run + [Turn(i, c)];
    assert longer[..|longer| - 1] == run;
    assert Next(s, i, c) == Exec(s0, longer);
  }

  lemma InitialShape(s: State)
    requires Initial(s)
    ensures Shape(s)
  {
  }

  lemma ReachableShape(s: State)
    requires Reachable(s)
    ensures Shape(s)
  {
    ReachableInv(s);
    hide TxsOk, OwnersOk, PendingOk, VersionsOk, MemoryOk, PastOk, Shape;
  }

  /** What the shared data and the descriptor of thread i may be, with everybody else as in s. */
  ghost predicate Leads(s: State, i: nat, sh: Shared, tx: Tx) {
    i < |s.txs| && Reachable(State(sh, s.txs[i := tx]))
  }

  lemma Move(s: State, i: nat, sh: Shared, tx: Tx, c: Command)
    requires Leads(s, i, sh, tx)
    ensures SharedShape(sh) && TxShape(sh, tx)
    ensures var r := Step(sh, i, tx, c); Leads(s, i, r.sh, r.tx)
  {
    var t := State(sh, s.txs[i := tx]);
    ReachableNext(t, i, c);
    assert SharedShape(sh) && TxShape(sh, t.txs[i]);
    hide Reachable, Shape, Step, SharedShape, TxShape;
    assert t.txs[i := Step(sh, i, tx, c).tx] == s.txs[i := Step(sh, i, tx, c).tx];
  }

  /** Every word has a lock of its own. */
  predicate OwnLocks(sh: Shared) {
    && |sh.mem| == |sh.locks| == |sh.h.lockOf| == |sh.vers|
    && forall a :: 0 <= a < |sh.h.lockOf| ==> sh.h.lockOf[a] == a
  }

  function Started(clock: nat): Tx {
    Tx(Active, false, clock, clock, [], [], [], [], 0, [])
  }

  function Holding(tx: Tx, a: nat, v: nat): Tx {
    tx.(pc := TakeTime, writes := [Update(a, 0, ALL_BITS)], version := [v], noDrop := [false], acquired := 1,
        log := [Op.Write(a, 0, ALL_BITS)])
  }

  /** A thread begins and stores to a word, whose lock is free, up to where it commits. */
  lemma Stores(s: State, i: nat, sh: Shared, tx: Tx, a: nat) returns (r: Tx)
    requires Leads(s, i, sh, tx) && OwnLocks(sh) && a < |sh.mem| && tx.pc.Idle?
    requires sh.clock < sh.max && sh.locks[a].Free?
    ensures r == Started(sh.clock).(pc := AcqLoad(1), writes := [Update(a, 0, ALL_BITS)],
                                    version := [sh.locks[a].version],
                                    noDrop := [true], log := [Op.Write(a, 0, ALL_BITS)])
    ensures Leads(s, i, sh, r)
  {
    hide Leads, SharedShape, TxShape;
    var v := sh.locks[a].version;
    Move(s, i, sh, tx, Begin(false));
    var tx1 := Started(sh.clock);
    assert Step(sh, i, tx, Begin(false)) == After(sh, tx1);
    Move(s, i, sh, tx1, Store(a, 0, ALL_BITS));
    var tx2 := tx1.(pc := WLoadLock(a, 0, ALL_BITS));
    assert Step(sh, i, tx1, Store(a, 0, ALL_BITS)) == After(sh, tx2);
    Move(s, i, sh, tx2, Begin(false));
    var tx3 := tx2.(pc := Active, writes := [Update(a, 0, ALL_BITS)], version := [v], noDrop := [true],
                    log := [Op.Write(a, 0, ALL_BITS)]);
    assert Step(sh, i, tx2, Begin(false)) == After(sh, tx3);
    Move(s, i, sh, tx3, Command.Commit);
    r := tx3.(pc := AcqLoad(1));
    assert Step(sh, i, tx3, Command.Commit) == After(sh, r);
  }

  /** And acquires the lock. */
  lemma Prepares(s: State, i: nat, sh: Shared, tx: Tx, a: nat) returns (sh': Shared)
    requires Leads(s, i, sh, tx) && OwnLocks(sh) && a < |sh.mem| && tx.pc.Idle?
    requires sh.clock < sh.max && sh.locks[a].Free?
    ensures sh' == sh.(locks := sh.locks[a := Held(i, 0)])
    ensures Leads(s, i, sh', Holding(Started(sh.clock), a, sh.locks[a].version))
  {
    var tx1 := Stores(s, i, sh, tx, a);
    hide Leads, SharedShape, TxShape;
    var v := sh.locks[a].version;
    Move(s, i, sh, tx1, Begin(false));
    var tx2 := tx1.(pc := AcqCas(1, v));
    assert Step(sh, i, tx1, Begin(false)) == After(sh, tx2);
    Move(s, i, sh, tx2, Begin(false));
    sh' := sh.(locks := sh.locks[a := Held(i, 0)]);
    var tx3 := Holding(Started(sh.clock), a, v);
    assert tx2.noDrop[0 := false] == [false] && tx2.version[0 := v] == [v];
    assert Step(sh, i, tx2, Begin(false)) == After(sh', tx3);
  }

  /** A thread alone at the clock commits without validation. */
  lemma CommitsAlone(s: State, i: nat, sh: Shared, tx: Tx, a: nat) returns (sh': Shared, tx': Tx)
    requires Leads(s, i, sh, tx) && OwnLocks(sh) && a < |sh.mem| && tx.pc.Idle?
    requires sh.clock < sh.max && sh.locks[a].Free? && sh.clock == |sh.h.commits|
    ensures Leads(s, i, sh', tx') && tx'.pc.Idle? && OwnLocks(sh') && |sh'.mem| == |sh.mem|
    ensures sh'.max == sh.max && sh'.clock == sh.clock + 1 == |sh'.h.commits|
    ensures sh'.locks == sh.locks[a := Free(sh.clock + 1)]
  {
    var sh1 := Prepares(s, i, sh, tx, a);
    hide Leads;
    var tx1 := Holding(Started(sh.clock), a, sh.locks[a].version);
    var now := sh.clock + 1;
    var sh2 := Decides(s, i, sh1, tx1);
    sh', tx' := WritesBack(s, i, sh2, tx1.(pc := Install(now, 0)), now, a);
  }

  lemma Decides(s: State, i: nat, sh: Shared, tx: Tx) returns (sh': Shared)
    requires Leads(s, i, sh, tx) && tx.pc == TakeTime && tx.start == sh.clock == |sh.h.commits|
    ensures Leads(s, i, sh', tx.(pc := Install(sh.clock + 1, 0)))
    ensures sh' == sh.(clock := sh.clock + 1, h := sh'.h) && sh'.h.lockOf == sh.h.lockOf
    ensures |sh'.h.commits| == sh'.clock
  {
    var now := sh.clock + 1;
    Move(s, i, sh, tx, Begin(false));
    hide Leads, SharedShape, TxShape;
    var r := StepTime(sh, i, tx);
    assert Step(sh, i, tx, Begin(false)) == r;
    Move(s, i, r.sh, r.tx, Begin(false));
    sh' := r.sh.(h := Record(r.sh.h, now, Committed));
    assert Step(r.sh, i, r.tx, Begin(false)) == After(sh', tx.(pc := Install(now, 0)));
  }

  lemma WritesBack(s: State, i: nat, sh: Shared, tx: Tx, now: nat, a: nat) returns (sh': Shared, tx': Tx)
    requires Leads(s, i, sh, tx) && OwnLocks(sh) && a < |sh.mem| && tx.pc == Install(now, 0)
    requires tx.writes == [Update(a, 0, ALL_BITS)] && tx.noDrop == [false]
    ensures Leads(s, i, sh', tx') && tx'.pc.Idle?
    ensures sh' == sh.(mem := sh.mem[a := 0], locks := sh.locks[a := Free(now)], vers := sh.vers[a := now])
  {
    hide Leads, SharedShape, TxShape;
    Move(s, i, sh, tx, Begin(false));
    var sh1, tx1 := sh.(mem := sh.mem[a := 0]), tx.(pc := Release(now, 0));
    assert Step(sh, i, tx, Begin(false)) == After(sh1, tx1);
    Move(s, i, sh1, tx1, Begin(false));
    sh' := sh1.(locks := sh.locks[a := Free(now)], vers := sh.vers[a := now]);
    var tx2 := tx.(pc := Install(now, 1));
    assert Step(sh1, i, tx1, Begin(false)) == After(sh', tx2);
    Move(s, i, sh', tx2, Begin(false));
    tx' := tx.(pc := Idle);
    assert Step(sh', i, tx2, Begin(false)) == After(sh', tx');
  }

  /** n threads, each with a word of its own. */
  ghost predicate Scene(s: State, max: nat, n: nat) {
    && Reachable(s) && OwnLocks(s.sh) && s.sh.max == max && |s.sh.mem| == |s.txs| == n
    && s.sh.clock == |s.sh.h.commits|
  }

  ghost predicate AllIdle(s: State, from: nat) {
    |s.sh.locks| == |s.txs| && forall i :: from <= i < |s.txs| ==> s.txs[i].pc.Idle? && s.sh.locks[i].Free?
  }

  lemma Opening(max: nat, n: nat) returns (s: State)
    ensures Scene(s, max, n) && AllIdle(s, 0) && s.sh.clock == 0
  {
    s := State(Shared(max, 0, seq(n, _ => 0), seq(n, _ => Free(0)), seq(n, _ => 0),
                      History(seq(n, a => a), seq(n, _ => 0), []), []),
               seq(n, _ => Tx(Idle, false, 0, 0, [], [], [], [], 0, [])));
    assert Initial(s) && s == Exec(s, []);
  }

  lemma Here(s: State, i: nat)
    requires Reachable(s) && i < |s.txs|
    ensures Leads(s, i, s.sh, s.txs[i])
  {
    assert s.txs[i := s.txs[i]] == s.txs;
    assert s == State(s.sh, s.txs[i := s.txs[i]]);
  }

  /** One thread alone moves the clock up to VERSION_MAX. */
  lemma {:induction false} ClockClimbs(max: nat, n: nat, clock: nat) returns (s: State)
    requires n > 0 && clock <= max
    ensures Scene(s, max, n) && AllIdle(s, 0) && s.sh.clock == clock
    decreases clock
  {
    if clock == 0 {
      s := Opening(max, n);
    } else {
      var t := ClockClimbs(max, n, clock - 1);
      Here(t, 0);
      var sh, tx := CommitsAlone(t, 0, t.sh, t.txs[0], 0);
      s := State(sh, t.txs[0 := tx]);
    }
    hide Reachable;
  }

  /** One thread alone, which has committed as often as it may. */
  lemma LoneReachesMax(max: nat) returns (s: State)
    requires max > 0
    ensures Scene(s, max, 1) && AllIdle(s, 0) && s.sh.clock == max
  {
    s := ClockClimbs(max, 1, max);
  }

  /** There the threads get ready, one after another, */
  lemma {:induction false} AllPrepare(max: nat, n: nat, k: nat) returns (s: State)
    requires n > 0 && max > 0 && k <= n
    ensures Scene(s, max, n) && AllIdle(s, k) && s.sh.clock == max - 1
    ensures forall i :: 0 <= i < k ==> s.txs[i].pc.TakeTime?
    decreases k
  {
    if k == 0 {
      s := ClockClimbs(max, n, max - 1);
    } else {
      var t := AllPrepare(max, n, k - 1);
      Here(t, k - 1);
      var sh := Prepares(t, k - 1, t.sh, t.txs[k - 1], k - 1);
      s := State(sh, t.txs[k - 1 := Holding(Started(t.sh.clock), k - 1, t.sh.locks[k - 1].version)]);
    }
    hide Reachable;
  }

  /** and take their timestamps. */
  lemma {:induction false} AllTake(max: nat, n: nat, k: nat) returns (s: State)
    requires n > 0 && max > 0 && k <= n
    ensures Reachable(s) && s.sh.max == max && |s.txs| == n && s.sh.clock == max - 1 + k
    ensures forall i :: k <= i < n ==> s.txs[i].pc.TakeTime?
    decreases k
  {
    if k == 0 {
      s := AllPrepare(max, n, n);
    } else {
      var t := AllTake(max, n, k - 1);
      s := TakesTime(t, k - 1);
    }
    hide Reachable;
  }

  lemma TakesTime(s: State, i: nat) returns (t: State)
    requires Reachable(s) && i < |s.txs| && s.txs[i].pc.TakeTime?
    ensures Reachable(t) && t.sh.max == s.sh.max && t.sh.clock == s.sh.clock + 1 && |t.txs| == |s.txs|
    ensures forall k :: 0 <= k < |s.txs| && k != i ==> t.txs[k] == s.txs[k]
  {
    ReachableNext(s, i, Begin(false));
    assert TxShape(s.sh, s.txs[i]);
    t := Next(s, i, Begin(false));
    hide Reachable, Shape, SharedShape, TxShape, StepUser, StepLoads, StepReload, StepExtend, StepRecheck, StepWrite;
    hide StepAcqLoad, StepAcqCas, StepValidate, StepInstall, StepMix, StepRelease, StepUndo;
    assert Step(s.sh, i, s.txs[i], Begin(false)) == StepTime(s.sh, i, s.txs[i]);
  }

  /** The bound is reached, for any number of threads. */
  lemma ClockReachesBound(max: nat, n: nat) returns (s: State)
    requires n > 0 && max > 0
    ensures Reachable(s) && s.sh.max == max && |s.txs| == n && s.sh.clock == max - 1 + n
  {
    s := AllTake(max, n, n);
  }

  /** A reachable state of n threads, with the program's VERSION_MAX. */
  ghost predicate OfThreads(s: State, n: nat) {
    Reachable(s) && s.sh.max == LockWords.VERSION_MAX && |s.txs| == n
  }

  /** No timestamp of any run of n threads loses a bit in a lock word. */
  ghost predicate AllFit(n: nat) {
    forall s: State, t: nat :: OfThreads(s, n) && t <= s.sh.clock
      ==> LockWords.GetTimestamp(LockWords.SetTimestamp(t)) == t
  }

  /** Timestamps fit if and only if there are at most MAX_THREADS + 1 threads. */
  lemma TimestampsFit(n: nat)
    ensures AllFit(n) <==> n <= LockWords.MAX_THREADS + 1
  {
    if n <= LockWords.MAX_THREADS + 1 {
      forall s: State, t: nat | OfThreads(s, n) && t <= s.sh.clock
        ensures LockWords.GetTimestamp(LockWords.SetTimestamp(t)) == t
      {
        ClockIsBounded(s);
        LockWords.TimestampFits(t);
      }
    } else {
      var s := ClockReachesBound(LockWords.VERSION_MAX, n);
      LockWords.TimestampFits(s.sh.clock);
    }
  }
}
