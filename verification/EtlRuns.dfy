/** Runs of the encounter-time locking designs that take the clock as far as it can get. */
module EtlRuns {
  import opened CommitHistory
  import opened EtlMachine
  import opened EtlInvariant
  import opened EtlTheorems
  import opened EtlClock
  import LockWords

  lemma ReachableNext(s: State, i: nat, c: Command)
    requires Reachable(s) && i < |s.txs|
    ensures Shape(s) && Reachable(Next(s, i, c))
  {
    hide Initial, Next, Shape, Inv;
    ReachableShape(s);
    var s0: State, run: seq<Turn> :| Initial(s0) && s == Exec(s0, run);
    var longer := run + [Turn(i, c)];
    assert longer[..|longer| - 1] == run;
    assert Next(s, i, c) == Exec(s0, longer);
  }

  lemma ReachableShape(s: State)
    requires Reachable(s)
    ensures Shape(s)
  {
    ReachableInv(s);
    hide TxsOk, OwnersOk, PendingOk, VersionsOk, MemoryOk, PastOk, Shape;
  }

  // ---- one thread's accesses, with everybody else as in s ----

  /** What the shared data and the descriptor of thread i may be, with everybody else as in s. */
  ghost predicate Leads(s: State, i: nat, sh: Shared, tx: Tx) {
    i < |s.txs| && Reachable(State(sh, s.txs[i := tx]))
  }

  /** Which function says what the step does. */
  predicate StepIs(sh: Shared, i: nat, tx: Tx, c: Command)
    requires SharedShape(sh) && TxShape(sh, tx)
  {
    var r := Step(sh, i, tx, c);
    match tx.pc
    case Idle => r == StepUser(sh, i, tx, c)
    case Active => r == StepUser(sh, i, tx, c)
    case RLoadLock(_) => r == StepLoads(sh, i, tx)
    case RLoadValue(_, _) => r == StepLoads(sh, i, tx)
    case RReloadLock(_, _, _) => r == StepReload(sh, i, tx)
    case WLoadLock(_, _, _) => r == StepWrite(sh, i, tx)
    case WCas(_, _, _, _) => r == StepCas(sh, i, tx)
    case WLoad(_, _, _) => r == StepWLoad(sh, tx)
    case WStore(_, _, _, _) => r == StepWStore(sh, tx)
    case TakeTime => r == StepTime(sh, i, tx)
    case Validate(_, _) => r == StepValidate(sh, i, tx)
    case Install(_, _) => r == StepInstall(sh, tx)
    case Release(_, _) => r == StepRelease(sh, tx)
    case Undo(_, _) => r == StepUndo(sh, tx)
    case UndoLock(_, _) => r == StepUndoLock(sh, i, tx)
    case _ => true
  }

  lemma StepByPc(sh: Shared, i: nat, tx: Tx, c: Command)
    requires SharedShape(sh) && TxShape(sh, tx)
    ensures StepIs(sh, i, tx, c)
  {
    hide SharedShape, TxShape, StepUser, StepLoads, StepReload, StepExtend, StepRecheck, StepWrite, StepCas;
    hide StepWLoad, StepWStore, StepTime, StepValidate, StepInstall, StepRelease, StepUndo, StepUndoLock;
  }

  lemma Move(s: State, i: nat, sh: Shared, tx: Tx, c: Command)
    requires Leads(s, i, sh, tx)
    ensures SharedShape(sh) && TxShape(sh, tx)
    ensures var r := Step(sh, i, tx, c); Leads(s, i, r.sh, r.tx)
    ensures StepIs(sh, i, tx, c)
  {
    var t := State(sh, s.txs[i := tx]);
    ReachableNext(t, i, c);
    StepByPc(sh, i, tx, c);
    assert SharedShape(sh) && TxShape(sh, t.txs[i]);
    hide Reachable, Shape, Step, SharedShape, TxShape;
    assert t.txs[i := Step(sh, i, tx, c).tx] == s.txs[i := Step(sh, i, tx, c).tx];
  }

  /** Every word has a lock of its own. */
  predicate OwnLocks(sh: Shared) {
    && |sh.mem| == |sh.locks| == |sh.h.lockOf| == |sh.vers|
    && (forall a :: 0 <= a < |sh.h.lockOf| ==> sh.h.lockOf[a] == a)
    && sh.clock == |sh.h.commits|
  }

  /** The setting stays, and of the locks only that of word a may change. */
  predicate Same(sh: Shared, sh': Shared, a: nat) {
    && OwnLocks(sh') && sh'.max == sh.max && sh'.design == sh.design
    && |sh'.locks| == |sh.locks| && |sh'.mem| == |sh.mem|
    && forall l :: 0 <= l < |sh.locks| && l != a ==> sh'.locks[l] == sh.locks[l]
  }

  lemma SameThen(sh: Shared, sh1: Shared, sh2: Shared, a: nat)
    requires Same(sh, sh1, a) && Same(sh1, sh2, a)
    ensures Same(sh, sh2, a)
  {
  }

  function Started(clock: nat, size: nat): Tx {
    Tx(Active, false, clock, clock, [], [], [], size)
  }

  /** A transaction with one write-set entry, for word a. */
  predicate OneEntry(tx: Tx, a: nat, v: Stamp) {
    |tx.entries| == 1 && tx.entries[0].addr == a && tx.entries[0].stamp == v && tx.entries[0].next == 0 && !tx.readOnly
  }

  lemma Begins(s: State, i: nat, sh: Shared, tx: Tx)
    requires Leads(s, i, sh, tx) && tx.pc.Idle? && sh.clock < sh.max
    ensures Leads(s, i, sh, Started(sh.clock, tx.size))
  {
    Move(s, i, sh, tx, Begin(false));
    hide Step, Leads, SharedShape, TxShape;
    assert Step(sh, i, tx, Begin(false)) == After(sh, Started(sh.clock, tx.size));
  }

  /** The first store of an active transaction, to a word whose lock is free, up to the acquisition. */
  lemma Takes(s: State, i: nat, sh: Shared, tx: Tx, a: nat) returns (sh': Shared, tx': Tx)
    requires Leads(s, i, sh, tx) && OwnLocks(sh) && a < |sh.mem| && tx.pc.Active? && !tx.readOnly
    requires tx.entries == [] && tx.size > 0 && sh.locks[a].Free? && sh.locks[a].stamp.version <= tx.end
    ensures Leads(s, i, sh', tx') && sh' == sh.(locks := sh.locks[a := Held(i, 0)])
    ensures var r := WriteEntry(sh', tx.(pc := WCas(a, 0, ALL_BITS, sh.locks[a].stamp)),
                                Acquired([], a, sh.locks[a].stamp), 0, 0, ALL_BITS);
            r == After(sh', tx')
  {
    var v := sh.locks[a].stamp;
    Move(s, i, sh, tx, Store(a, 0, ALL_BITS));
    var tx1 := tx.(pc := WLoadLock(a, 0, ALL_BITS));
    hide Step, Leads, SharedShape, TxShape, WriteEntry, HasRead;
    assert Step(sh, i, tx, Store(a, 0, ALL_BITS)) == After(sh, tx1);
    Move(s, i, sh, tx1, Begin(false));
    var tx2 := tx.(pc := WCas(a, 0, ALL_BITS, v));
    assert Step(sh, i, tx1, Begin(false)) == After(sh, tx2);
    Move(s, i, sh, tx2, Begin(false));
    sh' := sh.(locks := sh.locks[a := Held(i, 0)]);
    tx' := Step(sh, i, tx2, Begin(false)).tx;
    assert Step(sh, i, tx2, Begin(false)).sh == sh' by {
      WriteEntryKeepsLocks(sh', tx2, Acquired([], a, v), 0, 0, ALL_BITS);
    }
  }

  /** The whole store, in either design. */
  lemma Stores(s: State, i: nat, sh: Shared, tx: Tx, a: nat) returns (sh': Shared, tx': Tx)
    requires Leads(s, i, sh, tx) && OwnLocks(sh) && a < |sh.mem| && tx.pc.Active? && !tx.readOnly
    requires tx.entries == [] && tx.size > 0 && sh.locks[a].Free? && sh.locks[a].stamp.version <= tx.end
    ensures Leads(s, i, sh', tx') && Same(sh, sh', a) && sh'.locks[a] == Held(i, 0) && sh'.clock == sh.clock
    ensures tx'.pc.Active? && OneEntry(tx', a, sh.locks[a].stamp)
    ensures tx'.start == tx.start && tx'.end == tx.end && tx'.rset == tx.rset && tx'.size == tx.size
  {
    sh', tx' := Takes(s, i, sh, tx, a);
    hide Leads, Merge, Join;
    if sh.design.WriteThrough? {
      sh', tx' := StoresInPlace(s, i, sh', tx', a);
    }
  }

  lemma StoresInPlace(s: State, i: nat, sh: Shared, tx: Tx, a: nat) returns (sh': Shared, tx': Tx)
    requires Leads(s, i, sh, tx) && OwnLocks(sh) && a < |sh.mem| && tx.pc == WLoad(0, 0, ALL_BITS) && !tx.readOnly
    requires sh.design.WriteThrough? && |tx.entries| == 1 && tx.entries[0].addr == a && tx.entries[0].next == 0
    ensures Leads(s, i, sh', tx') && Same(sh, sh', a) && sh'.locks == sh.locks && sh'.clock == sh.clock
    ensures tx'.pc.Active? && OneEntry(tx', a, tx.entries[0].stamp)
    ensures tx'.start == tx.start && tx'.end == tx.end && tx'.rset == tx.rset && tx'.size == tx.size
  {
    Move(s, i, sh, tx, Begin(false));
    hide Step, Leads, SharedShape, TxShape, Merge, Join;
    var r1 := StepWLoad(sh, tx);
    assert Step(sh, i, tx, Begin(false)) == r1;
    Move(s, i, r1.sh, r1.tx, Begin(false));
    var r2 := StepWStore(r1.sh, r1.tx);
    assert Step(r1.sh, i, r1.tx, Begin(false)) == r2;
    sh', tx' := r2.sh, r2.tx;
  }

  lemma Asks(s: State, i: nat, sh: Shared, tx: Tx) returns (tx': Tx)
    requires Leads(s, i, sh, tx) && tx.pc.Active? && tx.entries != []
    ensures Leads(s, i, sh, tx') && tx' == tx.(pc := TakeTime)
  {
    Move(s, i, sh, tx, Command.Commit);
    hide Step, Leads, SharedShape, TxShape;
    tx' := tx.(pc := TakeTime);
    assert Step(sh, i, tx, Command.Commit) == After(sh, tx');
  }

  /** The rollback of one entry, up to its release. */
  lemma Undoes(s: State, i: nat, sh: Shared, tx: Tx, a: nat, v: Stamp) returns (sh': Shared, tx': Tx)
    requires Leads(s, i, sh, tx) && OwnLocks(sh) && a < |sh.mem| && tx.pc == Undo(0, 0) && OneEntry(tx, a, v)
    ensures Leads(s, i, sh', tx') && Same(sh, sh', a) && sh'.locks == sh.locks && sh'.clock == sh.clock
    ensures tx' == tx.(pc := UndoLock(0, 0))
  {
    Move(s, i, sh, tx, Begin(false));
    hide Step, Leads, SharedShape, TxShape;
    var r := StepUndo(sh, tx);
    assert Step(sh, i, tx, Begin(false)) == r;
    sh', tx' := r.sh, r.tx;
  }

  /** The release that ends a rollback, with timestamp t or none. */
  lemma Drops(s: State, i: nat, sh: Shared, tx: Tx, a: nat, v: Stamp, t: nat) returns (sh': Shared, tx': Tx)
    requires Leads(s, i, sh, tx) && OwnLocks(sh) && a < |sh.mem| && tx.pc == UndoLock(0, t) && OneEntry(tx, a, v)
    requires sh.design.WriteThrough? && (v.incarnation < INCARNATION_MAX || t > 0)
    ensures Leads(s, i, sh', tx') && Same(sh, sh', a) && sh'.clock == sh.clock && tx' == tx.(pc := Idle)
    ensures sh'.locks[a]
            == Free(if v.incarnation < INCARNATION_MAX then Stamp(v.version, v.incarnation + 1) else Stamp(t, 0))
  {
    Move(s, i, sh, tx, Begin(false));
    hide Step, Leads, SharedShape, TxShape;
    var r := StepUndoLock(sh, i, tx);
    assert Step(sh, i, tx, Begin(false)) == r;
    sh', tx' := r.sh, tx.(pc := Idle);
    Ends(s, i, sh', r.tx);
    assert r.tx == tx.(pc := Undo(1, t));
    assert r.tx.(pc := Idle) == tx';
  }

  lemma Ends(s: State, i: nat, sh: Shared, tx: Tx)
    requires Leads(s, i, sh, tx) && tx.pc.Undo? && tx.pc.k == |tx.entries|
    ensures Leads(s, i, sh, tx.(pc := Idle))
  {
    Move(s, i, sh, tx, Begin(false));
    hide Step, Leads, SharedShape, TxShape;
    assert Step(sh, i, tx, Begin(false)) == After(sh, tx.(pc := Idle));
  }

  lemma GivesUp(s: State, i: nat, sh: Shared, tx: Tx)
    requires Leads(s, i, sh, tx) && tx.pc.Active? && tx.entries != []
    ensures Leads(s, i, sh, tx.(pc := Undo(0, 0)))
  {
    Move(s, i, sh, tx, Abort);
    hide Step, Leads, SharedShape, TxShape;
    assert Step(sh, i, tx, Abort) == After(sh, tx.(pc := Undo(0, 0)));
  }

  /** A transaction that takes a word and gives up: the incarnation of its lock goes up. */
  lemma WearsOut(s: State, i: nat, sh: Shared, tx: Tx, a: nat) returns (sh': Shared, tx': Tx)
    requires Leads(s, i, sh, tx) && OwnLocks(sh) && a < |sh.mem| && tx.pc.Idle? && tx.size > 0 && sh.clock < sh.max
    requires sh.design.WriteThrough? && sh.locks[a].Free? && sh.locks[a].stamp.version <= sh.clock
    requires sh.locks[a].stamp.incarnation < INCARNATION_MAX
    ensures Leads(s, i, sh', tx') && Same(sh, sh', a) && sh'.clock == sh.clock && tx'.pc.Idle? && tx'.size == tx.size
    ensures sh'.locks[a] == Free(Stamp(sh.locks[a].stamp.version, sh.locks[a].stamp.incarnation + 1))
  {
    var v := sh.locks[a].stamp;
    hide Leads, OwnLocks;
    Begins(s, i, sh, tx);
    var sh1, tx1 := Stores(s, i, sh, Started(sh.clock, tx.size), a);
    sh', tx' := Abandons(s, i, sh1, tx1, a, v);
    SameThen(sh, sh1, sh', a);
    hide Same;
  }

  lemma Abandons(s: State, i: nat, sh: Shared, tx: Tx, a: nat, v: Stamp) returns (sh': Shared, tx': Tx)
    requires Leads(s, i, sh, tx) && OwnLocks(sh) && a < |sh.mem| && tx.pc.Active? && OneEntry(tx, a, v)
    requires sh.design.WriteThrough? && v.incarnation < INCARNATION_MAX
    ensures Leads(s, i, sh', tx') && Same(sh, sh', a) && sh'.clock == sh.clock && tx' == tx.(pc := Idle)
    ensures sh'.locks[a] == Free(Stamp(v.version, v.incarnation + 1))
  {
    hide Leads, OwnLocks;
    GivesUp(s, i, sh, tx);
    var sh1, tx1 := Undoes(s, i, sh, tx.(pc := Undo(0, 0)), a, v);
    sh', tx' := Drops(s, i, sh1, tx1, a, v, 0);
    SameThen(sh, sh1, sh', a);
    hide Same;
  }

  /** A transaction that reads a word. */
  lemma Reads(s: State, i: nat, sh: Shared, tx: Tx, a: nat) returns (tx': Tx)
    requires Leads(s, i, sh, tx) && OwnLocks(sh) && a < |sh.mem| && tx.pc.Active? && !tx.readOnly && tx.rset == []
    requires sh.locks[a].Free? && sh.locks[a].stamp.version <= tx.end
    ensures Leads(s, i, sh, tx') && tx'.rset == [REntry(a, sh.locks[a].stamp.version)]
    ensures tx'.pc.Active? && tx'.entries == tx.entries && !tx'.readOnly
    ensures tx'.start == tx.start && tx'.end == tx.end && tx'.size == tx.size
  {
    var v := sh.locks[a].stamp;
    Move(s, i, sh, tx, Load(a));
    hide Step, Leads, SharedShape, TxShape;
    var tx1 := tx.(pc := RLoadLock(a));
    assert Step(sh, i, tx, Load(a)) == After(sh, tx1);
    Move(s, i, sh, tx1, Begin(false));
    var tx2 := tx.(pc := RLoadValue(a, v));
    assert Step(sh, i, tx1, Begin(false)) == After(sh, tx2);
    Move(s, i, sh, tx2, Begin(false));
    var tx3 := tx.(pc := RReloadLock(a, v, sh.mem[a]));
    assert Step(sh, i, tx2, Begin(false)) == After(sh, tx3);
    Move(s, i, sh, tx3, Begin(false));
    tx' := Step(sh, i, tx3, Begin(false)).tx;
    assert Step(sh, i, tx3, Begin(false)).sh == sh;
  }

  /** A thread whose timestamp follows its start commits without validation. */
  lemma CommitsAlone(s: State, i: nat, sh: Shared, tx: Tx, a: nat, v: Stamp) returns (sh': Shared, tx': Tx)
    requires Leads(s, i, sh, tx) && OwnLocks(sh) && a < |sh.mem| && tx.pc == TakeTime && OneEntry(tx, a, v)
    requires tx.start == sh.clock
    ensures Leads(s, i, sh', tx') && Same(sh, sh', a) && sh'.clock == sh.clock + 1 && tx' == tx.(pc := Idle)
    ensures sh'.locks[a] == Free(Stamp(sh.clock + 1, 0))
  {
    hide Leads, OwnLocks;
    var sh1 := Times(s, i, sh, tx, a);
    var now := sh.clock + 1;
    var tx2 := tx.(pc := Install(now, 0));
    var sh2 := Decides(s, i, sh1, tx, a, now);
    SameThen(sh, sh1, sh2, a);
    sh', tx' := WritesBack(s, i, sh2, tx2, now, a, v);
    SameThen(sh, sh2, sh', a);
    hide Same;
  }

  /** The timestamp is taken. */
  lemma Times(s: State, i: nat, sh: Shared, tx: Tx, a: nat) returns (sh': Shared)
    requires Leads(s, i, sh, tx) && OwnLocks(sh) && a < |sh.mem| && tx.pc == TakeTime
    ensures Leads(s, i, sh', tx.(pc := Validate(sh.clock + 1, 0))) && Same(sh, sh', a)
    ensures sh'.locks == sh.locks && sh'.clock == sh.clock + 1
  {
    Move(s, i, sh, tx, Begin(false));
    hide Step, Leads, SharedShape, TxShape, Updates;
    sh' := StepTime(sh, i, tx).sh;
    assert Step(sh, i, tx, Begin(false)) == After(sh', tx.(pc := Validate(sh.clock + 1, 0)));
  }

  /** Nobody else has taken one since the start. */
  lemma Decides(s: State, i: nat, sh: Shared, tx: Tx, a: nat, now: nat) returns (sh': Shared)
    requires OwnLocks(sh) && a < |sh.mem| && 0 < now == sh.clock && tx.start == now - 1
    requires Leads(s, i, sh, tx.(pc := Validate(now, 0)))
    ensures Leads(s, i, sh', tx.(pc := Install(now, 0))) && Same(sh, sh', a)
    ensures sh'.locks == sh.locks && sh'.clock == sh.clock
  {
    var tx1 := tx.(pc := Validate(now, 0));
    Move(s, i, sh, tx1, Begin(false));
    hide Step, Leads, SharedShape, TxShape;
    sh' := sh.(h := Record(sh.h, now, Committed));
    assert Step(sh, i, tx1, Begin(false)) == After(sh', tx.(pc := Install(now, 0)));
  }

  lemma WritesBack(s: State, i: nat, sh: Shared, tx: Tx, now: nat, a: nat, v: Stamp) returns (sh': Shared, tx': Tx)
    requires Leads(s, i, sh, tx) && OwnLocks(sh) && a < |sh.mem| && tx.pc == Install(now, 0) && OneEntry(tx, a, v)
    ensures Leads(s, i, sh', tx') && Same(sh, sh', a) && sh'.clock == sh.clock && tx' == tx.(pc := Idle)
    ensures sh'.locks[a] == Free(Stamp(now, 0))
  {
    Move(s, i, sh, tx, Begin(false));
    hide Step, Leads, SharedShape, TxShape;
    var r1 := StepInstall(sh, tx);
    assert Step(sh, i, tx, Begin(false)) == r1;
    Move(s, i, r1.sh, r1.tx, Begin(false));
    var r2 := StepRelease(r1.sh, r1.tx);
    assert Step(r1.sh, i, r1.tx, Begin(false)) == r2;
    Move(s, i, r2.sh, r2.tx, Begin(false));
    sh', tx' := r2.sh, tx.(pc := Idle);
    assert Step(r2.sh, i, r2.tx, Begin(false)) == After(sh', tx');
  }

  /** A commit that fails because of the word l it has read, of a thread whose lock has used up its incarnations:
      it takes two timestamps. */
  lemma FailsTwice(s: State, i: nat, sh: Shared, tx: Tx, a: nat, v: Stamp) returns (sh': Shared, tx': Tx)
    requires Leads(s, i, sh, tx) && OwnLocks(sh) && a < |sh.mem| && tx.pc == TakeTime && OneEntry(tx, a, v)
    requires sh.design.WriteThrough? && v.incarnation == INCARNATION_MAX && tx.start != sh.clock
    requires |tx.rset| == 1 && tx.rset[0].lock < |sh.locks| && sh.locks[tx.rset[0].lock].Free?
    requires sh.locks[tx.rset[0].lock].stamp.version != tx.rset[0].version
    ensures Leads(s, i, sh', tx') && Same(sh, sh', a) && sh'.clock == sh.clock + 2 && tx' == tx.(pc := Idle)
    ensures sh'.locks[a] == Free(Stamp(sh.clock + 2, 0))
  {
    hide Leads, OwnLocks;
    var now := sh.clock + 1;
    var sh1 := Times(s, i, sh, tx, a);
    var sh2 := Refuses(s, i, sh1, tx, a, now);
    SameThen(sh, sh1, sh2, a);
    var sh3, tx3 := Undoes(s, i, sh2, tx.(pc := Undo(0, 0)), a, v);
    SameThen(sh, sh2, sh3, a);
    var sh4, tx4 := Ticks(s, i, sh3, tx3, a, v);
    SameThen(sh, sh3, sh4, a);
    sh', tx' := Drops(s, i, sh4, tx4, a, v, now + 1);
    SameThen(sh, sh4, sh', a);
    hide Same;
  }

  /** The only word read has a newer version. */
  lemma Refuses(s: State, i: nat, sh: Shared, tx: Tx, a: nat, now: nat) returns (sh': Shared)
    requires OwnLocks(sh) && a < |sh.mem| && 0 < now == sh.clock && tx.start != now - 1 && tx.entries != []
    requires |tx.rset| == 1 && tx.rset[0].lock < |sh.locks| && sh.locks[tx.rset[0].lock].Free?
    requires sh.locks[tx.rset[0].lock].stamp.version != tx.rset[0].version
    requires Leads(s, i, sh, tx.(pc := Validate(now, 0)))
    ensures Leads(s, i, sh', tx.(pc := Undo(0, 0))) && Same(sh, sh', a)
    ensures sh'.locks == sh.locks && sh'.clock == sh.clock
  {
    var tx1 := tx.(pc := Validate(now, 0));
    Move(s, i, sh, tx1, Begin(false));
    hide Step, Leads, SharedShape, TxShape;
    sh' := sh.(h := Record(sh.h, now, Aborted));
    assert Step(sh, i, tx1, Begin(false)) == After(sh', tx.(pc := Undo(0, 0)));
  }

  lemma Ticks(s: State, i: nat, sh: Shared, tx: Tx, a: nat, v: Stamp) returns (sh': Shared, tx': Tx)
    requires Leads(s, i, sh, tx) && OwnLocks(sh) && tx.pc == UndoLock(0, 0) && OneEntry(tx, a, v)
    requires sh.design.WriteThrough? && v.incarnation == INCARNATION_MAX
    ensures Leads(s, i, sh', tx') && Same(sh, sh', a) && sh'.locks == sh.locks
    ensures sh'.clock == sh.clock + 1 && tx' == tx.(pc := UndoLock(0, sh.clock + 1))
  {
    Move(s, i, sh, tx, Begin(false));
    hide Step, Leads, SharedShape, TxShape;
    var r := StepUndoLock(sh, i, tx);
    assert Step(sh, i, tx, Begin(false)) == r;
    sh', tx' := r.sh, r.tx;
  }

  // ---- n threads, each with a word of its own, and one word more ----

  ghost predicate Scene(s: State, d: Design, max: nat, n: nat) {
    && Reachable(s) && OwnLocks(s.sh) && s.sh.design == d && s.sh.max == max && |s.txs| == n && |s.sh.mem| == n + 1
    && forall i :: 0 <= i < n ==> s.txs[i].size > 0
  }

  ghost predicate AllIdle(s: State, from: nat) {
    forall i :: from <= i < |s.txs| ==> s.txs[i].pc.Idle?
  }

  lemma Opening(d: Design, max: nat, n: nat) returns (s: State)
    ensures Scene(s, d, max, n) && AllIdle(s, 0) && s.sh.clock == 0
    ensures forall l :: 0 <= l < |s.sh.locks| ==> s.sh.locks[l] == Free(Stamp(0, 0))
  {
    s := State(Shared(d, max, 0, seq(n + 1, _ => 0), seq(n + 1, _ => Free(Stamp(0, 0))), seq(n + 1, _ => Stamp(0, 0)),
                      History(seq(n + 1, a => a), seq(n + 1, _ => 0), []), []),
               seq(n, _ => Tx(Idle, false, 0, 0, [], [], [], 1)));
    assert Initial(s) && s == Exec(s, []);
  }

  /** Thread i has worked on word a, and everything else is as it was. */
  ghost predicate Worked(s: State, t: State, i: nat, a: nat) {
    && Same(s.sh, t.sh, a) && |t.txs| == |s.txs|
    && (forall k :: 0 <= k < |s.txs| && k != i ==> t.txs[k] == s.txs[k])
  }

  lemma Enters(s: State, d: Design, max: nat, n: nat, i: nat)
    requires Scene(s, d, max, n) && i < n
    ensures Leads(s, i, s.sh, s.txs[i])
  {
    assert s.txs[i := s.txs[i]] == s.txs;
    assert s == State(s.sh, s.txs[i := s.txs[i]]);
  }

  lemma Leaves(s: State, d: Design, max: nat, n: nat, i: nat, sh: Shared, tx: Tx, a: nat) returns (t: State)
    requires Scene(s, d, max, n) && i < n && Leads(s, i, sh, tx) && Same(s.sh, sh, a) && tx.size > 0
    ensures Scene(t, d, max, n) && Worked(s, t, i, a) && t.sh == sh && t.txs[i] == tx
  {
    t := State(sh, s.txs[i := tx]);
    hide Reachable, OwnLocks;
  }

  /** A whole transaction that commits a store to word a. */
  lemma Commits(s: State, d: Design, max: nat, n: nat, i: nat, a: nat) returns (t: State)
    requires Scene(s, d, max, n) && i < n && s.txs[i].pc.Idle? && s.sh.clock < max && a < |s.sh.locks|
    requires s.sh.locks[a].Free? && s.sh.locks[a].stamp.version <= s.sh.clock
    ensures Scene(t, d, max, n) && Worked(s, t, i, a) && t.txs[i].pc.Idle? && t.sh.clock == s.sh.clock + 1
    ensures t.sh.locks[a] == Free(Stamp(s.sh.clock + 1, 0))
  {
    Enters(s, d, max, n, i);
    Begins(s, i, s.sh, s.txs[i]);
    hide Leads, Reachable;
    var sh1, tx1 := Stores(s, i, s.sh, Started(s.sh.clock, s.txs[i].size), a);
    var tx2 := Asks(s, i, sh1, tx1);
    var sh3, tx3 := CommitsAlone(s, i, sh1, tx2, a, s.sh.locks[a].stamp);
    SameThen(s.sh, sh1, sh3, a);
    hide OwnLocks, Same;
    t := Leaves(s, d, max, n, i, sh3, tx3, a);
  }

  /** One thread alone moves the clock up to VERSION_MAX. */
  lemma {:induction false} ClockClimbs(d: Design, max: nat, n: nat, clock: nat) returns (s: State)
    requires n > 0 && clock <= max
    ensures Scene(s, d, max, n) && AllIdle(s, 0) && s.sh.clock == clock
    ensures forall l :: 0 <= l < |s.sh.locks| ==> s.sh.locks[l].Free? && s.sh.locks[l].stamp.version <= clock
    decreases clock
  {
    if clock == 0 {
      s := Opening(d, max, n);
    } else {
      var t := ClockClimbs(d, max, n, clock - 1);
      s := Commits(t, d, max, n, 0, 0);
    }
    hide Reachable, OwnLocks;
  }

  // ---- the write-back design ----

  /** The threads get ready to commit, one after another, */
  lemma {:induction false} AllPrepare(max: nat, n: nat, k: nat) returns (s: State)
    requires n > 0 && max > 0 && k <= n
    ensures Scene(s, WriteBack, max, n) && AllIdle(s, k) && s.sh.clock == max - 1
    ensures forall i :: 0 <= i < k ==> s.txs[i].pc.TakeTime?
    ensures forall l :: k <= l < |s.sh.locks| ==> s.sh.locks[l].Free? && s.sh.locks[l].stamp.version <= max - 1
    decreases k
  {
    if k == 0 {
      s := ClockClimbs(WriteBack, max, n, max - 1);
    } else {
      var i := k - 1;
      var t := AllPrepare(max, n, i);
      Enters(t, WriteBack, max, n, i);
      Begins(t, i, t.sh, t.txs[i]);
      var sh1, tx1 := Stores(t, i, t.sh, Started(t.sh.clock, t.txs[i].size), i);
      var tx2 := Asks(t, i, sh1, tx1);
      s := Leaves(t, WriteBack, max, n, i, sh1, tx2, i);
    }
    hide Reachable, Leads, OwnLocks;
  }

  /** and take their timestamps. */
  lemma {:induction false} AllTake(max: nat, n: nat, k: nat) returns (s: State)
    requires n > 0 && max > 0 && k <= n
    ensures Scene(s, WriteBack, max, n) && s.sh.clock == max - 1 + k
    ensures forall i :: k <= i < n ==> s.txs[i].pc.TakeTime?
    decreases k
  {
    if k == 0 {
      s := AllPrepare(max, n, n);
    } else {
      var i := k - 1;
      var t := AllTake(max, n, i);
      Enters(t, WriteBack, max, n, i);
      var sh := Times(t, i, t.sh, t.txs[i], i);
      s := Leaves(t, WriteBack, max, n, i, sh, t.txs[i].(pc := Validate(t.sh.clock + 1, 0)), i);
    }
    hide Reachable, Leads, OwnLocks;
  }

  // ---- the write-through design ----

  /** Seven attempts give up on each of the first k words, and j on the next. */
  lemma {:induction false} AllWearOut(max: nat, n: nat, k: nat, j: nat) returns (s: State)
    requires max > 0 && k <= n && j <= INCARNATION_MAX && (k == n ==> j == 0)
    ensures Scene(s, WriteThrough, max, n) && AllIdle(s, 0) && s.sh.clock == 0
    ensures forall l :: 0 <= l < |s.sh.locks| ==>
              s.sh.locks[l] == Free(Stamp(0, if l < k then INCARNATION_MAX else if l == k then j else 0))
    decreases k, j
  {
    if j > 0 {
      var t := AllWearOut(max, n, k, j - 1);
      Enters(t, WriteThrough, max, n, k);
      var sh, tx := WearsOut(t, k, t.sh, t.txs[k], k);
      s := Leaves(t, WriteThrough, max, n, k, sh, tx, k);
    } else if k > 0 {
      s := AllWearOut(max, n, k - 1, INCARNATION_MAX);
    } else {
      s := Opening(WriteThrough, max, n);
    }
    hide Reachable, Leads, OwnLocks;
  }

  /** All locks but the last have used up their incarnations. */
  predicate Worn(sh: Shared, from: nat, n: nat) {
    |sh.locks| == n + 1 && forall l :: from <= l < n ==> sh.locks[l] == Free(Stamp(0, INCARNATION_MAX))
  }

  /** The clock goes up with commits to the last word. */
  lemma {:induction false} WornClimbs(max: nat, n: nat, clock: nat) returns (s: State)
    requires n > 0 && clock < max
    ensures Scene(s, WriteThrough, max, n) && AllIdle(s, 0) && s.sh.clock == clock && Worn(s.sh, 0, n)
    ensures s.sh.locks[n].Free? && s.sh.locks[n].stamp.version <= clock
    decreases clock
  {
    if clock == 0 {
      s := AllWearOut(max, n, n, 0);
    } else {
      var t := WornClimbs(max, n, clock - 1);
      s := Commits(t, WriteThrough, max, n, 0, n);
    }
    hide Reachable, OwnLocks;
  }

  /** A transaction that has read word l in version v and holds its own word, and will fail. */
  predicate Doomed(tx: Tx, i: nat, l: nat, v: nat, start: nat) {
    && tx.pc.TakeTime? && OneEntry(tx, i, Stamp(0, INCARNATION_MAX)) && tx.start == start
    && tx.rset == [REntry(l, v)]
  }

  /** Thread 0 has read the last word, and then thread 1 has committed to it. */
  lemma FirstReads(max: nat, n: nat) returns (s: State, v: nat)
    requires n >= 2 && max >= 2
    ensures Scene(s, WriteThrough, max, n) && AllIdle(s, 1) && s.sh.clock == max - 1 && Worn(s.sh, 0, n)
    ensures s.txs[0].pc.Active? && s.txs[0].start == s.txs[0].end == max - 2 && s.txs[0].rset == [REntry(n, v)]
    ensures s.txs[0].entries == [] && !s.txs[0].readOnly && s.sh.locks[n] == Free(Stamp(max - 1, 0)) && v < max - 1
  {
    var t := WornClimbs(max, n, max - 2);
    Enters(t, WriteThrough, max, n, 0);
    Begins(t, 0, t.sh, t.txs[0]);
    hide Leads, Reachable;
    v := t.sh.locks[n].stamp.version;
    var tx := Reads(t, 0, t.sh, Started(max - 2, t.txs[0].size), n);
    var u := Leaves(t, WriteThrough, max, n, 0, t.sh, tx, n);
    s := Commits(u, WriteThrough, max, n, 1, n);
    hide OwnLocks;
  }

  /** The other threads read word 0 and store to their own words, one after another. */
  lemma {:induction false} OthersRead(max: nat, n: nat, k: nat) returns (s: State, v: nat)
    requires n >= 2 && max >= 2 && 0 < k <= n
    ensures Scene(s, WriteThrough, max, n) && AllIdle(s, k) && s.sh.clock == max - 1 && Worn(s.sh, k, n)
    ensures forall i :: 0 < i < k ==> Doomed(s.txs[i], i, 0, 0, max - 1)
    ensures s.txs[0].pc.Active? && s.txs[0].start == s.txs[0].end == max - 2 && s.txs[0].rset == [REntry(n, v)]
    ensures s.txs[0].entries == [] && !s.txs[0].readOnly && s.sh.locks[n] == Free(Stamp(max - 1, 0)) && v < max - 1
    ensures s.sh.locks[0] == Free(Stamp(0, INCARNATION_MAX))
    decreases k
  {
    if k == 1 {
      s, v := FirstReads(max, n);
    } else {
      var i := k - 1;
      var t: State;
      t, v := OthersRead(max, n, i);
      s := OtherReads(t, max, n, i);
    }
    hide Scene, OneEntry;
  }

  lemma OtherReads(s: State, max: nat, n: nat, i: nat) returns (t: State)
    requires Scene(s, WriteThrough, max, n) && 0 < i < n && s.txs[i].pc.Idle? && s.sh.clock == max - 1 && max > 0
    requires Worn(s.sh, i, n) && s.sh.locks[0] == Free(Stamp(0, INCARNATION_MAX))
    ensures Scene(t, WriteThrough, max, n) && Worked(s, t, i, i) && t.sh.clock == s.sh.clock
    ensures Doomed(t.txs[i], i, 0, 0, max - 1)
  {
    Enters(s, WriteThrough, max, n, i);
    Begins(s, i, s.sh, s.txs[i]);
    hide Leads, Reachable;
    var tx1 := Reads(s, i, s.sh, Started(max - 1, s.txs[i].size), 0);
    var sh2, tx2 := Stores(s, i, s.sh, tx1, i);
    var tx3 := Asks(s, i, sh2, tx2);
    t := Leaves(s, WriteThrough, max, n, i, sh2, tx3, i);
  }

  /** A doomed transaction commits, fails, and takes two timestamps. */
  lemma Fails(s: State, max: nat, n: nat, i: nat, l: nat, v: nat, start: nat) returns (t: State)
    requires Scene(s, WriteThrough, max, n) && i < n && Doomed(s.txs[i], i, l, v, start) && start != s.sh.clock
    requires l < |s.sh.locks| && s.sh.locks[l].Free? && s.sh.locks[l].stamp.version != v
    ensures Scene(t, WriteThrough, max, n) && Worked(s, t, i, i) && t.sh.clock == s.sh.clock + 2
    ensures t.sh.locks[i] == Free(Stamp(s.sh.clock + 2, 0))
  {
    Enters(s, WriteThrough, max, n, i);
    hide Leads, Reachable;
    var sh, tx := FailsTwice(s, i, s.sh, s.txs[i], i, Stamp(0, INCARNATION_MAX));
    t := Leaves(s, WriteThrough, max, n, i, sh, tx, i);
  }

  /** Thread 0 stores to word 0, and fails because of the last word. */
  lemma FirstFails(max: nat, n: nat) returns (s: State)
    requires n >= 2 && max >= 2
    ensures Scene(s, WriteThrough, max, n) && s.sh.clock == max + 1 && s.sh.locks[0] == Free(Stamp(max + 1, 0))
    ensures forall i :: 0 < i < n ==> Doomed(s.txs[i], i, 0, 0, max - 1)
  {
    var t, v := OthersRead(max, n, n);
    Enters(t, WriteThrough, max, n, 0);
    hide Leads, Reachable;
    var sh1, tx1 := Stores(t, 0, t.sh, t.txs[0], 0);
    var tx2 := Asks(t, 0, sh1, tx1);
    var u := Leaves(t, WriteThrough, max, n, 0, sh1, tx2, 0);
    s := Fails(u, max, n, 0, n, v, max - 2);
  }

  /** Then the others fail, one after another, because of word 0. */
  lemma {:induction false} OthersFail(max: nat, n: nat, k: nat) returns (s: State)
    requires n >= 2 && max >= 2 && 0 < k <= n
    ensures Scene(s, WriteThrough, max, n) && s.sh.clock == max - 1 + 2 * k
    ensures s.sh.locks[0] == Free(Stamp(max + 1, 0))
    ensures forall i :: k <= i < n ==> Doomed(s.txs[i], i, 0, 0, max - 1)
    decreases k
  {
    if k == 1 {
      s := FirstFails(max, n);
    } else {
      var t := OthersFail(max, n, k - 1);
      s := Fails(t, max, n, k - 1, 0, 0, max - 1);
    }
    hide Reachable, OneEntry;
  }

  // ---- the bounds are reached ----

  lemma BackReachesBound(max: nat, n: nat) returns (s: State)
    requires n > 0 && max > 0
    ensures Reachable(s) && s.sh.design.WriteBack? && s.sh.max == max && |s.txs| == n && s.sh.clock == max - 1 + n
  {
    s := AllTake(max, n, n);
  }

  /** From two threads on, every thread may take two timestamps beyond the last at which an attempt may start. */
  lemma ThroughReachesBound(max: nat, n: nat) returns (s: State)
    requires n >= 2 && max >= 2
    ensures Reachable(s) && s.sh.design.WriteThrough? && s.sh.max == max && |s.txs| == n
            && s.sh.clock == max - 1 + 2 * n
  {
    s := OthersFail(max, n, n);
  }

  /** One thread alone gets to VERSION_MAX, and no further, as `LoneClock` says. */
  lemma LoneReachesMax(d: Design, max: nat) returns (s: State)
    requires max > 0
    ensures Scene(s, d, max, 1) && AllIdle(s, 0) && s.sh.clock == max
  {
    s := ClockClimbs(d, max, 1, max);
  }

  /** A reachable state of n threads, with the program's VERSION_MAX. */
  ghost predicate OfThreads(s: State, d: Design, n: nat) {
    Reachable(s) && s.sh.design == d && s.sh.max == LockWords.VERSION_MAX && |s.txs| == n
  }

  /** No timestamp of any run of n threads loses a bit in a lock word. */
  ghost predicate AllFit(d: Design, n: nat) {
    forall s: State, t: nat :: OfThreads(s, d, n) && t <= s.sh.clock
      ==> LockWords.GetTimestamp(LockWords.SetTimestamp(t)) == t
  }

  /** Timestamps fit if and only if there are at most MAX_THREADS + 1 threads in the write-back design, MAX_THREADS / 2
      in the write-through design. */
  lemma TimestampsFit(d: Design, n: nat)
    ensures AllFit(d, n) <==> n <= if d.WriteBack? then LockWords.MAX_THREADS + 1 else LockWords.MAX_THREADS / 2
  {
    if n <= if d.WriteBack? then LockWords.MAX_THREADS + 1 else LockWords.MAX_THREADS / 2 {
      forall s: State, t: nat | OfThreads(s, d, n) && t <= s.sh.clock
        ensures LockWords.GetTimestamp(LockWords.SetTimestamp(t)) == t
      {
        ClockIsBounded(s);
        LockWords.TimestampFits(t);
      }
    } else {
      var s: State;
      if d.WriteBack? { s := BackReachesBound(LockWords.VERSION_MAX, n); }
      else { s := ThroughReachesBound(LockWords.VERSION_MAX, n); }
      LockWords.TimestampFits(s.sh.clock);
    }
  }
}
