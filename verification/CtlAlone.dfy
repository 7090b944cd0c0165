/** Commit-time locking: a transaction whose reads are still current, while all other threads are idle, is not given
    up. It does what its program asks for and commits. */
module CtlAlone {
  import opened CommitHistory
  import opened Requests
  import opened CtlMachine
  import opened CtlInvariant
  import opened CtlTheorems
  import opened CtlCommands
  import CtlClock

  ghost predicate OthersIdle(s: State, i: nat) {
    forall j :: 0 <= j < |s.txs| && j != i ==> s.txs[j].pc.Idle?
  }

  /** Nothing that has been read has changed. */
  ghost predicate Current(sh: Shared, i: nat, tx: Tx)
    requires TxShape(sh, tx)
  {
    forall k :: 0 <= k < |tx.rset| ==> EntryCurrent(sh, i, tx, k)
  }

  ghost predicate EntryCurrent(sh: Shared, i: nat, tx: Tx, k: nat)
    requires TxShape(sh, tx) && k < |tx.rset|
  {
    EntryValid(sh, i, tx, k) && tx.rset[k].version <= tx.end
  }

  predicate Operating(pc: Pc) {
    pc.RLoadLock? || pc.RLoadValue? || pc.RReloadLock? || pc.RClock? || pc.RExtend? || pc.RRecheck? || pc.WLoadLock?
  }

  predicate Ending(pc: Pc) {
    pc.AcqLoad? || pc.AcqCas? || pc.TakeTime? || pc.Validate? || Writing(pc)
  }

  /** Nothing stands in the way of the access to come. */
  ghost predicate Clear(sh: Shared, i: nat, tx: Tx)
    requires SharedShape(sh) && TxShape(sh, tx)
  {
    && (!Writing(tx.pc) ==> Current(sh, i, tx))
    && (Operating(tx.pc) || tx.pc.Active? ==> sh.clock < sh.max && (tx.readOnly ==> tx.end == sh.clock))
    && match tx.pc
       case RLoadValue(a, v) => sh.locks[Lk(sh, a)] == Free(v)
       case RReloadLock(a, v, _) => sh.locks[Lk(sh, a)] == Free(v)
       case RClock(a, v, _) => sh.locks[Lk(sh, a)] == Free(v)
       case RExtend(a, v, _, now, _) => sh.locks[Lk(sh, a)] == Free(v) && now == sh.clock
       case RRecheck(a, v, _) => sh.locks[Lk(sh, a)] == Free(v) && v <= tx.end
       case AcqCas(k, v) => sh.locks[Lk(sh, tx.writes[k - 1].addr)] == Free(v)
       case Undo(_) => false
       case Idle => false
       case _ => true
  }

  /** How many accesses are still to come, at most. */
  function Rank(tx: Tx): nat {
    var n, m := |tx.writes|, |tx.rset|;
    match tx.pc
    case RLoadLock(_) => m + 6
    case RLoadValue(_, _) => m + 5
    case RReloadLock(_, _, _) => m + 4
    case RClock(_, _, _) => m + 3
    case RExtend(_, _, _, _, k) => if k <= m then m - k + 2 else 0
    case RRecheck(_, _, _) => 1
    case WLoadLock(_, _, _) => 1
    case AcqLoad(k) => m + 3 * n + 4 + 2 * k
    case AcqCas(k, _) => m + 3 * n + 3 + 2 * k
    case TakeTime => m + 3 * n + 3
    case Validate(_, k) => if k <= m then m - k + 3 * n + 2 else 0
    case Install(_, k) => if k <= n then 3 * (n - k) + 1 else 0
    case Mix(_, k, _) => if k <= n then 3 * (n - k) else 0
    case Release(_, k) => if k < n then 3 * (n - k) - 1 else 0
    case _ => 0
  }

  /** A lock is free, with a version that is not in the future, or held by thread i through the entry it points to. */
  lemma LockOwner(s: State, i: nat, l: nat)
    requires Inv(s) && OthersIdle(s, i) && i < |s.txs| && l < |s.sh.locks|
    ensures match s.sh.locks[l]
            case Free(v) => v <= s.sh.clock
            case Held(o, e) => o == i && Holds(s.txs[i], e) && Lk(s.sh, s.txs[i].writes[e].addr) == l
  {
    hide TxsOk, PendingOk, MemoryOk, PastOk, Shape;
    assert Owned(s, l);
  }

  /** The acting thread's own clauses. */
  lemma Own(s: State, i: nat)
    requires Inv(s) && i < |s.txs|
    ensures Shape(s) && SharedShape(s.sh) && TxShape(s.sh, s.txs[i])
    ensures TxOk(s.sh, i, s.txs[i])
  {
  }

  // ---- loads and stores ----

  /** What an access of an operation that is not given up comes to. */
  ghost predicate Proceeds(sh: Shared, i: nat, tx: Tx, r: After)
    requires SharedShape(sh)
  {
    && r.sh == sh && r.tx.readOnly == tx.readOnly && (Operating(r.tx.pc) || r.tx.pc.Active?)
    && TxShape(sh, r.tx) && Clear(sh, i, r.tx) && Rank(r.tx) < Rank(tx)
  }

  lemma LoadsProceed(s: State, i: nat)
    requires Inv(s) && i < |s.txs| && OthersIdle(s, i)
    requires var pc := s.txs[i].pc; pc.RLoadLock? || pc.RLoadValue? || pc.RClock?
    requires SharedShape(s.sh) && TxShape(s.sh, s.txs[i]) && Clear(s.sh, i, s.txs[i])
    ensures Proceeds(s.sh, i, s.txs[i], StepLoads(s.sh, s.txs[i]))
  {
    var tx := s.txs[i];
    var r := StepLoads(s.sh, tx);
    LockOwner(s, i, Lk(s.sh, tx.pc.a));
    assert TxShape(s.sh, r.tx) by { ShapeOfLoads(s.sh, tx); }
    CurrentMore(s.sh, i, tx, r.tx, REntry(0, 0));
    hide Inv, OthersIdle, SetsShape, Current;
  }

  lemma FinishProceeds(sh: Shared, i: nat, tx: Tx)
    requires SharedShape(sh) && TxShape(sh, tx) && Clear(sh, i, tx) && (tx.pc.RReloadLock? || tx.pc.RRecheck?)
    requires tx.pc.v <= tx.end
    ensures Proceeds(sh, i, tx, FinishRead(sh, tx, tx.pc.a, tx.pc.v, tx.pc.x))
  {
    hide Overlay;
    var r := FinishRead(sh, tx, tx.pc.a, tx.pc.v, tx.pc.x);
    assert TxShape(sh, r.tx);
    CurrentMore(sh, i, tx, r.tx, REntry(Lk(sh, tx.pc.a), tx.pc.v));
    hide Current, SetsShape;
  }

  /** Nothing changes but, perhaps, a read set entry for a free lock just seen. */
  lemma CurrentMore(sh: Shared, i: nat, tx: Tx, tx': Tx, r: REntry)
    requires TxShape(sh, tx) && TxShape(sh, tx') && Current(sh, i, tx)
    requires tx'.rset == tx.rset || tx'.rset == tx.rset + [r]
    requires tx'.writes == tx.writes && tx'.version == tx.version && tx'.end == tx.end
    requires tx'.rset != tx.rset ==> r.lock < |sh.locks| && sh.locks[r.lock] == Free(r.version) && r.version <= tx.end
    ensures Current(sh, i, tx')
  {
    hide SetsShape, PcShape;
    forall k | 0 <= k < |tx'.rset|
      ensures EntryCurrent(sh, i, tx', k)
    {
      if k < |tx.rset| {
        assert tx'.rset[k] == tx.rset[k];
        assert EntryCurrent(sh, i, tx, k);
      }
    }
  }

  lemma ReloadProceeds(s: State, i: nat)
    requires Inv(s) && i < |s.txs| && OthersIdle(s, i) && (s.txs[i].pc.RReloadLock? || s.txs[i].pc.RRecheck?)
    requires SharedShape(s.sh) && TxShape(s.sh, s.txs[i]) && Clear(s.sh, i, s.txs[i])
    ensures s.txs[i].pc.RReloadLock? ==> Proceeds(s.sh, i, s.txs[i], StepReload(s.sh, s.txs[i]))
    ensures s.txs[i].pc.RRecheck? ==> Proceeds(s.sh, i, s.txs[i], StepRecheck(s.sh, s.txs[i]))
  {
    var tx := s.txs[i];
    LockOwner(s, i, Lk(s.sh, tx.pc.a));
    if tx.pc.v <= tx.end {
      FinishProceeds(s.sh, i, tx);
    } else {
      assert TxShape(s.sh, tx.(pc := RClock(tx.pc.a, tx.pc.v, tx.pc.x)));
      CurrentMore(s.sh, i, tx, tx.(pc := RClock(tx.pc.a, tx.pc.v, tx.pc.x)), REntry(0, 0));
    }
    hide Inv, OthersIdle, FinishRead, Current;
  }

  lemma ExtendProceeds(s: State, i: nat)
    requires Inv(s) && i < |s.txs| && OthersIdle(s, i) && s.txs[i].pc.RExtend?
    requires SharedShape(s.sh) && TxShape(s.sh, s.txs[i]) && Clear(s.sh, i, s.txs[i])
    ensures Proceeds(s.sh, i, s.txs[i], StepExtend(s.sh, i, s.txs[i]))
  {
    var tx := s.txs[i];
    var r := StepExtend(s.sh, i, tx);
    Own(s, i);
    LockOwner(s, i, Lk(s.sh, tx.pc.a));
    assert TxShape(s.sh, r.tx);
    assert tx.pc.k < |tx.rset| ==> EntryCurrent(s.sh, i, tx, tx.pc.k);
    forall k | 0 <= k < |r.tx.rset|
      ensures EntryCurrent(s.sh, i, r.tx, k)
    {
      assert EntryCurrent(s.sh, i, tx, k);
    }
    hide Inv, OthersIdle, LogOk, LocksOk, StampOk, ReadsHold, SetsShape;
  }

  lemma WriteProceeds(s: State, i: nat)
    requires Inv(s) && i < |s.txs| && OthersIdle(s, i) && s.txs[i].pc.WLoadLock?
    requires SharedShape(s.sh) && TxShape(s.sh, s.txs[i]) && Clear(s.sh, i, s.txs[i])
    ensures Proceeds(s.sh, i, s.txs[i], StepWrite(s.sh, s.txs[i]))
  {
    var tx := s.txs[i];
    var l := Lk(s.sh, tx.pc.a);
    LockOwner(s, i, l);
    hide Inv, OthersIdle, Find, Folded;
    ShapeOfWrite(s.sh, tx);
    if HasRead(tx.rset, l) {
      var k :| 0 <= k < |tx.rset| && tx.rset[k].lock == l;
      assert EntryCurrent(s.sh, i, tx, k);
    }
    var r := StepWrite(s.sh, tx);
    forall k | 0 <= k < |r.tx.rset|
      ensures EntryCurrent(s.sh, i, r.tx, k)
    {
      assert EntryCurrent(s.sh, i, tx, k);
      LockOwner(s, i, tx.rset[k].lock);
    }
  }

  // ---- commit ----

  /** The records while the commit is under way, and after it, when they were those of `was` before. */
  ghost predicate Track(was: Shared, sh: Shared, i: nat, tx: Tx)
    requires SharedShape(sh)
  {
    var n := |was.h.commits|;
    var done := CommitHistory.Commit(i, Committed, tx.start, tx.writes, tx.log);
    && sh.finished == was.finished && sh.max == was.max
    && match tx.pc
       case AcqLoad(_) => sh.h == was.h
       case AcqCas(_, _) => sh.h == was.h
       case TakeTime => sh.h == was.h
       case Validate(t, _) => t == n + 1 && sh.h == was.h.(commits := was.h.commits + [done.(status := Pending)])
       case Install(t, _) => t == n + 1 && sh.h == was.h.(commits := was.h.commits + [done])
       case Mix(t, _, _) => t == n + 1 && sh.h == was.h.(commits := was.h.commits + [done])
       case Release(t, _) => t == n + 1 && sh.h == was.h.(commits := was.h.commits + [done])
       case Idle => sh.h == was.h.(commits := was.h.commits + [done])
       case _ => false
  }

  ghost predicate Advances(was: Shared, sh: Shared, i: nat, tx: Tx, r: After)
    requires SharedShape(sh)
  {
    && SharedShape(r.sh) && TxShape(r.sh, r.tx) && (Ending(r.tx.pc) || r.tx.pc.Idle?)
    && (Ending(r.tx.pc) ==> Clear(r.sh, i, r.tx)) && Rank(r.tx) < Rank(tx)
    && r.tx.log == tx.log && r.tx.start == tx.start && r.tx.writes == tx.writes && Track(was, r.sh, i, r.tx)
  }

  lemma AcquireAdvances(s: State, i: nat, was: Shared)
    requires Inv(s) && i < |s.txs| && OthersIdle(s, i) && s.txs[i].pc.AcqLoad?
    requires SharedShape(s.sh) && TxShape(s.sh, s.txs[i]) && Clear(s.sh, i, s.txs[i]) && Track(was, s.sh, i, s.txs[i])
    ensures Advances(was, s.sh, i, s.txs[i], StepAcqLoad(s.sh, i, s.txs[i]))
  {
    var tx := s.txs[i];
    var r := StepAcqLoad(s.sh, i, tx);
    ShapeOfAcqLoad(s.sh, i, tx);
    LockOwner(s, i, Lk(s.sh, tx.writes[tx.pc.k - 1].addr));
    CurrentMore(s.sh, i, tx, r.tx, REntry(0, 0));
    hide Inv, OthersIdle, Current, SetsShape;
  }

  /** The lock acquired is the one whose version the entries under it have seen. */
  lemma CasAdvances(s: State, i: nat, was: Shared)
    requires Inv(s) && i < |s.txs| && OthersIdle(s, i) && s.txs[i].pc.AcqCas?
    requires SharedShape(s.sh) && TxShape(s.sh, s.txs[i]) && Clear(s.sh, i, s.txs[i]) && Track(was, s.sh, i, s.txs[i])
    ensures Advances(was, s.sh, i, s.txs[i], StepAcqCas(s.sh, i, s.txs[i]))
  {
    var tx := s.txs[i];
    var r := StepAcqCas(s.sh, i, tx);
    ShapeOfAcqCas(s.sh, i, tx);
    var k := tx.pc.k - 1;
    var l := Lk(s.sh, tx.writes[k].addr);
    forall m | 0 <= m < |r.tx.rset|
      ensures EntryCurrent(r.sh, i, r.tx, m)
    {
      assert EntryCurrent(s.sh, i, tx, m);
      LockOwner(s, i, tx.rset[m].lock);
    }
    hide Inv, OthersIdle, SetsShape;
  }

  lemma TimeAdvances(s: State, i: nat, was: Shared)
    requires Inv(s) && i < |s.txs| && s.txs[i].pc.TakeTime?
    requires SharedShape(s.sh) && TxShape(s.sh, s.txs[i]) && Clear(s.sh, i, s.txs[i]) && Track(was, s.sh, i, s.txs[i])
    ensures Advances(was, s.sh, i, s.txs[i], StepTime(s.sh, i, s.txs[i]))
  {
    var tx := s.txs[i];
    var r := StepTime(s.sh, i, tx);
    ShapeOfValidate(s.sh, i, tx);
    SameLocksCurrent(s.sh, r.sh, i, tx, r.tx);
    hide Inv, Current, SetsShape;
  }

  lemma SameLocksCurrent(sh: Shared, sh': Shared, i: nat, tx: Tx, tx': Tx)
    requires TxShape(sh, tx) && TxShape(sh', tx') && Current(sh, i, tx) && sh'.locks == sh.locks
    requires tx'.rset == tx.rset && tx'.writes == tx.writes && tx'.version == tx.version && tx'.end == tx.end
    ensures Current(sh', i, tx')
  {
    hide SetsShape, PcShape;
    forall k | 0 <= k < |tx'.rset|
      ensures EntryCurrent(sh', i, tx', k)
    {
      assert tx'.rset[k] == tx.rset[k];
      assert EntryCurrent(sh, i, tx, k);
    }
  }

  lemma ValidateAdvances(s: State, i: nat, was: Shared)
    requires Inv(s) && i < |s.txs| && s.txs[i].pc.Validate?
    requires SharedShape(s.sh) && TxShape(s.sh, s.txs[i]) && Clear(s.sh, i, s.txs[i]) && Track(was, s.sh, i, s.txs[i])
    ensures Advances(was, s.sh, i, s.txs[i], StepValidate(s.sh, i, s.txs[i]))
  {
    var tx := s.txs[i];
    var r := StepValidate(s.sh, i, tx);
    ShapeOfValidate(s.sh, i, tx);
    assert tx.pc.k < |tx.rset| ==> EntryCurrent(s.sh, i, tx, tx.pc.k);
    SameLocksCurrent(s.sh, r.sh, i, tx, r.tx);
    hide Inv, Current, SetsShape, EntryValid;
  }

  lemma InstallAdvances(s: State, i: nat, was: Shared)
    requires i < |s.txs| && s.txs[i].pc.Install?
    requires SharedShape(s.sh) && TxShape(s.sh, s.txs[i]) && Track(was, s.sh, i, s.txs[i])
    ensures Advances(was, s.sh, i, s.txs[i], StepInstall(s.sh, s.txs[i]))
  {
    ShapeOfInstall(s.sh, s.txs[i]);
    hide Current, SetsShape, Merge, SharedShape;
  }

  lemma ReleaseAdvances(s: State, i: nat, was: Shared)
    requires i < |s.txs| && (s.txs[i].pc.Mix? || s.txs[i].pc.Release?)
    requires SharedShape(s.sh) && TxShape(s.sh, s.txs[i]) && Track(was, s.sh, i, s.txs[i])
    ensures s.txs[i].pc.Mix? ==> Advances(was, s.sh, i, s.txs[i], StepMix(s.sh, s.txs[i]))
    ensures s.txs[i].pc.Release? ==> Advances(was, s.sh, i, s.txs[i], StepRelease(s.sh, s.txs[i]))
  {
    ShapeOfInstall(s.sh, s.txs[i]);
    hide Current, SetsShape, Merge, SharedShape;
  }

  // ---- whole operations ----

  /** The machine is in a state where thread i is undisturbed and may go on. */
  ghost predicate Undisturbed(s: State, i: nat) {
    && Inv(s) && i < |s.txs| && OthersIdle(s, i)
    && SharedShape(s.sh) && TxShape(s.sh, s.txs[i]) && Clear(s.sh, i, s.txs[i])
  }

  lemma OperationStep(s: State, i: nat, c: Command)
    requires Undisturbed(s, i) && Operating(s.txs[i].pc)
    ensures Shape(s) && Proceeds(s.sh, i, s.txs[i], Step(s.sh, i, s.txs[i], c))
    ensures Undisturbed(Next(s, i, c), i)
  {
    var tx := s.txs[i];
    Own(s, i);
    NextInv(s, i, c);
    match tx.pc {
      case RExtend(_, _, _, _, _) => ExtendProceeds(s, i);
      case WLoadLock(_, _, _) => WriteProceeds(s, i);
      case RReloadLock(_, _, _) => ReloadProceeds(s, i);
      case RRecheck(_, _, _) => ReloadProceeds(s, i);
      case _ => LoadsProceed(s, i);
    }
    hide Inv, SharedShape, TxShape, Clear, StepLoads, StepReload, StepExtend, StepRecheck, StepWrite;
  }

  lemma CommitStep(s: State, i: nat, c: Command, was: Shared)
    requires Undisturbed(s, i) && Ending(s.txs[i].pc) && Track(was, s.sh, i, s.txs[i])
    ensures Shape(s) && Advances(was, s.sh, i, s.txs[i], Step(s.sh, i, s.txs[i], c))
    ensures Inv(Next(s, i, c)) && OthersIdle(Next(s, i, c), i)
    ensures Ending(Next(s, i, c).txs[i].pc) ==> Undisturbed(Next(s, i, c), i)
  {
    var tx := s.txs[i];
    Own(s, i);
    NextInv(s, i, c);
    match tx.pc {
      case AcqLoad(_) => AcquireAdvances(s, i, was);
      case AcqCas(_, _) => CasAdvances(s, i, was);
      case TakeTime => TimeAdvances(s, i, was);
      case Validate(_, _) => ValidateAdvances(s, i, was);
      case Install(_, _) => InstallAdvances(s, i, was);
      case _ => ReleaseAdvances(s, i, was);
    }
    hide Inv, SharedShape, TxShape, Clear, Track, StepAcqLoad, StepAcqCas, StepTime, StepValidate, StepInstall, StepMix;
    hide StepRelease;
  }

  /** The run consists of turns of thread i. */
  predicate By(run: seq<Turn>, i: nat) {
    forall k :: 0 <= k < |run| ==> run[k].thread == i
  }

  /** Thread i makes turns by itself and gets from s to r; its attempt, seen as `was` before, is then `at`. */
  ghost predicate Leads(s: State, i: nat, run: seq<Turn>, was: Attempt, r: State, at: Attempt) {
    && Shape(s) && i < |s.txs| && By(run, i) && Fits(s, run)
    && Exec(s, run) == r && AttemptOf(s, run, i, was) == at
  }

  lemma Nothing(s: State, i: nat, was: Attempt)
    requires Shape(s) && i < |s.txs|
    ensures Leads(s, i, [], was, s, was)
  {
  }

  /** One more turn. */
  lemma {:induction false} Further(s: State, i: nat, run: seq<Turn>, was: Attempt, r: State, at: Attempt, c: Command)
    requires Leads(s, i, run, was, r, at)
    ensures Shape(r) && i < |r.txs|
    ensures Leads(s, i, run + [Turn(i, c)], was, Next(r, i, c), Ask(r.sh, r.txs[i], c, at))
  {
    hide Shape, Next, Ask;
    var longer := run + [Turn(i, c)];
    assert longer[..|run|] == run;
    assert Fits(s, longer);
    LastTurn(s, longer, i, was);
  }

  /** An operation under way is completed. */
  lemma {:induction false} Completes(s: State, i: nat, run: seq<Turn>, was: Attempt, r: State, at: Attempt)
      returns (run': seq<Turn>, r': State)
    requires Leads(s, i, run, was, r, at) && Undisturbed(r, i) && (Operating(r.txs[i].pc) || r.txs[i].pc.Active?)
    ensures Leads(s, i, run', was, r', at) && Undisturbed(r', i) && r'.txs[i].pc.Active?
    ensures r'.sh == r.sh && r'.txs[i].readOnly == r.txs[i].readOnly
    decreases Rank(r.txs[i])
  {
    if r.txs[i].pc.Active? {
      run', r' := run, r;
    } else {
      var c := Begin(false);
      OperationStep(r, i, c);
      Further(s, i, run, was, r, at, c);
      assert Ask(r.sh, r.txs[i], c, at) == at;
      hide Undisturbed, Inv, Shape, Step, Leads, Clear, Operating;
      run', r' := Completes(s, i, run + [Turn(i, c)], was, Next(r, i, c), at);
    }
  }

  /** A commit under way is completed. */
  lemma {:induction false} Finishes(s: State, i: nat, run: seq<Turn>, was: Attempt, r: State, at: Attempt, sh: Shared)
      returns (run': seq<Turn>, r': State)
    requires Leads(s, i, run, was, r, at) && Undisturbed(r, i) && Ending(r.txs[i].pc) && Track(sh, r.sh, i, r.txs[i])
    ensures Leads(s, i, run', was, r', at) && Inv(r') && OthersIdle(r', i) && i < |r'.txs| && r'.txs[i].pc.Idle?
    ensures SharedShape(r'.sh) && Track(sh, r'.sh, i, r'.txs[i])
    ensures var tx', tx := r'.txs[i], r.txs[i];
            tx'.log == tx.log && tx'.start == tx.start && tx'.writes == tx.writes
    decreases Rank(r.txs[i])
  {
    var c := Begin(false);
    CommitStep(r, i, c, sh);
    Further(s, i, run, was, r, at, c);
    assert Ask(r.sh, r.txs[i], c, at) == at;
    run', r' := run + [Turn(i, c)], Next(r, i, c);
    hide Undisturbed, Inv, Shape, Step, Leads, Clear, Track, Ending;
    if !r'.txs[i].pc.Idle? {
      run', r' := Finishes(s, i, run', was, r', at, sh);
    }
  }

  predicate InMemory(sh: Shared, rs: seq<Request>, readOnly: bool) {
    forall k :: 0 <= k < |rs| ==> rs[k].a < |sh.mem| && (readOnly ==> rs[k].Get?)
  }

  function Asks(r: Request): Command {
    match r
    case Get(a) => Load(a)
    case Put(a, value, mask) => Store(a, value, mask)
  }

  lemma AskStep(s: State, i: nat, q: Request)
    requires Undisturbed(s, i) && s.txs[i].pc.Active? && InMemory(s.sh, [q], s.txs[i].readOnly)
    ensures Shape(s) && var r := Next(s, i, Asks(q));
            Undisturbed(r, i) && r.sh == s.sh && r.txs[i].readOnly == s.txs[i].readOnly
            && (Operating(r.txs[i].pc) || r.txs[i].pc.Active?)
  {
    var tx := s.txs[i];
    var c := Asks(q);
    var r := Step(s.sh, i, tx, c);
    Own(s, i);
    NextInv(s, i, c);
    assert [q][0] == q && tx.pc.Active?;
    ShapeOfUser(s.sh, i, tx, c);
    UserAsked(s.sh, i, tx, q);
    CurrentMore(s.sh, i, tx, r.tx, REntry(0, 0));
    hide Inv, SharedShape, TxShape, StepUser, Current;
  }

  lemma UserAsked(sh: Shared, i: nat, tx: Tx, q: Request)
    requires tx.pc.Active? && q.a < |sh.mem| && (tx.readOnly ==> q.Get?)
    ensures var r := StepUser(sh, i, tx, Asks(q));
            && r.sh == sh && r.tx == tx.(pc := r.tx.pc, log := r.tx.log)
            && (r.tx.pc.Active? || r.tx.pc.RLoadLock? || r.tx.pc.WLoadLock?)
  {
    hide Find;
  }

  lemma {:induction false} DoesOne(s: State, i: nat, run: seq<Turn>, was: Attempt, r: State, at: Attempt, q: Request)
      returns (run': seq<Turn>, r': State)
    requires Leads(s, i, run, was, r, at) && Undisturbed(r, i) && r.txs[i].pc.Active?
    requires at.readOnly == r.txs[i].readOnly && q.a < |r.sh.mem| && (at.readOnly ==> q.Get?)
    ensures Leads(s, i, run', was, r', at.(requests := at.requests + [q])) && Undisturbed(r', i) && r'.txs[i].pc.Active?
    ensures r'.sh == r.sh && r'.txs[i].readOnly == r.txs[i].readOnly
  {
    var c := Asks(q);
    assert InMemory(r.sh, [q], at.readOnly);
    AskStep(r, i, q);
    Further(s, i, run, was, r, at, c);
    assert Ask(r.sh, r.txs[i], c, at) == at.(requests := at.requests + [q]);
    hide Undisturbed, Inv, Shape, Next, Leads, Clear, Operating, Ask, InMemory;
    run', r' := Completes(s, i, run + [Turn(i, c)], was, Next(r, i, c), at.(requests := at.requests + [q]));
  }

  /** What the program asks for is done, one request after another. */
  lemma {:induction false} Does(s: State, i: nat, run: seq<Turn>, was: Attempt, r: State, at: Attempt, rs: seq<Request>)
      returns (run': seq<Turn>, r': State)
    requires Leads(s, i, run, was, r, at) && Undisturbed(r, i) && r.txs[i].pc.Active?
    requires at.readOnly == r.txs[i].readOnly && InMemory(r.sh, rs, at.readOnly)
    ensures Leads(s, i, run', was, r', at.(requests := at.requests + rs)) && Undisturbed(r', i) && r'.txs[i].pc.Active?
    ensures r'.sh == r.sh && r'.txs[i].readOnly == r.txs[i].readOnly
    decreases |rs|
  {
    hide Inv, Shape, Next, Leads, Clear, Operating;
    if rs == [] {
      assert at.(requests := at.requests + rs) == at;
      run', r' := run, r;
    } else {
      run', r' := DoesOne(s, i, run, was, r, at, rs[0]);
      hide Undisturbed;
      run', r' := Does(s, i, run', was, r', at.(requests := at.requests + [rs[0]]), rs[1..]);
      assert at.requests + rs == at.requests + [rs[0]] + rs[1..];
    }
  }

  /** The program asks for a commit. */
  lemma {:induction false} Commits(s: State, i: nat, run: seq<Turn>, was: Attempt, r: State, at: Attempt)
      returns (run': seq<Turn>, r': State)
    requires Leads(s, i, run, was, r, at) && Undisturbed(r, i) && r.txs[i].pc.Active?
    ensures Leads(s, i, run', was, r', at.(ending := Committing))
    ensures Inv(r') && OthersIdle(r', i) && i < |r'.txs| && r'.txs[i].pc.Idle?
    ensures OnRecord(r, r', i, r.txs[i])
  {
    var tx := r.txs[i];
    var c := Command.Commit;
    var at1 := at.(ending := Committing);
    Own(r, i);
    NextInv(r, i, c);
    Further(s, i, run, was, r, at, c);
    assert Ask(r.sh, tx, c, at) == at1;
    run', r' := run + [Turn(i, c)], Next(r, i, c);
    ShapeOfUser(r.sh, i, tx, c);
    if tx.writes != [] {
      CurrentMore(r.sh, i, tx, r'.txs[i], REntry(0, 0));
      hide Inv, Shape, Leads, Current, TxShape, Ask;
      assert Track(r.sh, r'.sh, i, r'.txs[i]);
      run', r' := Finishes(s, i, run', was, r', at1, r.sh);
    }
    hide Inv, Shape, Leads, TxShape, Ask, Current;
  }

  /** The transaction with descriptor tx has been put on record: at the timestamp that follows, when it has written. */
  predicate OnRecord(s: State, r: State, i: nat, tx: Tx) {
    if tx.writes == [] then
      r.sh == s.sh.(finished := s.sh.finished + [Finished(i, tx.log, tx.start, tx.end, s.sh.clock)])
    else
      && r.sh.finished == s.sh.finished
      && r.sh.h == s.sh.h.(commits := s.sh.h.commits
                                      + [CommitHistory.Commit(i, Committed, tx.start, tx.writes, tx.log)])
  }

  /** The write-free transaction of the log has changed nothing, and otherwise the log leads from one memory to the
      other. */
  lemma EffectOfCommit(s: State, r: State, i: nat)
    requires Undisturbed(s, i) && s.txs[i].pc.Active? && Inv(r) && OthersIdle(r, i) && i < |r.txs| && r.txs[i].pc.Idle?
    requires Reachable(s) && Reachable(r) && |r.txs| == |s.txs| && OnRecord(s, r, i, s.txs[i])
    requires s.txs[i].writes != []
    ensures Replay(s.sh.mem, s.txs[i].log) == Legal(r.sh.mem)
  {
    var n := |s.sh.h.commits|;
    var h := r.sh.h;
    assert |h.commits| == n + 1 && h.commits[n].status.Committed? && h.commits[n].log == s.txs[i].log;
    Serializable(r, n + 1);
    AtRest(s, i);
    AtRest(r, i);
    SameBefore(s.sh.h, h, n);
  }

  /** While nobody commits, memory is the last committed one. */
  lemma AtRest(s: State, i: nat)
    requires Reachable(s) && OthersIdle(s, i) && i < |s.txs| && (s.txs[i].pc.Idle? || s.txs[i].pc.Active?)
    ensures s.sh.mem == MemoryAt(s.sh.h, |s.sh.h.commits|)
  {
    ReachableInv(s);
    assert SharedShape(s.sh);
    forall a | 0 <= a < |s.sh.mem|
      ensures s.sh.mem[a] == MemoryAt(s.sh.h, |s.sh.h.commits|)[a]
    {
      var l := LockIx(s.sh.h.lockOf, a);
      if s.sh.locks[l].Held? { NoLockLeft(s, l); }
      MemoryIsCommitted(s, a);
    }
  }

  lemma {:induction false} ReachableRun(s: State, run: seq<Turn>)
    requires Reachable(s) && Shape(s) && Fits(s, run)
    ensures Reachable(Exec(s, run))
    decreases |run|
  {
    hide Reachable, Shape, Next;
    if run != [] {
      var n := |run| - 1;
      ReachableRun(s, run[..n]);
      CtlClock.ReachableNext(Exec(s, run[..n]), run[n].thread, run[n].command);
    }
  }

  /** A transaction whose reads are still current, while all other threads are idle, makes whatever further accesses
      its program asks for, extends its snapshot where it has to, passes its validation, and is on record with exactly
      the requests of its program; and what it has stored is in memory. */
  lemma {:induction false} CommitsUndisturbed(s: State, i: nat, was: Attempt, rs: seq<Request>)
      returns (run: seq<Turn>, r: State, tx: Tx)
    requires Reachable(s) && Shape(s) && i < |s.txs| && OthersIdle(s, i) && s.txs[i].pc.Active?
    requires Current(s.sh, i, s.txs[i]) && s.sh.clock < s.sh.max
    requires s.txs[i].readOnly ==> s.txs[i].end == s.sh.clock
    requires InTune(s.txs[i], was) && InMemory(s.sh, rs, s.txs[i].readOnly)
    ensures By(run, i) && Fits(s, run) && r == Exec(s, run) && r.txs[i].pc.Idle?
    ensures AttemptOf(s, run, i, was) == was.(requests := was.requests + rs, ending := Committing)
    ensures Matches(tx.log, was.requests + rs) && tx.start == was.start && OnRecord(s, r, i, tx)
    ensures tx.writes != [] ==> Replay(s.sh.mem, tx.log) == Legal(r.sh.mem)
  {
    ReachableInv(s);
    Nothing(s, i, was);
    assert Undisturbed(s, i) by { Own(s, i); }
    var run1, s1 := Does(s, i, [], was, s, was, rs);
    var at := was.(requests := was.requests + rs);
    run, r := Commits(s, i, run1, was, s1, at);
    tx := s1.txs[i];
    RunInTune(s, run1, i, was);
    ReachableRun(s, run1);
    ReachableRun(s, run);
    if tx.writes != [] { EffectOfCommit(s1, r, i); }
    hide Reachable, Inv, Undisturbed, Shape, OthersIdle, Matches, Replay;
  }

  /** A write-free transaction that is not older than memory replays on memory, and changes nothing. */
  lemma WriteFreeEffect(s: State, i: nat, tx: Tx)
    requires Reachable(s) && i < |s.txs| && OthersIdle(s, i) && tx == s.txs[i] && tx.pc.Active?
    requires tx.writes == [] && tx.start == |s.sh.h.commits|
    ensures Replay(s.sh.mem, tx.log) == Legal(s.sh.mem)
  {
    AtRest(s, i);
    ReachableInv(s);
    Own(s, i);
    assert tx.end == |s.sh.h.commits|;
    hide Replay;
    assert forall k :: 0 <= k < |tx.log| && tx.log[k].Read? ==> !tx.log[k].source.UnderOwnLock?;
    ReadsHoldSaw(s.sh.h, tx.log, tx.end);
    RunsAlone(s.sh.h, tx.log, tx.end);
    var m := Replay(s.sh.mem, tx.log).mem;
    forall a | 0 <= a < |m|
      ensures m[a] == s.sh.mem[a]
    {
      assert Effect(tx.log, ValueAt(s.sh.h, tx.end, a), a) == Apply([], ValueAt(s.sh.h, tx.end, a), a);
    }
  }

  /** From any reachable state with all threads idle: a transaction that begins, asks for the loads and stores `rs`, and
      commits, while nobody else moves, leaves in every word what its stores make of it, and each of its loads has
      returned what memory held with its own earlier stores on top. */
  lemma {:induction false} RunsUndisturbed(s: State, i: nat, readOnly: bool, rs: seq<Request>)
      returns (run: seq<Turn>, r: State, log: seq<Op>)
    requires Reachable(s) && Shape(s) && i < |s.txs| && (forall j :: 0 <= j < |s.txs| ==> s.txs[j].pc.Idle?)
    requires s.sh.clock < s.sh.max && InMemory(s.sh, rs, readOnly)
    ensures By(run, i) && Fits(s, run) && r == Exec(s, run) && r.txs[i].pc.Idle?
    ensures AttemptOf(s, run, i, None) == Attempt(readOnly, s.sh.clock, rs, Committing)
    ensures Matches(log, rs) && |r.sh.mem| == |s.sh.mem|
    ensures forall a :: 0 <= a < |s.sh.mem| ==> r.sh.mem[a] == Result(rs, s.sh.mem[a], a)
    ensures forall k :: 0 <= k < |rs| && rs[k].Get? ==>
              rs[k].a < |s.sh.mem| && log[k].value == Result(rs[..k], s.sh.mem[rs[k].a], rs[k].a)
    ensures || (|r.sh.finished| > 0 && r.sh.finished[|r.sh.finished| - 1].log == log
                && r.sh.finished[..|r.sh.finished| - 1] == s.sh.finished && r.sh.h == s.sh.h)
            || (exists us :: r.sh.h.commits == s.sh.h.commits
                                               + [CommitHistory.Commit(i, Committed, s.sh.clock, us, log)])
  {
    var run0, s0 := Begins(s, i, readOnly);
    hide Reachable, Inv, Undisturbed, Shape, OthersIdle, Matches, Replay, Leads, Ask;
    var at := Attempt(readOnly, s.sh.clock, [], Going);
    var run1, s1 := Does(s, i, run0, None, s0, at, rs);
    at := at.(requests := rs);
    assert at.requests == rs;
    run, r := Commits(s, i, run1, None, s1, at);
    log := s1.txs[i].log;
    RunFacts(s, i, run1, s1, at);
    RunFacts(s, i, run, r, at.(ending := Committing));
    if s1.txs[i].writes != [] { EffectOfCommit(s1, r, i); } else { WriteFreeEffect(s1, i, s1.txs[i]); }
    LegalResult(s.sh.mem, log, rs);
  }

  lemma Begins(s: State, i: nat, readOnly: bool) returns (run: seq<Turn>, r: State)
    requires Reachable(s) && Shape(s) && i < |s.txs| && (forall j :: 0 <= j < |s.txs| ==> s.txs[j].pc.Idle?)
    requires s.sh.clock < s.sh.max
    ensures Leads(s, i, run, None, r, Attempt(readOnly, s.sh.clock, [], Going))
    ensures Undisturbed(r, i) && r.sh == s.sh && r.txs[i].pc.Active? && r.txs[i].readOnly == readOnly
    ensures s.sh.clock == |s.sh.h.commits|
  {
    ReachableInv(s);
    Own(s, i);
    var c := Begin(readOnly);
    Nothing(s, i, None);
    Further(s, i, [], None, s, None, c);
    run, r := [Turn(i, c)], Next(s, i, c);
    NextInv(s, i, c);
    Own(r, i);
    hide Inv, Shape, Leads, SharedShape;
    assert [] + [Turn(i, c)] == run;
  }

  lemma {:induction false} RunFacts(s: State, i: nat, run: seq<Turn>, r: State, at: Attempt)
    requires Reachable(s) && i < |s.txs| && s.txs[i].pc.Idle? && Leads(s, i, run, None, r, at)
    ensures Reachable(r) && |r.txs| == |s.txs| && InTune(r.txs[i], at)
    ensures By(run, i) && Fits(s, run) && Shape(s) && r == Exec(s, run) && AttemptOf(s, run, i, None) == at
  {
    StartsInTune(s, i);
    RunInTune(s, run, i, None);
    ReachableRun(s, run);
    hide Reachable, InTune, Exec, AttemptOf;
  }

  /** A rollback under way ends after at most as many turns of the thread as there are entries left. */
  lemma {:induction false} RollsBack(s: State, i: nat) returns (run: seq<Turn>)
    requires Inv(s) && Shape(s) && i < |s.txs| && s.txs[i].pc.Undo?
    ensures By(run, i) && |run| <= s.txs[i].pc.k && Fits(s, run) && Exec(s, run).txs[i].pc.Idle?
    ensures Exec(s, run).sh.mem == s.sh.mem && Exec(s, run).sh.h == s.sh.h
    ensures forall l :: 0 <= l < |Exec(s, run).sh.locks| ==> OwnedByOther(Exec(s, run).sh.locks[l], i)
    decreases s.txs[i].pc.k
  {
    var c := Begin(false);
    Own(s, i);
    NextInv(s, i, c);
    UndoStep(s.sh, s.txs[i]);
    var r := Next(s, i, c);
    hide Inv, SharedShape, TxShape, StepUndo, OwnedByOther;
    OneTurn(s, i, c);
    if r.txs[i].pc.Undo? {
      var rest := RollsBack(r, i);
      run := [Turn(i, c)] + rest;
      ExecThen(s, [Turn(i, c)], rest);
    } else {
      run := [Turn(i, c)];
    }
    ExecInv(s, run);
    IdleHoldsNothing(Exec(s, run), i);
  }

  lemma OneTurn(s: State, i: nat, c: Command)
    requires Shape(s) && i < |s.txs|
    ensures Exec(s, [Turn(i, c)]) == Next(s, i, c)
  {
    hide Next;
    assert [Turn(i, c)][..0] == [];
    assert Exec(s, []) == s;
  }

  lemma {:induction false} ExecThen(s: State, first: seq<Turn>, more: seq<Turn>)
    requires Shape(s) && Fits(s, first) && Fits(s, more)
    ensures Fits(s, first + more) && Exec(s, first + more) == Exec(Exec(s, first), more)
    decreases |more|
  {
    hide Shape, Next;
    if more == [] {
      assert first + more == first;
    } else {
      assert (first + more)[..|first + more| - 1] == first + more[..|more| - 1];
      ExecThen(s, first, more[..|more| - 1]);
    }
  }

  lemma UndoStep(sh: Shared, tx: Tx)
    requires SharedShape(sh) && TxShape(sh, tx) && tx.pc.Undo? && Marks(tx)
    ensures var r := StepUndo(sh, tx);
            && r.sh.mem == sh.mem && r.sh.h == sh.h && tx.pc.k > 0
            && (r.tx.pc.Idle? || (r.tx.pc.Undo? && r.tx.pc.k == tx.pc.k - 1))
  {
  }

  // ---- giving up ----

  predicate HeldByOther(sh: Shared, i: nat, l: nat) {
    l < |sh.locks| && sh.locks[l].Held? && sh.locks[l].owner != i
  }

  /** Since the lock was read with this version, somebody has taken it, or has released it with another one. */
  predicate Changed(sh: Shared, i: nat, r: REntry) {
    HeldByOther(sh, i, r.lock) || (r.lock < |sh.vers| && sh.vers[r.lock] != r.version)
  }

  /** Validation fails for an entry if and only if its lock has changed. */
  lemma ValidIffUnchanged(s: State, i: nat, k: nat)
    requires Reachable(s) && i < |s.txs| && k < |s.txs[i].rset|
    ensures Shape(s) && TxShape(s.sh, s.txs[i])
    ensures EntryValid(s.sh, i, s.txs[i], k) <==> !Changed(s.sh, i, s.txs[i].rset[k])
  {
    ReachableInv(s);
    Own(s, i);
    var l := s.txs[i].rset[k].lock;
    assert Owned(s, l);
    if s.sh.locks[l].Held? && s.sh.locks[l].owner == i {
      assert EntryHeld(s.sh, i, s.txs[i], s.sh.locks[l].entry);
    }
    hide TxsOk, PendingOk, MemoryOk, PastOk, LogOk, SnapshotOk, PcOk, StampOk, Marks;
  }

  /** Why an attempt may end without a commit: the program aborts it; a lock that it needs is another thread's; what it
      has read has changed; a read-only transaction comes upon a version newer than its snapshot; a writer comes upon
      one under a lock it has read; or the clock is at its end. */
  predicate MayGiveUp(sh: Shared, i: nat, tx: Tx, c: Command) {
    match tx.pc
    case Active => c.Abort?
    case RReloadLock(_, v, _) => tx.readOnly && v > tx.end
    case RClock(_, _, _) => sh.clock >= sh.max
    case RExtend(_, _, _, _, k) => k < |tx.rset| && Changed(sh, i, tx.rset[k])
    case WLoadLock(a, _, _) =>
      Lk(sh, a) < |sh.vers| && sh.vers[Lk(sh, a)] > tx.end && HasRead(tx.rset, Lk(sh, a))
    case AcqLoad(k) => 0 < k <= |tx.writes| && HeldByOther(sh, i, Lk(sh, tx.writes[k - 1].addr))
    case Validate(t, k) => (k == 0 ==> tx.start != t - 1) && k < |tx.rset| && Changed(sh, i, tx.rset[k])
    case _ => false
  }

  /** No attempt is given up for another reason. */
  lemma GivesUpOnlyFor(s: State, i: nat, c: Command)
    requires Reachable(s) && Shape(s) && i < |s.txs| && !s.txs[i].pc.Idle? && !s.txs[i].pc.Undo?
    ensures var pc := Next(s, i, c).txs[i].pc;
            pc.Undo? || (pc.Idle? && !s.txs[i].pc.Install? && !(s.txs[i].pc.Active? && c.Commit?))
            ==> MayGiveUp(s.sh, i, s.txs[i], c)
  {
    var tx := s.txs[i];
    hide StepUser, StepLoads, StepReload, StepExtend, StepRecheck, StepWrite, StepAcqLoad, Reachable;
    hide StepAcqCas, StepTime, StepValidate, StepInstall, StepMix, StepRelease, StepUndo, MayGiveUp, TxShape,
         SharedShape;
    ShapeParts(s, i);
    match tx.pc {
      case AcqLoad(_) => AcquireGivesUp(s, i, c);
      case RExtend(_, _, _, _, _) => ValidationGivesUp(s, i, c);
      case Validate(_, _) => ValidationGivesUp(s, i, c);
      case WLoadLock(_, _, _) => WriteGivesUp(s, i, c);
      case _ => OtherGivesUp(s.sh, i, tx, c);
    }
  }

  lemma AcquireGivesUp(s: State, i: nat, c: Command)
    requires Reachable(s) && Shape(s) && i < |s.txs| && s.txs[i].pc.AcqLoad?
    ensures SharedShape(s.sh) && TxShape(s.sh, s.txs[i])
    ensures StepAcqLoad(s.sh, i, s.txs[i]).tx.pc.Undo? || StepAcqLoad(s.sh, i, s.txs[i]).tx.pc.Idle?
            ==> MayGiveUp(s.sh, i, s.txs[i], c)
  {
    ReachableInv(s);
    ShapeParts(s, i);
    assert Owned(s, Lk(s.sh, s.txs[i].writes[s.txs[i].pc.k - 1].addr));
    hide TxsOk, PendingOk, MemoryOk, PastOk, OwnersOk, VersionsOk, SetsShape, Reachable;
  }

  lemma WriteGivesUp(s: State, i: nat, c: Command)
    requires Reachable(s) && Shape(s) && i < |s.txs| && s.txs[i].pc.WLoadLock?
    ensures SharedShape(s.sh) && TxShape(s.sh, s.txs[i])
    ensures StepWrite(s.sh, s.txs[i]).tx.pc.Undo? || StepWrite(s.sh, s.txs[i]).tx.pc.Idle?
            ==> MayGiveUp(s.sh, i, s.txs[i], c)
  {
    ReachableInv(s);
    ShapeParts(s, i);
    hide TxsOk, PendingOk, MemoryOk, PastOk, OwnersOk, SetsShape, Reachable, Find, Folded, HasRead;
  }

  lemma ValidationGivesUp(s: State, i: nat, c: Command)
    requires Reachable(s) && Shape(s) && i < |s.txs| && (s.txs[i].pc.RExtend? || s.txs[i].pc.Validate?)
    ensures SharedShape(s.sh) && TxShape(s.sh, s.txs[i])
    ensures s.txs[i].pc.RExtend? ==>
              var pc := StepExtend(s.sh, i, s.txs[i]).tx.pc; pc.Undo? || pc.Idle? ==> MayGiveUp(s.sh, i, s.txs[i], c)
    ensures s.txs[i].pc.Validate? ==>
              var pc := StepValidate(s.sh, i, s.txs[i]).tx.pc; pc.Undo? || pc.Idle? ==> MayGiveUp(s.sh, i, s.txs[i], c)
  {
    ShapeParts(s, i);
    if s.txs[i].pc.k < |s.txs[i].rset| { ValidIffUnchanged(s, i, s.txs[i].pc.k); }
    hide Reachable, SetsShape, EntryValid, Changed, Shape, SharedShape;
  }

  lemma OtherGivesUp(sh: Shared, i: nat, tx: Tx, c: Command)
    requires SharedShape(sh) && TxShape(sh, tx)
    requires !tx.pc.Idle? && !tx.pc.Undo? && !tx.pc.AcqLoad? && !tx.pc.RExtend? && !tx.pc.Validate? && !tx.pc.WLoadLock?
    ensures var pc := Step(sh, i, tx, c).tx.pc;
            pc.Undo? || (pc.Idle? && !tx.pc.Install? && !(tx.pc.Active? && c.Commit?)) ==> MayGiveUp(sh, i, tx, c)
  {
    hide SetsShape, Overlay, Find, Folded, HasRead, Merge;
  }
}
