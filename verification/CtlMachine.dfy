/** Write-back design with commit-time locking (stm_wbctl.h). One step of a thread is one access to the
    clock, to a lock word or to memory; branches on private data belong to the step they follow. */
module CtlMachine {
  import opened CommitHistory

  /** A lock word: a version, or the owner's write-set entry. */
  datatype LockWord = Free(version: nat) | Held(owner: nat, entry: nat)

  datatype REntry = REntry(lock: nat, version: nat)

  /** The access a thread is about to make.
      RLoadLock .. RRecheck: `stm_wbctl_read` of word `a`; `v` is the version seen, `x` the value seen.
      RExtend: `stm_wbctl_extend`, validating read entry `k` with the clock already read as `now`.
      WLoadLock: `stm_wbctl_write`.
      AcqLoad, AcqCas: entry k-1 of the reverse-order acquisition loop of `stm_wbctl_commit`.
      TakeTime, Validate, Install, Mix, Release: the rest of the commit, with timestamp `t`.
      Undo: entry k-1 of the loop of `stm_wbctl_rollback`. */
  datatype Pc =
    | Idle
    | Active
    | RLoadLock(a: nat)
    | RLoadValue(a: nat, v: nat)
    | RReloadLock(a: nat, v: nat, x: Word)
    | RClock(a: nat, v: nat, x: Word)
    | RExtend(a: nat, v: nat, x: Word, now: nat, k: nat)
    | RRecheck(a: nat, v: nat, x: Word)
    | WLoadLock(a: nat, value: Word, mask: Word)
    | AcqLoad(k: nat)
    | AcqCas(k: nat, v: nat)
    | TakeTime
    | Validate(t: nat, k: nat)
    | Install(t: nat, k: nat)
    | Mix(t: nat, k: nat, x: Word)
    | Release(t: nat, k: nat)
    | Undo(k: nat)

  /** A transaction descriptor. Entry k of the write set is (writes[k], version[k], noDrop[k]).
      `log` records the operations that have returned to the program. */
  datatype Tx = Tx(pc: Pc, readOnly: bool, start: nat, end: nat, rset: seq<REntry>,
                   writes: seq<Update>, version: seq<nat>, noDrop: seq<bool>, acquired: nat, log: seq<Op>)

  /** A write-free transaction that has committed, with the clock at that moment. */
  datatype Finished = Finished(tid: nat, log: seq<Op>, start: nat, end: nat, at: nat)

  /** `max` is VERSION_MAX: at that clock no transaction starts and no snapshot is extended. `vers` (the version a
      lock had when it was last free), `h` and `finished` only record the past. */
  datatype Shared = Shared(max: nat, clock: nat, mem: seq<Word>, locks: seq<LockWord>,
                           vers: seq<nat>, h: History, finished: seq<Finished>)

  datatype State = State(sh: Shared, txs: seq<Tx>)

  /** What the program asks for next; only looked at when the thread is between operations. */
  datatype Command =
    | Begin(readOnly: bool) | Load(a: nat) | Store(a: nat, value: Word, mask: Word) | Commit | Abort

  /** The shared data and the thread's own descriptor after one access. */
  datatype After = After(sh: Shared, tx: Tx)

  function Lk(sh: Shared, a: nat): nat {
    LockIx(sh.h.lockOf, a)
  }

  predicate SetsShape(nmem: nat, nlocks: nat, writes: seq<Update>, version: seq<nat>, noDrop: seq<bool>,
                      rset: seq<REntry>) {
    && |version| == |writes| == |noDrop|
    && (forall k :: 0 <= k < |writes| ==> writes[k].addr < nmem)
    && (forall k :: 0 <= k < |rset| ==> rset[k].lock < nlocks)
  }

  predicate PcShape(nmem: nat, clock: nat, nwrites: nat, nreads: nat, readOnly: bool, pc: Pc) {
    match pc
    case RLoadLock(a) => a < nmem
    case RLoadValue(a, _) => a < nmem
    case RReloadLock(a, _, _) => a < nmem
    case RClock(a, _, _) => a < nmem
    case RExtend(a, _, _, _, k) => a < nmem && k <= nreads
    case RRecheck(a, _, _) => a < nmem
    case WLoadLock(a, _, _) => a < nmem && !readOnly
    case AcqLoad(k) => 0 < k <= nwrites
    case AcqCas(k, _) => 0 < k <= nwrites
    case Validate(t, k) => 0 < t <= clock && k <= nreads
    case Install(t, k) => 0 < t <= clock && k <= nwrites
    case Mix(t, k, _) => 0 < t <= clock && k < nwrites
    case Release(t, k) => 0 < t <= clock && k < nwrites
    case Undo(k) => k <= nwrites
    case _ => true
  }

  predicate TxShape(sh: Shared, tx: Tx) {
    && SetsShape(|sh.mem|, |sh.locks|, tx.writes, tx.version, tx.noDrop, tx.rset)
    && PcShape(|sh.mem|, sh.clock, |tx.writes|, |tx.rset|, tx.readOnly, tx.pc)
  }

  /** Indices are in range; the clock counts the timestamps given out. */
  predicate SharedShape(sh: Shared) {
    && sh.clock == |sh.h.commits|
    && |sh.mem| == |sh.h.lockOf| == |sh.h.init|
    && |sh.vers| == |sh.locks|
    && (forall a :: 0 <= a < |sh.h.lockOf| ==> sh.h.lockOf[a] < |sh.locks|)
  }

  predicate Shape(s: State) {
    && SharedShape(s.sh)
    && (forall i :: 0 <= i < |s.txs| ==> TxShape(s.sh, s.txs[i]))
  }

  predicate HasRead(rset: seq<REntry>, l: nat) {
    exists k :: 0 <= k < |rset| && rset[k].lock == l
  }

  /** `stm_rollback`: undo the acquired locks if there are any, then the attempt is over. */
  function RollbackPc(tx: Tx): Pc {
    if tx.acquired > 0 then Undo(|tx.writes|) else Idle
  }

  function Rollback(sh: Shared, tx: Tx): After {
    After(sh, tx.(pc := RollbackPc(tx)))
  }

  // ---- between operations ----

  function StepUser(sh: Shared, i: nat, tx: Tx, c: Command): After {
    if tx.pc.Idle? then
      if c.Begin? && sh.clock < sh.max
      then After(sh, Tx(Active, c.readOnly, sh.clock, sh.clock, [], [], [], [], 0, []))
      else After(sh, tx)
    else
      match c
      case Begin(_) => After(sh, tx)
      case Load(a) =>
        if a >= |sh.mem| then After(sh, tx) else
          var k := Find(tx.writes, a);
          if k < |tx.writes| && tx.writes[k].mask == ALL_BITS
          then After(sh, tx.(log := tx.log + [Read(a, tx.writes[k].value, Buffer)]))
          else After(sh, tx.(pc := RLoadLock(a)))
      case Store(a, value, mask) =>
        if a >= |sh.mem| || tx.readOnly then After(sh, tx) else After(sh, tx.(pc := WLoadLock(a, value, mask)))
      case Commit =>
        if tx.writes == []
        then After(sh.(finished := sh.finished + [Finished(i, tx.log, tx.start, tx.end, sh.clock)]), tx.(pc := Idle))
        else After(sh, tx.(pc := AcqLoad(|tx.writes|)))
      case Abort => Rollback(sh, tx)
  }

  // ---- read ----

  /** `restart_no_load` with the lock word just loaded. */
  function ReadWith(sh: Shared, tx: Tx, a: nat, l: LockWord): After {
    After(sh, tx.(pc := if l.Held? then RLoadLock(a) else RLoadValue(a, l.version)))
  }

  /** What a read returns when memory held `x`: the transaction's own partial writes on top of it. */
  function Overlay(writes: seq<Update>, a: nat, x: Word): Word {
    var k := Find(writes, a);
    if k < |writes| then Merge(x, writes[k].value, writes[k].mask) else x
  }

  /** The read has a version not newer than `end`: record it and return the value. */
  function FinishRead(sh: Shared, tx: Tx, a: nat, v: nat, x: Word): After {
    After(sh, tx.(pc := Active,
                  log := tx.log + [Read(a, Overlay(tx.writes, a, x), Memory(v, x))],
                  rset := if tx.readOnly then tx.rset else tx.rset + [REntry(Lk(sh, a), v)]))
  }

  /** The first three accesses: lock, value. */
  function StepLoads(sh: Shared, tx: Tx): After
    requires SharedShape(sh) && TxShape(sh, tx)
  {
    match tx.pc
    case RLoadLock(a) => ReadWith(sh, tx, a, sh.locks[Lk(sh, a)])
    case RLoadValue(a, v) => After(sh, tx.(pc := RReloadLock(a, v, sh.mem[a])))
    case RClock(a, v, x) =>
      if sh.clock >= sh.max then Rollback(sh, tx) else After(sh, tx.(pc := RExtend(a, v, x, sh.clock, 0)))
    case _ => After(sh, tx)
  }

  function StepReload(sh: Shared, tx: Tx): After
    requires SharedShape(sh) && TxShape(sh, tx) && tx.pc.RReloadLock?
  {
    var RReloadLock(a, v, x) := tx.pc;
    var l := sh.locks[Lk(sh, a)];
    if l != Free(v) then ReadWith(sh, tx, a, l)
    else if v <= tx.end then FinishRead(sh, tx, a, v, x)
    else if tx.readOnly then Rollback(sh, tx)
    else After(sh, tx.(pc := RClock(a, v, x)))
  }

  function StepExtend(sh: Shared, i: nat, tx: Tx): After
    requires SharedShape(sh) && TxShape(sh, tx) && tx.pc.RExtend?
  {
    var RExtend(a, v, x, now, k) := tx.pc;
    if k == |tx.rset| then After(sh, tx.(end := now, pc := RRecheck(a, v, x)))
    else if EntryValid(sh, i, tx, k) then After(sh, tx.(pc := RExtend(a, v, x, now, k + 1)))
    else Rollback(sh, tx)
  }

  /** When the lock has changed, the loop goes on with the word that was loaded before the extension. */
  function StepRecheck(sh: Shared, tx: Tx): After
    requires SharedShape(sh) && TxShape(sh, tx) && tx.pc.RRecheck?
  {
    var RRecheck(a, v, x) := tx.pc;
    if sh.locks[Lk(sh, a)] == Free(v) then FinishRead(sh, tx, a, v, x) else After(sh, tx.(pc := RLoadValue(a, v)))
  }

  /** One iteration of `stm_wbctl_validate`. */
  predicate EntryValid(sh: Shared, i: nat, tx: Tx, k: nat)
    requires TxShape(sh, tx) && k < |tx.rset|
  {
    match sh.locks[tx.rset[k].lock]
    case Free(v) => v == tx.rset[k].version
    case Held(o, e) => o == i && e < |tx.writes| && tx.version[e] == tx.rset[k].version
  }

  // ---- write ----

  function StepWrite(sh: Shared, tx: Tx): After
    requires SharedShape(sh) && TxShape(sh, tx) && tx.pc.WLoadLock?
  {
    var WLoadLock(a, value, mask) := tx.pc;
    match sh.locks[Lk(sh, a)]
    case Held(_, _) => After(sh, tx)
    case Free(v) =>
      var k := Find(tx.writes, a);
      var log := tx.log + [Op.Write(a, value, mask)];
      if k < |tx.writes| then
        After(sh, tx.(pc := Active, writes := tx.writes[k := Folded(tx.writes[k], value, mask)], log := log))
      else if v > tx.end && HasRead(tx.rset, Lk(sh, a)) then Rollback(sh, tx)
      else
        After(sh, tx.(pc := Active, writes := tx.writes + [Update(a, value, mask)],
                      version := tx.version + [v], noDrop := tx.noDrop + [true], log := log))
  }

  // ---- commit ----

  function NextAcquire(k: nat): Pc {
    if k <= 1 then TakeTime else AcqLoad(k - 1)
  }

  function StepAcqLoad(sh: Shared, i: nat, tx: Tx): After
    requires SharedShape(sh) && TxShape(sh, tx) && tx.pc.AcqLoad?
  {
    var k := tx.pc.k;
    match sh.locks[Lk(sh, tx.writes[k - 1].addr)]
    case Free(v) => After(sh, tx.(pc := AcqCas(k, v)))
    case Held(o, e) =>
      if o == i && e < |tx.writes| then After(sh, tx.(pc := NextAcquire(k))) else Rollback(sh, tx)
  }

  function StepAcqCas(sh: Shared, i: nat, tx: Tx): After
    requires SharedShape(sh) && TxShape(sh, tx) && tx.pc.AcqCas?
  {
    var AcqCas(k, v) := tx.pc;
    var l := Lk(sh, tx.writes[k - 1].addr);
    if sh.locks[l] != Free(v) then After(sh, tx.(pc := AcqLoad(k)))
    else After(sh.(locks := sh.locks[l := Held(i, k - 1)]),
               tx.(pc := NextAcquire(k), noDrop := tx.noDrop[k - 1 := false],
                   version := tx.version[k - 1 := v], acquired := tx.acquired + 1))
  }

  /** `t = FETCH_INC_CLOCK + 1`. */
  function StepTime(sh: Shared, i: nat, tx: Tx): After {
    After(sh.(clock := sh.clock + 1,
              h := sh.h.(commits := sh.h.commits
                                    + [CommitHistory.Commit(i, Pending, tx.start, tx.writes, tx.log)])),
          tx.(pc := Validate(sh.clock + 1, 0)))
  }

  function StepValidate(sh: Shared, i: nat, tx: Tx): After
    requires SharedShape(sh) && TxShape(sh, tx) && tx.pc.Validate?
  {
    var Validate(t, k) := tx.pc;
    if (k == 0 && tx.start == t - 1) || k == |tx.rset| then
      After(sh.(h := Record(sh.h, t, Committed)), tx.(pc := Install(t, 0)))
    else if EntryValid(sh, i, tx, k) then After(sh, tx.(pc := Validate(t, k + 1)))
    else After(sh.(h := Record(sh.h, t, Aborted)), tx.(pc := RollbackPc(tx)))
  }

  function StepInstall(sh: Shared, tx: Tx): After
    requires SharedShape(sh) && TxShape(sh, tx) && tx.pc.Install?
  {
    var Install(t, k) := tx.pc;
    if k == |tx.writes| then After(sh, tx.(pc := Idle))
    else
      var u := tx.writes[k];
      if u.mask == ALL_BITS then After(sh.(mem := sh.mem[u.addr := u.value]), tx.(pc := Release(t, k)))
      else if u.mask != 0 then After(sh, tx.(pc := Mix(t, k, sh.mem[u.addr])))
      else After(sh, tx.(pc := Release(t, k)))
  }

  function StepMix(sh: Shared, tx: Tx): After
    requires SharedShape(sh) && TxShape(sh, tx) && tx.pc.Mix?
  {
    var Mix(t, k, x) := tx.pc;
    var u := tx.writes[k];
    After(sh.(mem := sh.mem[u.addr := Merge(x, u.value, u.mask)]), tx.(pc := Release(t, k)))
  }

  function StepRelease(sh: Shared, tx: Tx): After
    requires SharedShape(sh) && TxShape(sh, tx) && tx.pc.Release?
  {
    var Release(t, k) := tx.pc;
    var l := Lk(sh, tx.writes[k].addr);
    if tx.noDrop[k] then After(sh, tx.(pc := Install(t, k + 1)))
    else After(sh.(locks := sh.locks[l := Free(t)], vers := sh.vers[l := t]), tx.(pc := Install(t, k + 1)))
  }

  // ---- rollback ----

  function StepUndo(sh: Shared, tx: Tx): After
    requires SharedShape(sh) && TxShape(sh, tx) && tx.pc.Undo?
  {
    var k := tx.pc.k;
    if k == 0 then After(sh, tx)   // the loop never gets here, see `UndoInRange`
    else if tx.noDrop[k - 1] then After(sh, tx.(pc := Undo(k - 1)))
    else
      After(sh.(locks := sh.locks[Lk(sh, tx.writes[k - 1].addr) := Free(tx.version[k - 1])]),
            tx.(acquired := if tx.acquired > 0 then tx.acquired - 1 else 0,
                pc := if tx.acquired <= 1 then Idle else Undo(k - 1)))
  }

  /** One access of thread `i`. */
  function Step(sh: Shared, i: nat, tx: Tx, c: Command): After
    requires SharedShape(sh) && TxShape(sh, tx)
  {
    match tx.pc
    case Idle => StepUser(sh, i, tx, c)
    case Active => StepUser(sh, i, tx, c)
    case RLoadLock(_) => StepLoads(sh, tx)
    case RLoadValue(_, _) => StepLoads(sh, tx)
    case RReloadLock(_, _, _) => StepReload(sh, tx)
    case RClock(_, _, _) => StepLoads(sh, tx)
    case RExtend(_, _, _, _, _) => StepExtend(sh, i, tx)
    case RRecheck(_, _, _) => StepRecheck(sh, tx)
    case WLoadLock(_, _, _) => StepWrite(sh, tx)
    case AcqLoad(_) => StepAcqLoad(sh, i, tx)
    case AcqCas(_, _) => StepAcqCas(sh, i, tx)
    case TakeTime => StepTime(sh, i, tx)
    case Validate(_, _) => StepValidate(sh, i, tx)
    case Install(_, _) => StepInstall(sh, tx)
    case Mix(_, _, _) => StepMix(sh, tx)
    case Release(_, _) => StepRelease(sh, tx)
    case Undo(_) => StepUndo(sh, tx)
  }

  function Next(s: State, i: nat, c: Command): State
    requires Shape(s) && i < |s.txs|
  {
    var r := Step(s.sh, i, s.txs[i], c);
    State(r.sh, s.txs[i := r.tx])
  }

  // ---- indices stay in range ----

  /** What no step changes in the shared data. */
  predicate SameFrame(sh: Shared, sh': Shared) {
    && |sh'.mem| == |sh.mem| && |sh'.locks| == |sh.locks|
    && sh'.h.lockOf == sh.h.lockOf && sh'.h.init == sh.h.init
    && sh.clock <= sh'.clock
  }

  ghost predicate GoodAfter(sh: Shared, r: After) {
    SharedShape(r.sh) && TxShape(r.sh, r.tx) && SameFrame(sh, r.sh)
  }

  lemma ShapeOfUser(sh: Shared, i: nat, tx: Tx, c: Command)
    requires SharedShape(sh) && TxShape(sh, tx) && (tx.pc.Idle? || tx.pc.Active?)
    ensures GoodAfter(sh, StepUser(sh, i, tx, c))
  {
    hide Find;
  }

  lemma ShapeOfLoads(sh: Shared, tx: Tx)
    requires SharedShape(sh) && TxShape(sh, tx)
    ensures GoodAfter(sh, StepLoads(sh, tx))
  {
  }

  lemma ShapeOfReload(sh: Shared, tx: Tx)
    requires SharedShape(sh) && TxShape(sh, tx)
    ensures tx.pc.RReloadLock? ==> GoodAfter(sh, StepReload(sh, tx))
    ensures tx.pc.RRecheck? ==> GoodAfter(sh, StepRecheck(sh, tx))
  {
    hide Overlay;
  }

  lemma ShapeOfExtend(sh: Shared, i: nat, tx: Tx)
    requires SharedShape(sh) && TxShape(sh, tx) && tx.pc.RExtend?
    ensures GoodAfter(sh, StepExtend(sh, i, tx))
  {
    hide EntryValid;
  }

  lemma ShapeOfWrite(sh: Shared, tx: Tx)
    requires SharedShape(sh) && TxShape(sh, tx) && tx.pc.WLoadLock?
    ensures GoodAfter(sh, StepWrite(sh, tx))
  {
    hide Find, HasRead, Merge;
  }

  lemma ShapeOfAcqLoad(sh: Shared, i: nat, tx: Tx)
    requires SharedShape(sh) && TxShape(sh, tx) && tx.pc.AcqLoad?
    ensures GoodAfter(sh, StepAcqLoad(sh, i, tx))
  {
  }

  lemma ShapeOfAcqCas(sh: Shared, i: nat, tx: Tx)
    requires SharedShape(sh) && TxShape(sh, tx) && tx.pc.AcqCas?
    ensures GoodAfter(sh, StepAcqCas(sh, i, tx))
  {
  }

  lemma ShapeOfValidate(sh: Shared, i: nat, tx: Tx)
    requires SharedShape(sh) && TxShape(sh, tx)
    ensures tx.pc.TakeTime? ==> GoodAfter(sh, StepTime(sh, i, tx))
    ensures tx.pc.Validate? ==> GoodAfter(sh, StepValidate(sh, i, tx))
  {
    hide EntryValid;
  }

  lemma ShapeOfInstall(sh: Shared, tx: Tx)
    requires SharedShape(sh) && TxShape(sh, tx)
    ensures tx.pc.Install? ==> GoodAfter(sh, StepInstall(sh, tx))
    ensures tx.pc.Mix? ==> GoodAfter(sh, StepMix(sh, tx))
    ensures tx.pc.Release? ==> GoodAfter(sh, StepRelease(sh, tx))
  {
    hide Merge;
  }

  lemma ShapeOfUndo(sh: Shared, tx: Tx)
    requires SharedShape(sh) && TxShape(sh, tx) && tx.pc.Undo?
    ensures GoodAfter(sh, StepUndo(sh, tx))
  {
  }

  lemma ShapeOfStep(sh: Shared, i: nat, tx: Tx, c: Command)
    requires SharedShape(sh) && TxShape(sh, tx)
    ensures GoodAfter(sh, Step(sh, i, tx, c))
  {
    hide StepUser, StepLoads, StepReload, StepExtend, StepRecheck, StepWrite, StepAcqLoad, StepAcqCas;
    hide StepTime, StepValidate, StepInstall, StepMix, StepRelease, StepUndo;
    hide GoodAfter, SharedShape, TxShape;
    match tx.pc {
      case Idle => ShapeOfUser(sh, i, tx, c);
      case Active => ShapeOfUser(sh, i, tx, c);
      case WLoadLock(_, _, _) => ShapeOfWrite(sh, tx);
      case RReloadLock(_, _, _) => ShapeOfReload(sh, tx);
      case RRecheck(_, _, _) => ShapeOfReload(sh, tx);
      case RExtend(_, _, _, _, _) => ShapeOfExtend(sh, i, tx);
      case AcqLoad(_) => ShapeOfAcqLoad(sh, i, tx);
      case AcqCas(_, _) => ShapeOfAcqCas(sh, i, tx);
      case TakeTime => ShapeOfValidate(sh, i, tx);
      case Validate(_, _) => ShapeOfValidate(sh, i, tx);
      case Undo(_) => ShapeOfUndo(sh, tx);
      case _ => ShapeOfLoads(sh, tx); ShapeOfInstall(sh, tx);
    }
  }

  lemma ShapeKept(s: State, i: nat, c: Command)
    requires Shape(s) && i < |s.txs|
    ensures Shape(Next(s, i, c))
  {
    hide Step, SetsShape;
    ShapeOfStep(s.sh, i, s.txs[i], c);
  }
}
