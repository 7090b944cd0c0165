/** Encounter-time locking: the write-back design (stm_wbetl.h) and the write-through design (stm_wt.h). A
    lock is taken by the first write under it and kept until the transaction is over. One step of a thread
    is one access to the clock, to a lock word or to memory; branches on private data belong to the step
    they follow. */
module EtlMachine {
  import opened CommitHistory

  datatype Design = WriteBack | WriteThrough

  /** The version and incarnation number of a free lock. */
  datatype Stamp = Stamp(version: nat, incarnation: nat)

  const INCARNATION_MAX: nat := 7

  /** A lock word: a stamp, or the owner's first write-set entry under the lock. */
  datatype LockWord = Free(stamp: Stamp) | Held(owner: nat, entry: nat)

  datatype REntry = REntry(lock: nat, version: nat)

  /** `value` is the word to write back, or the word to restore. `next` links the entries under one lock in
      the order of their indices; no entry has entry 0 as its successor, so 0 is the null pointer. */
  datatype WEntry = WEntry(addr: nat, value: Word, mask: Word, stamp: Stamp, next: nat)

  /** The access a thread is about to make.
      RLoadLock .. RRecheck: the read of word `a`; `v` is the stamp seen, `x` the value seen.
      RExtend: validating read entry `k` with the clock already read as `now`.
      ROwn: the read of a word under a lock of the thread itself.
      WLoadLock, WCas: the write of word `a`. WLoad, WStore: it loads, or stores `y` to, the word of entry k.
      TakeTime .. Release: the commit, with timestamp `t`; Install only stores in the write-back design.
      Undo, UndoLock: entry k of the rollback, whose own timestamp is t, or 0 while it has none. */
  datatype Pc =
    | Idle
    | Active
    | RLoadLock(a: nat)
    | RLoadValue(a: nat, v: Stamp)
    | RReloadLock(a: nat, v: Stamp, x: Word)
    | RClock(a: nat, v: Stamp, x: Word)
    | RExtend(a: nat, v: Stamp, x: Word, now: nat, k: nat)
    | RRecheck(a: nat, v: Stamp, x: Word)
    | ROwn(a: nat)
    | WLoadLock(a: nat, value: Word, mask: Word)
    | WCas(a: nat, value: Word, mask: Word, v: Stamp)
    | WLoad(k: nat, value: Word, mask: Word)
    | WStore(k: nat, y: Word, value: Word, mask: Word)
    | TakeTime
    | Validate(t: nat, k: nat)
    | Install(t: nat, k: nat)
    | Release(t: nat, k: nat)
    | Undo(k: nat, t: nat)
    | UndoLock(k: nat, t: nat)

  /** `size` is the capacity of the write set; `log` records the operations that have returned to the program. */
  datatype Tx = Tx(pc: Pc, readOnly: bool, start: nat, end: nat, rset: seq<REntry>, entries: seq<WEntry>, log: seq<Op>,
                   size: nat)

  /** A write-free transaction that has committed, with the clock at that moment. */
  datatype Finished = Finished(tid: nat, log: seq<Op>, start: nat, end: nat, at: nat)

  /** `max` is VERSION_MAX: at that clock no transaction starts and no snapshot is extended. `vers` (the stamp a
      lock had when it was last free), `h` and `finished` only record the past. */
  datatype Shared = Shared(design: Design, max: nat, clock: nat, mem: seq<Word>, locks: seq<LockWord>,
                           vers: seq<Stamp>, h: History, finished: seq<Finished>)

  datatype State = State(sh: Shared, txs: seq<Tx>)

  /** What the program asks for next; only looked at when the thread is between operations. */
  datatype Command =
    | Begin(readOnly: bool) | Load(a: nat) | Store(a: nat, value: Word, mask: Word) | Commit | Abort

  datatype After = After(sh: Shared, tx: Tx)

  function Lk(sh: Shared, a: nat): nat {
    LockIx(sh.h.lockOf, a)
  }

  predicate SetsShape(nmem: nat, nlocks: nat, entries: seq<WEntry>, rset: seq<REntry>) {
    && (forall k :: 0 <= k < |entries| ==> entries[k].addr < nmem)
    && (forall k :: 0 <= k < |rset| ==> rset[k].lock < nlocks)
  }

  predicate PcShape(nmem: nat, clock: nat, nentries: nat, nreads: nat, readOnly: bool, pc: Pc) {
    match pc
    case RLoadLock(a) => a < nmem
    case RLoadValue(a, _) => a < nmem
    case RReloadLock(a, _, _) => a < nmem
    case RClock(a, _, _) => a < nmem
    case RExtend(a, _, _, _, k) => a < nmem && k <= nreads
    case RRecheck(a, _, _) => a < nmem
    case ROwn(a) => a < nmem
    case WLoadLock(a, _, _) => a < nmem && !readOnly
    case WCas(a, _, _, _) => a < nmem && !readOnly
    case WLoad(k, _, _) => k < nentries
    case WStore(k, _, _, _) => k < nentries
    case Validate(t, k) => 0 < t <= clock && k <= nreads
    case Install(t, k) => 0 < t <= clock && k <= nentries
    case Release(t, k) => 0 < t <= clock && k < nentries
    case Undo(k, t) => k <= nentries && t <= clock
    case UndoLock(k, t) => k < nentries && t <= clock
    case _ => true
  }

  predicate TxShape(sh: Shared, tx: Tx) {
    && SetsShape(|sh.mem|, |sh.locks|, tx.entries, tx.rset)
    && PcShape(|sh.mem|, sh.clock, |tx.entries|, |tx.rset|, tx.readOnly, tx.pc)
  }

  /** Indices are in range; the clock counts the timestamps given out. */
  predicate SharedShape(sh: Shared) {
    && sh.clock == |sh.h.commits|
    && |sh.mem| == |sh.h.lockOf| == |sh.h.init|
    && |sh.vers| == |sh.locks|
    && (forall a :: 0 <= a < |sh.h.lockOf| ==> sh.h.lockOf[a] < |sh.locks|)
  }

  predicate Shape(s: State) {
    && SharedShape(s.sh)
    && (forall i :: 0 <= i < |s.txs| ==> TxShape(s.sh, s.txs[i]))
  }

  predicate HasRead(rset: seq<REntry>, l: nat) {
    exists k :: 0 <= k < |rset| && rset[k].lock == l
  }

  // ---- the chain of entries under one lock ----

  /** The walk from entry k to the entry for word `a`; |es| when it ends at a null pointer first. */
  function ChainFind(es: seq<WEntry>, k: nat, a: nat): (r: nat)
    ensures r <= |es| && (r < |es| ==> es[r].addr == a)
    decreases |es| - k
  {
    if k >= |es| then |es|
    else if es[k].addr == a then k
    else if es[k].next <= k then |es|
    else ChainFind(es, es[k].next, a)
  }

  /** The end of the chain that starts at entry k. */
  function ChainLast(es: seq<WEntry>, k: nat): (r: nat)
    requires k < |es|
    ensures k <= r < |es|
    decreases |es| - k
  {
    if es[k].next <= k || es[k].next >= |es| then k else ChainLast(es, es[k].next)
  }

  /** A new entry at the end of the write set, linked to entry `last` of its lock. */
  function Linked(es: seq<WEntry>, last: nat, a: nat): seq<WEntry>
    requires last < |es|
  {
    es[last := es[last].(next := |es|)] + [WEntry(a, 0, 0, es[last].stamp, 0)]
  }

  // ---- rollback ----

  function RollbackPc(tx: Tx): Pc {
    if tx.entries == [] then Idle else Undo(0, 0)
  }

  function Rollback(sh: Shared, tx: Tx): After {
    After(sh, tx.(pc := RollbackPc(tx)))
  }

  /** The write set is full: the attempt is given up, and the next one has twice the capacity. */
  function Overflow(sh: Shared, tx: Tx): After {
    Rollback(sh, tx.(size := 2 * tx.size))
  }

  function StepUndo(sh: Shared, tx: Tx): After
    requires SharedShape(sh) && TxShape(sh, tx) && tx.pc.Undo?
  {
    var Undo(k, t) := tx.pc;
    if k == |tx.entries| then After(sh, tx.(pc := Idle))
    else if sh.design.WriteThrough? && tx.entries[k].mask != 0 then
      After(sh.(mem := sh.mem[tx.entries[k].addr := tx.entries[k].value]), tx.(pc := UndoLock(k, t)))
    else After(sh, tx.(pc := UndoLock(k, t)))
  }

  /** The lock of word `a` is released with the given stamp. */
  function FreeLock(sh: Shared, a: nat, st: Stamp): Shared
    requires SharedShape(sh) && a < |sh.mem|
  {
    sh.(locks := sh.locks[Lk(sh, a) := Free(st)], vers := sh.vers[Lk(sh, a) := st])
  }

  /** A timestamp is taken from the clock. */
  function Tick(sh: Shared, c: CommitHistory.Commit): Shared {
    sh.(clock := sh.clock + 1, h := sh.h.(commits := sh.h.commits + [c]))
  }

  function StepUndoLock(sh: Shared, i: nat, tx: Tx): After
    requires SharedShape(sh) && TxShape(sh, tx) && tx.pc.UndoLock?
  {
    var UndoLock(k, t) := tx.pc;
    var e := tx.entries[k];
    if e.next != 0 then After(sh, tx.(pc := Undo(k + 1, t)))
    else if sh.design.WriteBack? then After(FreeLock(sh, e.addr, e.stamp), tx.(pc := Undo(k + 1, t)))
    else if e.stamp.incarnation + 1 <= INCARNATION_MAX then
      After(FreeLock(sh, e.addr, Stamp(e.stamp.version, e.stamp.incarnation + 1)), tx.(pc := Undo(k + 1, t)))
    else if t == 0 then
      After(Tick(sh, CommitHistory.Commit(i, Aborted, tx.start, [], [])), tx.(pc := UndoLock(k, sh.clock + 1)))
    else After(FreeLock(sh, e.addr, Stamp(t, 0)), tx.(pc := Undo(k + 1, t)))
  }

  // ---- between operations ----

  function StepUser(sh: Shared, i: nat, tx: Tx, c: Command): After {
    if tx.pc.Idle? then
      if c.Begin? && sh.clock < sh.max
      then After(sh, Tx(Active, c.readOnly, sh.clock, sh.clock, [], [], [], tx.size))
      else After(sh, tx)
    else
      match c
      case Begin(_) => After(sh, tx)
      case Load(a) => if a >= |sh.mem| then After(sh, tx) else After(sh, tx.(pc := RLoadLock(a)))
      case Store(a, value, mask) =>
        if a >= |sh.mem| || tx.readOnly || (sh.design.WriteThrough? && mask == 0) then After(sh, tx)
        else After(sh, tx.(pc := WLoadLock(a, value, mask)))
      case Commit =>
        if tx.entries == []
        then After(sh.(finished := sh.finished + [Finished(i, tx.log, tx.start, tx.end, sh.clock)]), tx.(pc := Idle))
        else After(sh, tx.(pc := TakeTime))
      case Abort => Rollback(sh, tx)
  }

  // ---- read ----

  /** The content that word `a` had when its lock was last free. */
  function Base(sh: Shared, a: nat): Word {
    var l := Lk(sh, a);
    if l < |sh.vers| && sh.vers[l].version <= |sh.h.commits| then ValueAt(sh.h, sh.vers[l].version, a) else 0
  }

  function ReturnOwn(sh: Shared, tx: Tx, a: nat, x: Word): After {
    After(sh, tx.(pc := Active, log := tx.log + [Read(a, x, UnderOwnLock(Base(sh, a)))]))
  }

  /** `restart_no_load` with the lock word just loaded. */
  function ReadWith(sh: Shared, i: nat, tx: Tx, a: nat, l: LockWord): After {
    if l.Free? then After(sh, tx.(pc := RLoadValue(a, l.stamp)))
    else if l.owner != i || l.entry >= |tx.entries| then Rollback(sh, tx)
    else if sh.design.WriteThrough? then After(sh, tx.(pc := ROwn(a)))
    else
      var k := ChainFind(tx.entries, l.entry, a);
      if k < |tx.entries| && tx.entries[k].mask != 0 then ReturnOwn(sh, tx, a, tx.entries[k].value)
      else After(sh, tx.(pc := ROwn(a)))
  }

  function WithRead(sh: Shared, tx: Tx, a: nat, v: Stamp): seq<REntry> {
    if tx.readOnly then tx.rset else tx.rset + [REntry(Lk(sh, a), v.version)]
  }

  /** The read has a version not newer than `end`. */
  function FinishRead(sh: Shared, tx: Tx, a: nat, v: Stamp, x: Word): After {
    After(sh, tx.(pc := Active, log := tx.log + [Read(a, x, Memory(v.version, x))]))
  }

  function StepLoads(sh: Shared, i: nat, tx: Tx): After
    requires SharedShape(sh) && TxShape(sh, tx)
  {
    match tx.pc
    case RLoadLock(a) => ReadWith(sh, i, tx, a, sh.locks[Lk(sh, a)])
    case RLoadValue(a, v) => After(sh, tx.(pc := RReloadLock(a, v, sh.mem[a])))
    case RClock(a, v, x) =>
      if sh.clock >= sh.max then Rollback(sh, tx) else After(sh, tx.(pc := RExtend(a, v, x, sh.clock, 0)))
    case ROwn(a) => ReturnOwn(sh, tx, a, sh.mem[a])
    case _ => After(sh, tx)
  }

  /** The write-through design adds the read set entry at once, the write-back design when the read is done. */
  function StepReload(sh: Shared, i: nat, tx: Tx): After
    requires SharedShape(sh) && TxShape(sh, tx) && tx.pc.RReloadLock?
  {
    var RReloadLock(a, v, x) := tx.pc;
    var l := sh.locks[Lk(sh, a)];
    if l != Free(v) then ReadWith(sh, i, tx, a, l)
    else if v.version <= tx.end then FinishRead(sh, tx.(rset := WithRead(sh, tx, a, v)), a, v, x)
    else if tx.readOnly then Rollback(sh, tx)
    else
      After(sh, tx.(pc := RClock(a, v, x), rset := if sh.design.WriteThrough? then WithRead(sh, tx, a, v) else tx.rset))
  }

  /** One iteration of the validation of the read set. */
  predicate EntryValid(sh: Shared, i: nat, tx: Tx, k: nat)
    requires TxShape(sh, tx) && k < |tx.rset|
  {
    match sh.locks[tx.rset[k].lock]
    case Free(v) => v.version == tx.rset[k].version
    case Held(o, e) => o == i && e < |tx.entries|
  }

  function StepExtend(sh: Shared, i: nat, tx: Tx): After
    requires SharedShape(sh) && TxShape(sh, tx) && tx.pc.RExtend?
  {
    var RExtend(a, v, x, now, k) := tx.pc;
    if k == |tx.rset| then
      if sh.design.WriteThrough? then FinishRead(sh, tx.(end := now), a, v, x)
      else After(sh, tx.(end := now, pc := RRecheck(a, v, x)))
    else if EntryValid(sh, i, tx, k) then After(sh, tx.(pc := RExtend(a, v, x, now, k + 1)))
    else Rollback(sh, tx)
  }

  function StepRecheck(sh: Shared, i: nat, tx: Tx): After
    requires SharedShape(sh) && TxShape(sh, tx) && tx.pc.RRecheck?
  {
    var RRecheck(a, v, x) := tx.pc;
    var l := sh.locks[Lk(sh, a)];
    if l == Free(v) then FinishRead(sh, tx.(rset := WithRead(sh, tx, a, v)), a, v, x) else ReadWith(sh, i, tx, a, l)
  }

  // ---- write ----

  /** The write has been done; `es` is the write set. */
  function Wrote(sh: Shared, tx: Tx, es: seq<WEntry>, a: nat, value: Word, mask: Word): After {
    After(sh, tx.(pc := Active, entries := es, log := tx.log + [Op.Write(a, value, mask)]))
  }

  /** The bits written by two stores. */
  function Join(m: Word, n: Word): Word {
    m | n
  }

  /** Going on with the write to the word of entry k, which is in the write set by now. */
  function WriteEntry(sh: Shared, tx: Tx, es: seq<WEntry>, k: nat, value: Word, mask: Word): After
    requires k < |es|
  {
    var e := es[k];
    if sh.design.WriteBack? then
      if mask == 0 then Wrote(sh, tx, es, e.addr, value, mask)
      else if mask == ALL_BITS then Wrote(sh, tx, es[k := e.(value := value, mask := ALL_BITS)], e.addr, value, mask)
      else if e.mask != 0 then
        Wrote(sh, tx, es[k := e.(value := Merge(e.value, value, mask), mask := Join(e.mask, mask))], e.addr, value,
              mask)
      else After(sh, tx.(pc := WLoad(k, value, mask), entries := es))
    else if e.mask != 0 && mask == ALL_BITS then After(sh, tx.(pc := WStore(k, value, value, mask), entries := es))
    else After(sh, tx.(pc := WLoad(k, value, mask), entries := es))
  }

  function StepWrite(sh: Shared, i: nat, tx: Tx): After
    requires SharedShape(sh) && TxShape(sh, tx) && tx.pc.WLoadLock?
  {
    var WLoadLock(a, value, mask) := tx.pc;
    match sh.locks[Lk(sh, a)]
    case Held(o, e) =>
      if o != i || e >= |tx.entries| then Rollback(sh, tx)
      else if mask == 0 then Wrote(sh, tx, tx.entries, a, value, mask)
      else
        var k := ChainFind(tx.entries, e, a);
        if k < |tx.entries| then WriteEntry(sh, tx, tx.entries, k, value, mask)
        else if |tx.entries| == tx.size then Overflow(sh, tx)
        else WriteEntry(sh, tx, Linked(tx.entries, ChainLast(tx.entries, e), a), |tx.entries|, value, mask)
    case Free(v) =>
      if v.version > tx.end && HasRead(tx.rset, Lk(sh, a)) then Rollback(sh, tx)
      else if |tx.entries| == tx.size then Overflow(sh, tx)
      else After(sh, tx.(pc := WCas(a, value, mask, v)))
  }

  /** The first entry under a lock just acquired. */
  function Acquired(es: seq<WEntry>, a: nat, v: Stamp): seq<WEntry> {
    es + [WEntry(a, 0, 0, v, 0)]
  }

  function StepCas(sh: Shared, i: nat, tx: Tx): After
    requires SharedShape(sh) && TxShape(sh, tx) && tx.pc.WCas?
  {
    var WCas(a, value, mask, v) := tx.pc;
    var l := Lk(sh, a);
    if sh.locks[l] != Free(v) then After(sh, tx.(pc := WLoadLock(a, value, mask)))
    else
      WriteEntry(sh.(locks := sh.locks[l := Held(i, |tx.entries|)]), tx, Acquired(tx.entries, a, v), |tx.entries|,
                 value, mask)
  }

  function StepWLoad(sh: Shared, tx: Tx): After
    requires SharedShape(sh) && TxShape(sh, tx) && tx.pc.WLoad?
  {
    var WLoad(k, value, mask) := tx.pc;
    var e := tx.entries[k];
    var x := sh.mem[e.addr];
    var y := if mask != ALL_BITS then Merge(x, value, mask) else value;
    if sh.design.WriteBack? then
      Wrote(sh, tx, tx.entries[k := e.(value := y, mask := Join(e.mask, mask))], e.addr, value, mask)
    else
      After(sh, tx.(pc := WStore(k, y, value, mask),
                    entries := if e.mask == 0 then tx.entries[k := e.(value := x, mask := mask)] else tx.entries))
  }

  function StepWStore(sh: Shared, tx: Tx): After
    requires SharedShape(sh) && TxShape(sh, tx) && tx.pc.WStore?
  {
    var WStore(k, y, value, mask) := tx.pc;
    var a := tx.entries[k].addr;
    Wrote(sh.(mem := sh.mem[a := y]), tx, tx.entries, a, value, mask)
  }

  // ---- commit ----

  /** What the transaction has written under its locks, word by word. */
  function Updates(sh: Shared, es: seq<WEntry>): (us: seq<Update>)
    ensures |us| == |es| && forall k :: 0 <= k < |es| ==> us[k].addr == es[k].addr
  {
    seq(|es|, k requires 0 <= k < |es| =>
      var a := es[k].addr;
      if sh.design.WriteBack? then Update(a, es[k].value, if es[k].mask == 0 then 0 else ALL_BITS)
      else Update(a, if a < |sh.mem| then sh.mem[a] else 0, ALL_BITS))
  }

  /** `t = FETCH_INC_CLOCK + 1`. */
  function StepTime(sh: Shared, i: nat, tx: Tx): After {
    After(Tick(sh, CommitHistory.Commit(i, Pending, tx.start, Updates(sh, tx.entries), tx.log)),
          tx.(pc := Validate(sh.clock + 1, 0)))
  }

  function StepValidate(sh: Shared, i: nat, tx: Tx): After
    requires SharedShape(sh) && TxShape(sh, tx) && tx.pc.Validate?
  {
    var Validate(t, k) := tx.pc;
    if (k == 0 && tx.start == t - 1) || k == |tx.rset| then
      After(sh.(h := Record(sh.h, t, Committed)), tx.(pc := Install(t, 0)))
    else if EntryValid(sh, i, tx, k) then After(sh, tx.(pc := Validate(t, k + 1)))
    else After(sh.(h := Record(sh.h, t, Aborted)), tx.(pc := RollbackPc(tx)))
  }

  function StepInstall(sh: Shared, tx: Tx): After
    requires SharedShape(sh) && TxShape(sh, tx) && tx.pc.Install?
  {
    var Install(t, k) := tx.pc;
    if k == |tx.entries| then After(sh, tx.(pc := Idle))
    else if sh.design.WriteBack? && tx.entries[k].mask != 0 then
      After(sh.(mem := sh.mem[tx.entries[k].addr := tx.entries[k].value]), tx.(pc := Release(t, k)))
    else After(sh, tx.(pc := Release(t, k)))
  }

  function StepRelease(sh: Shared, tx: Tx): After
    requires SharedShape(sh) && TxShape(sh, tx) && tx.pc.Release?
  {
    var Release(t, k) := tx.pc;
    if tx.entries[k].next != 0 then After(sh, tx.(pc := Install(t, k + 1)))
    else After(FreeLock(sh, tx.entries[k].addr, Stamp(t, 0)), tx.(pc := Install(t, k + 1)))
  }

  /** One access of thread `i`. */
  function Step(sh: Shared, i: nat, tx: Tx, c: Command): After
    requires SharedShape(sh) && TxShape(sh, tx)
  {
    match tx.pc
    case Idle => StepUser(sh, i, tx, c)
    case Active => StepUser(sh, i, tx, c)
    case RLoadLock(_) => StepLoads(sh, i, tx)
    case RLoadValue(_, _) => StepLoads(sh, i, tx)
    case RReloadLock(_, _, _) => StepReload(sh, i, tx)
    case RClock(_, _, _) => StepLoads(sh, i, tx)
    case RExtend(_, _, _, _, _) => StepExtend(sh, i, tx)
    case RRecheck(_, _, _) => StepRecheck(sh, i, tx)
    case ROwn(_) => StepLoads(sh, i, tx)
    case WLoadLock(_, _, _) => StepWrite(sh, i, tx)
    case WCas(_, _, _, _) => StepCas(sh, i, tx)
    case WLoad(_, _, _) => StepWLoad(sh, tx)
    case WStore(_, _, _, _) => StepWStore(sh, tx)
    case TakeTime => StepTime(sh, i, tx)
    case Validate(_, _) => StepValidate(sh, i, tx)
    case Install(_, _) => StepInstall(sh, tx)
    case Release(_, _) => StepRelease(sh, tx)
    case Undo(_, _) => StepUndo(sh, tx)
    case UndoLock(_, _) => StepUndoLock(sh, i, tx)
  }

  function Next(s: State, i: nat, c: Command): State
    requires Shape(s) && i < |s.txs|
  {
    var r := Step(s.sh, i, s.txs[i], c);
    State(r.sh, s.txs[i := r.tx])
  }
}
