/** The epoch-based collector (gc.c), for any number of threads and slots. One step of a thread is one access
    to a slot's `used` or `ts`, one reading of the clock, or one turn of the loop that frees regions. */
module EpochGc {

  /** Unset is EPOCH_MAX. */
  datatype Epoch = At(e: nat) | Unset

  datatype Used = Null | Busy | FreeEmpty | FreeFull

  /** A transaction: the thread, and how many it has started. */
  datatype Tx = Tx(thread: nat, round: nat)

  /** `running` records the transactions that were running when the epoch of the free was read. */
  datatype Block = Block(addr: nat, running: set<Tx>)

  datatype Region = Region(ts: nat, blocks: seq<Block>)

  datatype Slot = Slot(used: Used, ts: Epoch, regions: seq<Region>)

  /** Find, Claim, ReadEpoch, WriteEpoch: `gc_init_thread`. SetEpoch: `gc_set_epoch` of a transaction that has
      read its start time. FreeRead, FreeAdd: a block is freed. CleanRead, ScanUsed, ScanTs, Reclaim:
      `gc_cleanup`. Leave, Release, Uncount: `gc_exit_thread`. */
  datatype Pc =
    | Out | Find(i: nat) | Claim(i: nat, used: Used) | ReadEpoch | WriteEpoch(e: nat)
    | Idle | SetEpoch
    | FreeRead(addr: nat) | FreeAdd(b: Block, e: nat)
    | CleanRead | ScanUsed(i: nat, min: nat) | ScanTs(i: nat, min: nat) | Reclaim(min: nat)
    | Leave | Release | Uncount

  /** `idx` is the thread's slot; a transaction runs from the moment it has read its start time. */
  datatype Thread = Thread(pc: Pc, idx: nat, inTx: bool, start: nat, round: nat)

  datatype State = State(clock: nat, active: nat, slots: seq<Slot>, threads: seq<Thread>)

  datatype Action =
    | Tick | Enter(t: nat) | Begin(t: nat) | End(t: nat) | Free(t: nat, addr: nat) | Exit(t: nat) | Step(t: nat)

  // ---- regions ----

  function Last(rs: seq<Region>): Region
    requires rs != []
  {
    rs[|rs| - 1]
  }

  /** `gc_free`: to the region of the epoch, or to a new one. */
  function AddBlock(rs: seq<Region>, b: Block, e: nat): seq<Region> {
    if rs == [] || Last(rs).ts < e then rs + [Region(e, [b])]
    else rs[|rs| - 1 := Last(rs).(blocks := [b] + Last(rs).blocks)]
  }

  /** What is left of the list when regions older than `min` have been freed. */
  function Drop(rs: seq<Region>, min: nat): seq<Region> {
    if rs != [] && min > rs[0].ts then Drop(rs[1..], min) else rs
  }

  // ---- steps ----

  predicate Enabled(s: State, a: Action) {
    match a
    case Tick => true
    case Enter(t) => t < |s.threads| && s.threads[t].pc.Out? && s.active < |s.slots|
    case Begin(t) => t < |s.threads| && s.threads[t].pc.Idle? && !s.threads[t].inTx
    case End(t) => t < |s.threads| && s.threads[t].pc.Idle? && s.threads[t].inTx
    case Free(t, _) => t < |s.threads| && s.threads[t].pc.Idle?
    case Exit(t) => t < |s.threads| && s.threads[t].pc.Idle? && !s.threads[t].inTx
    case Step(t) => t < |s.threads| && InRange(s, s.threads[t])
  }

  predicate InRange(s: State, th: Thread) {
    match th.pc
    case Out => false
    case Idle => false
    case Find(i) => i < |s.slots|
    case Claim(i, _) => i < |s.slots|
    case ScanUsed(_, _) => th.idx < |s.slots|
    case ScanTs(i, _) => i < |s.slots|
    case _ => th.idx < |s.slots|
  }

  function Running(s: State): set<Tx> {
    set t | 0 <= t < |s.threads| && s.threads[t].inTx :: Tx(t, s.threads[t].round)
  }

  function Put(s: State, t: nat, th: Thread): State
    requires t < |s.threads|
  {
    s.(threads := s.threads[t := th])
  }

  function PutSlot(s: State, i: nat, sl: Slot): State
    requires i < |s.slots|
  {
    s.(slots := s.slots[i := sl])
  }

  /** The scan for a slot starts again at the end of the array. */
  function After(s: State, i: nat): nat {
    if i + 1 >= |s.slots| then 0 else i + 1
  }

  function StepInit(s: State, t: nat): State
    requires t < |s.threads| && InRange(s, s.threads[t])
  {
    var th := s.threads[t];
    match th.pc
    case Find(i) =>
      if s.slots[i].used != Busy then Put(s, t, th.(pc := Claim(i, s.slots[i].used)))
      else Put(s, t, th.(pc := Find(After(s, i))))
    case Claim(i, used) =>
      if s.slots[i].used != used then Put(s, t, th.(pc := Find(After(s, i))))
      else PutSlot(Put(s, t, th.(pc := ReadEpoch, idx := i)), i, s.slots[i].(used := Busy))
    case ReadEpoch => Put(s, t, th.(pc := WriteEpoch(s.clock)))
    case WriteEpoch(e) => PutSlot(Put(s, t, th.(pc := Idle)), th.idx, s.slots[th.idx].(ts := At(e)))
    case SetEpoch => PutSlot(Put(s, t, th.(pc := Idle)), th.idx, s.slots[th.idx].(ts := At(th.start)))
    case _ => s
  }

  function StepFree(s: State, t: nat): State
    requires t < |s.threads| && InRange(s, s.threads[t])
  {
    var th := s.threads[t];
    match th.pc
    case FreeRead(addr) => Put(s, t, th.(pc := FreeAdd(Block(addr, Running(s)), s.clock)))
    case FreeAdd(b, e) =>
      PutSlot(Put(s, t, th.(pc := CleanRead)), th.idx,
              s.slots[th.idx].(regions := AddBlock(s.slots[th.idx].regions, b, e)))
    case CleanRead =>
      if s.slots[th.idx].regions == [] then Put(s, t, th.(pc := Idle)) else Put(s, t, th.(pc := ScanUsed(0, s.clock)))
    case Reclaim(min) =>
      var rs := s.slots[th.idx].regions;
      if rs != [] && min > rs[0].ts then PutSlot(s, th.idx, s.slots[th.idx].(regions := rs[1..]))
      else Put(s, t, th.(pc := Idle))
    case _ => s
  }

  /** `gc_compute_min`. */
  function StepScan(s: State, t: nat): State
    requires t < |s.threads| && InRange(s, s.threads[t])
  {
    var th := s.threads[t];
    match th.pc
    case ScanUsed(i, min) =>
      if i >= |s.slots| || s.slots[i].used == Null then Put(s, t, th.(pc := Reclaim(min)))
      else if s.slots[i].used == Busy then Put(s, t, th.(pc := ScanTs(i, min)))
      else Put(s, t, th.(pc := ScanUsed(i + 1, min)))
    case ScanTs(i, min) =>
      match s.slots[i].ts {
        case Unset => Put(s, t, th.(pc := ScanUsed(i, min)))
        case At(e) => Put(s, t, th.(pc := ScanUsed(i + 1, if e < min then e else min)))
      }
    case _ => s
  }

  function StepExit(s: State, t: nat): State
    requires t < |s.threads| && InRange(s, s.threads[t])
  {
    var th := s.threads[t];
    match th.pc
    case Leave => PutSlot(Put(s, t, th.(pc := Release)), th.idx, s.slots[th.idx].(ts := Unset))
    case Release =>
      PutSlot(Put(s, t, th.(pc := Uncount)), th.idx,
              s.slots[th.idx].(used := if s.slots[th.idx].regions == [] then FreeEmpty else FreeFull))
    case Uncount => Put(s.(active := if s.active > 0 then s.active - 1 else 0), t, th.(pc := Out))
    case _ => s
  }

  function Next(s: State, a: Action): (r: State)
    requires Enabled(s, a)
  {
    match a
    case Tick => s.(clock := s.clock + 1)
    case Enter(t) => Put(s.(active := s.active + 1), t, s.threads[t].(pc := Find(0)))
    case Begin(t) =>
      Put(s, t, s.threads[t].(pc := SetEpoch, inTx := true, start := s.clock, round := s.threads[t].round + 1))
    case End(t) => Put(s, t, s.threads[t].(inTx := false))
    case Free(t, addr) => Put(s, t, s.threads[t].(pc := FreeRead(addr)))
    case Exit(t) => Put(s, t, s.threads[t].(pc := Leave))
    case Step(t) =>
      match s.threads[t].pc
      case Find(_) => StepInit(s, t)
      case Claim(_, _) => StepInit(s, t)
      case ReadEpoch => StepInit(s, t)
      case WriteEpoch(_) => StepInit(s, t)
      case SetEpoch => StepInit(s, t)
      case ScanUsed(_, _) => StepScan(s, t)
      case ScanTs(_, _) => StepScan(s, t)
      case Leave => StepExit(s, t)
      case Release => StepExit(s, t)
      case Uncount => StepExit(s, t)
      case _ => StepFree(s, t)
  }

  predicate Initial(s: State) {
    && s.active == 0
    && (forall i :: 0 <= i < |s.slots| ==> s.slots[i] == Slot(Null, Unset, []))
    && (forall t :: 0 <= t < |s.threads| ==> s.threads[t].pc.Out? && !s.threads[t].inTx)
  }

  // ---- the invariant ----

  predicate Registered(pc: Pc) {
    !pc.Out? && !pc.Find? && !pc.Claim? && !pc.Uncount?
  }

  /** A registered thread's slot has an epoch, except while it comes and goes. */
  predicate HasEpoch(pc: Pc) {
    Registered(pc) && !pc.ReadEpoch? && !pc.WriteEpoch? && !pc.Release?
  }

  ghost predicate ThreadOk(s: State, t: nat)
    requires t < |s.threads|
  {
    var th := s.threads[t];
    && (Registered(th.pc) ==>
        th.idx < |s.slots| && s.slots[th.idx].used == Busy && s.slots[th.idx].ts.At? == HasEpoch(th.pc))
    && (th.inTx ==> HasEpoch(th.pc) && !th.pc.Leave? && th.start <= s.clock && s.slots[th.idx].ts.e <= th.start)
    && (th.pc.SetEpoch? ==> th.inTx)
    && (th.pc.WriteEpoch? ==> th.pc.e <= s.clock)
    && (th.pc.Find? || th.pc.Claim? ==> th.pc.i < |s.slots| && forall j :: 0 <= j < th.pc.i ==> s.slots[j].used != Null)
    && (th.pc.Claim? ==> th.pc.used != Busy && (th.pc.used != Null ==> s.slots[th.pc.i].used != Null))
    && (th.pc.ScanTs? ==> th.pc.i < |s.slots|)
  }

  ghost predicate ThreadsOk(s: State) {
    forall t :: 0 <= t < |s.threads| ==> ThreadOk(s, t)
  }

  predicate Apart(th: Thread, other: Thread) {
    Registered(th.pc) && Registered(other.pc) ==> th.idx != other.idx
  }

  /** A slot has one owner. */
  ghost predicate OwnersOk(s: State) {
    forall t, u :: 0 <= t < |s.threads| && 0 <= u < |s.threads| && t != u ==> Apart(s.threads[t], s.threads[u])
  }

  ghost predicate SlotsOk(s: State) {
    && (forall i :: 0 <= i < |s.slots| ==> s.slots[i].ts.At? ==> s.slots[i].used == Busy && s.slots[i].ts.e <= s.clock)
    && (forall i, j :: 0 <= i < j < |s.slots| && s.slots[j].used != Null ==> s.slots[i].used != Null)
  }

  /** `min` is below every epoch in the first n slots, and below every one that is about to be stored there. */
  ghost predicate Below(s: State, min: nat, n: nat) {
    && min <= s.clock
    && (forall j :: 0 <= j < n && j < |s.slots| && s.slots[j].ts.At? ==> min <= s.slots[j].ts.e)
    && (forall t :: 0 <= t < |s.threads| && s.threads[t].pc.WriteEpoch? && s.threads[t].idx < n ==>
        min <= s.threads[t].pc.e)
  }

  /** How far a scan has come, and the bound it has. */
  ghost predicate ScanOk(s: State, t: nat)
    requires t < |s.threads|
  {
    match s.threads[t].pc
    case ScanUsed(i, min) => Below(s, min, i)
    case ScanTs(i, min) => Below(s, min, i)
    case Reclaim(min) => Below(s, min, |s.slots|)
    case _ => true
  }

  ghost predicate ScansOk(s: State) {
    forall t :: 0 <= t < |s.threads| ==> ScanOk(s, t)
  }

  /** Of the transactions seen at the free, those that still run started no later than epoch e. */
  ghost predicate BlockOk(s: State, b: Block, e: nat) {
    forall x :: x in b.running ==>
      && x.thread < |s.threads| && x.round <= s.threads[x.thread].round
      && (s.threads[x.thread].inTx && s.threads[x.thread].round == x.round ==> s.threads[x.thread].start <= e)
  }

  ghost predicate RegionOk(s: State, r: Region) {
    r.ts <= s.clock && forall k :: 0 <= k < |r.blocks| ==> BlockOk(s, r.blocks[k], r.ts)
  }

  ghost predicate RegionsOk(s: State, rs: seq<Region>) {
    && (forall k :: 0 <= k < |rs| ==> RegionOk(s, rs[k]))
    && (forall j, k :: 0 <= j < k < |rs| ==> rs[j].ts < rs[k].ts)
  }

  ghost predicate AllRegionsOk(s: State) {
    && (forall i :: 0 <= i < |s.slots| ==> RegionsOk(s, s.slots[i].regions))
    && (forall t :: 0 <= t < |s.threads| && s.threads[t].pc.FreeAdd? ==> FreeOk(s, t))
  }

  /** A free is never older than what the slot already holds. */
  ghost predicate FreeOk(s: State, t: nat)
    requires t < |s.threads| && s.threads[t].pc.FreeAdd?
  {
    var FreeAdd(b, e) := s.threads[t].pc;
    && BlockOk(s, b, e) && e <= s.clock
    && s.threads[t].idx < |s.slots|
    && (forall k :: 0 <= k < |s.slots[s.threads[t].idx].regions| ==> s.slots[s.threads[t].idx].regions[k].ts <= e)
  }

  ghost predicate Inv(s: State) {
    ThreadsOk(s) && OwnersOk(s) && SlotsOk(s) && ScansOk(s) && AllRegionsOk(s)
  }

  lemma InitialInv(s: State)
    requires Initial(s)
    ensures Inv(s)
  {
  }

  lemma ThreadsKept(s: State, a: Action)
    requires ThreadsOk(s) && OwnersOk(s) && SlotsOk(s) && Enabled(s, a)
    ensures ThreadsOk(Next(s, a))
  {
    hide Running, AddBlock;
    forall t | 0 <= t < |s.threads|
      ensures ThreadOk(Next(s, a), t)
    {
      assert ThreadOk(s, t);
      if a.Tick? || a.t != t {
        OtherKept(s, a, t);
      } else {
        OwnKept(s, a);
      }
    }
    hide Next, ThreadOk, OwnersOk, SlotsOk;
    SameThreads(s, a);
  }

  lemma SameThreads(s: State, a: Action)
    requires Enabled(s, a)
    ensures |Next(s, a).threads| == |s.threads| && |Next(s, a).slots| == |s.slots| && s.clock <= Next(s, a).clock
    ensures forall t :: 0 <= t < |s.threads| && (a.Tick? || t != a.t) ==> Next(s, a).threads[t] == s.threads[t]
  {
    hide Running, AddBlock;
  }

  /** The slots of other threads stay theirs, and no slot becomes unused again. */
  ghost predicate SlotsLeftAlone(s: State, r: State, i: nat) {
    && |r.slots| == |s.slots|
    && (forall j :: 0 <= j < |s.slots| && s.slots[j].used != Null ==> r.slots[j].used != Null)
    && (forall j :: 0 <= j < |s.slots| && j != i ==> r.slots[j] == s.slots[j])
  }

  /** The slot that a step may change: the thread's own, or the free one that it claims. */
  function Target(s: State, a: Action): nat {
    if !a.Step? || a.t >= |s.threads| then |s.slots|
    else
      var th := s.threads[a.t];
      if Registered(th.pc) then th.idx
      else if th.pc.Claim? && th.pc.i < |s.slots| && s.slots[th.pc.i].used == th.pc.used then th.pc.i
      else |s.slots|
  }

  lemma TargetOnly(s: State, a: Action)
    requires Enabled(s, a)
    ensures SlotsLeftAlone(s, Next(s, a), Target(s, a))
  {
    hide Running, AddBlock;
  }

  lemma NotMine(s: State, a: Action, t: nat)
    requires ThreadsOk(s) && OwnersOk(s) && Enabled(s, a) && t < |s.threads| && Registered(s.threads[t].pc)
             && (a.Tick? || a.t != t)
    ensures s.threads[t].idx != Target(s, a)
  {
    assert ThreadOk(s, t);
    if a.Step? {
      assert ThreadOk(s, a.t);
      assert Apart(s.threads[t], s.threads[a.t]);
    }
  }

  lemma OtherKept(s: State, a: Action, t: nat)
    requires ThreadsOk(s) && OwnersOk(s) && Enabled(s, a) && t < |s.threads| && (a.Tick? || a.t != t)
    ensures t < |Next(s, a).threads| && ThreadOk(Next(s, a), t)
  {
    assert ThreadOk(s, t);
    SameThreads(s, a);
    TargetOnly(s, a);
    hide Next, ThreadsOk, OwnersOk, Target;
    if Registered(s.threads[t].pc) {
      NotMine(s, a, t);
    }
  }

  lemma OwnKept(s: State, a: Action)
    requires ThreadsOk(s) && SlotsOk(s) && Enabled(s, a) && !a.Tick?
    ensures a.t < |Next(s, a).threads| && ThreadOk(Next(s, a), a.t)
  {
    assert ThreadOk(s, a.t);
    hide ThreadsOk, StepInit, StepFree, StepScan, StepExit;
    if a.Step? {
      match s.threads[a.t].pc {
        case FreeRead(_) => OwnKeptFree(s, a.t);
        case FreeAdd(_, _) => OwnKeptFree(s, a.t);
        case CleanRead => OwnKeptFree(s, a.t);
        case Reclaim(_) => OwnKeptFree(s, a.t);
        case ScanUsed(_, _) => OwnKeptScan(s, a.t);
        case ScanTs(_, _) => OwnKeptScan(s, a.t);
        case Leave => OwnKeptExit(s, a.t);
        case Release => OwnKeptExit(s, a.t);
        case Uncount => OwnKeptExit(s, a.t);
        case Find(_) => OwnKeptInit(s, a.t);
        case Claim(_, _) => OwnKeptInit(s, a.t);
        case ReadEpoch => OwnKeptInit(s, a.t);
        case WriteEpoch(_) => OwnKeptInit(s, a.t);
        case SetEpoch => OwnKeptInit(s, a.t);
        case _ =>
      }
    }
  }

  lemma OwnKeptInit(s: State, t: nat)
    requires SlotsOk(s) && t < |s.threads| && InRange(s, s.threads[t]) && ThreadOk(s, t)
    requires var pc := s.threads[t].pc; pc.Find? || pc.Claim? || pc.ReadEpoch? || pc.WriteEpoch? || pc.SetEpoch?
    ensures t < |StepInit(s, t).threads| && ThreadOk(StepInit(s, t), t)
  {
  }

  lemma OwnKeptFree(s: State, t: nat)
    requires SlotsOk(s) && t < |s.threads| && InRange(s, s.threads[t]) && ThreadOk(s, t)
    requires var pc := s.threads[t].pc; pc.FreeRead? || pc.FreeAdd? || pc.CleanRead? || pc.Reclaim?
    ensures t < |StepFree(s, t).threads| && ThreadOk(StepFree(s, t), t)
  {
    hide Running, AddBlock;
  }

  lemma OwnKeptScan(s: State, t: nat)
    requires SlotsOk(s) && t < |s.threads| && InRange(s, s.threads[t]) && ThreadOk(s, t)
    requires var pc := s.threads[t].pc; pc.ScanUsed? || pc.ScanTs?
    ensures t < |StepScan(s, t).threads| && ThreadOk(StepScan(s, t), t)
  {
  }

  lemma OwnKeptExit(s: State, t: nat)
    requires SlotsOk(s) && t < |s.threads| && InRange(s, s.threads[t]) && ThreadOk(s, t)
    requires var pc := s.threads[t].pc; pc.Leave? || pc.Release? || pc.Uncount?
    ensures t < |StepExit(s, t).threads| && ThreadOk(StepExit(s, t), t)
  {
  }

  lemma OwnersKept(s: State, a: Action)
    requires ThreadsOk(s) && OwnersOk(s) && SlotsOk(s) && Enabled(s, a)
    ensures OwnersOk(Next(s, a))
  {
    SameThreads(s, a);
    var r := Next(s, a);
    forall t, u | 0 <= t < |s.threads| && 0 <= u < |s.threads| && t != u
      ensures Apart(r.threads[t], r.threads[u])
    {
      assert Apart(s.threads[t], s.threads[u]);
      if !a.Tick? && (t == a.t || u == a.t) {
        OwnApart(s, a, if t == a.t then u else t);
      }
    }
  }

  lemma OwnApart(s: State, a: Action, u: nat)
    requires ThreadsOk(s) && OwnersOk(s) && Enabled(s, a) && !a.Tick? && u < |s.threads| && u != a.t
    ensures a.t < |Next(s, a).threads| && Apart(Next(s, a).threads[a.t], s.threads[u])
  {
    assert ThreadOk(s, u) && ThreadOk(s, a.t) && Apart(s.threads[a.t], s.threads[u]);
    hide Running, AddBlock, ThreadsOk, OwnersOk;
  }

  lemma SlotsKept(s: State, a: Action)
    requires ThreadsOk(s) && OwnersOk(s) && SlotsOk(s) && Enabled(s, a)
    ensures SlotsOk(Next(s, a))
  {
    hide Running, AddBlock;
    if a.Step? { assert ThreadOk(s, a.t); }
    hide ThreadsOk, OwnersOk;
  }

  // ---- bounds stay bounds ----

  /** Whatever a thread does, a lower bound stays one: epochs only move up, and a new one is read after the
      slot has been claimed. */
  lemma BelowKept(s: State, a: Action, min: nat, n: nat)
    requires ThreadsOk(s) && SlotsOk(s) && Enabled(s, a) && Below(s, min, n)
    ensures Below(Next(s, a), min, n)
  {
    hide Running, AddBlock;
    if !a.Tick? { assert ThreadOk(s, a.t); }
    hide ThreadsOk, SlotsOk;
  }

  /** Nobody is about to store an epoch in a slot that has one, or that is not taken. */
  lemma NobodyElse(s: State, i: nat)
    requires ThreadsOk(s) && i < |s.slots| && (s.slots[i].ts.At? || s.slots[i].used != Busy)
    ensures forall t :: 0 <= t < |s.threads| && s.threads[t].pc.WriteEpoch? ==> s.threads[t].idx != i
  {
    forall t | 0 <= t < |s.threads| && s.threads[t].pc.WriteEpoch?
      ensures s.threads[t].idx != i
    {
      assert ThreadOk(s, t);
    }
  }

  lemma BelowNext(s: State, min: nat, i: nat)
    requires ThreadsOk(s) && SlotsOk(s) && Below(s, min, i) && i < |s.slots|
             && (s.slots[i].ts.At? || s.slots[i].used != Busy)
    requires s.slots[i].ts.At? ==> min <= s.slots[i].ts.e
    ensures Below(s, min, i + 1)
  {
    NobodyElse(s, i);
    hide ThreadsOk, SlotsOk;
  }

  lemma BelowLess(s: State, min: nat, less: nat, n: nat)
    requires Below(s, min, n) && less <= min
    ensures Below(s, less, n)
  {
  }

  /** Behind an unused slot there are no more threads. */
  lemma BelowAll(s: State, min: nat, i: nat)
    requires ThreadsOk(s) && SlotsOk(s) && Below(s, min, i) && (i >= |s.slots| || s.slots[i].used == Null)
    ensures Below(s, min, |s.slots|)
  {
    forall t | 0 <= t < |s.threads| && s.threads[t].pc.WriteEpoch? && s.threads[t].idx < |s.slots|
      ensures min <= s.threads[t].pc.e
    {
      assert ThreadOk(s, t);
    }
  }

  lemma ScanKept(s: State, a: Action, t: nat)
    requires Inv(s) && Enabled(s, a) && t < |s.threads|
    ensures t < |Next(s, a).threads| && ScanOk(Next(s, a), t)
  {
    SameThreads(s, a);
    assert ScanOk(s, t) && ThreadOk(s, t);
    hide Inv, Below, Running, AddBlock;
    if a.Tick? || a.t != t {
      OtherScanKept(s, a, t);
    } else {
      OwnScanKept(s, a);
    }
  }

  lemma OtherScanKept(s: State, a: Action, t: nat)
    requires Inv(s) && Enabled(s, a) && t < |s.threads| && (a.Tick? || a.t != t) && ScanOk(s, t)
    ensures t < |Next(s, a).threads| && ScanOk(Next(s, a), t)
  {
    SameThreads(s, a);
    var pc := s.threads[t].pc;
    hide Next, Below;
    match pc {
      case ScanUsed(i, min) => BelowKept(s, a, min, i);
      case ScanTs(i, min) => BelowKept(s, a, min, i);
      case Reclaim(min) => BelowKept(s, a, min, |s.slots|);
      case _ =>
    }
  }

  lemma OwnScanKept(s: State, a: Action)
    requires Inv(s) && Enabled(s, a) && !a.Tick? && ScanOk(s, a.t) && ThreadOk(s, a.t)
    ensures a.t < |Next(s, a).threads| && ScanOk(Next(s, a), a.t)
  {
    var t := a.t;
    var r := Next(s, a);
    SameThreads(s, a);
    hide ScansOk, OwnersOk, AllRegionsOk, Running, AddBlock, Below;
    match s.threads[t].pc {
      case CleanRead => BelowNone(s);
        BelowKept(s, a, s.clock, 0);
      case ScanUsed(i, min) =>
        if i >= |s.slots| || s.slots[i].used == Null {
          BelowAll(s, min, i);
          BelowKept(s, a, min, |s.slots|);
        } else if s.slots[i].used == Busy {
          BelowKept(s, a, min, i);
        } else {
          assert s.slots[i].ts.Unset?;
          BelowNext(s, min, i);
          BelowKept(s, a, min, i + 1);
        }
      case ScanTs(i, min) =>
        match s.slots[i].ts {
          case Unset => BelowKept(s, a, min, i);
          case At(e) =>
            var less := if e < min then e else min;
            BelowLess(s, min, less, i);
            BelowNext(s, less, i);
            BelowKept(s, a, less, i + 1);
        }
      case Reclaim(min) => BelowKept(s, a, min, |s.slots|);
      case _ =>
    }
  }

  lemma BelowNone(s: State)
    ensures Below(s, s.clock, 0)
  {
  }

  // ---- regions ----

  lemma BlockKept(s: State, a: Action, b: Block, e: nat)
    requires Enabled(s, a) && BlockOk(s, b, e)
    ensures BlockOk(Next(s, a), b, e)
  {
    hide Running, AddBlock;
  }

  lemma RegionsKept(s: State, a: Action, rs: seq<Region>)
    requires Enabled(s, a) && RegionsOk(s, rs)
    ensures RegionsOk(Next(s, a), rs)
  {
    SameThreads(s, a);
    hide Next, BlockOk;
    forall k | 0 <= k < |rs|
      ensures RegionOk(Next(s, a), rs[k])
    {
      assert RegionOk(s, rs[k]);
      forall m | 0 <= m < |rs[k].blocks|
        ensures BlockOk(Next(s, a), rs[k].blocks[m], rs[k].ts)
      {
        BlockKept(s, a, rs[k].blocks[m], rs[k].ts);
      }
    }
  }

  lemma AddBlockOk(s: State, rs: seq<Region>, b: Block, e: nat)
    requires RegionsOk(s, rs) && BlockOk(s, b, e) && e <= s.clock && forall k :: 0 <= k < |rs| ==> rs[k].ts <= e
    ensures RegionsOk(s, AddBlock(rs, b, e))
  {
    hide BlockOk;
    var rs' := AddBlock(rs, b, e);
    forall k | 0 <= k < |rs'|
      ensures RegionOk(s, rs'[k])
    {
      if k < |rs| { assert RegionOk(s, rs[k]); }
      if rs != [] { assert RegionOk(s, Last(rs)); }
    }
  }

  /** At the free, epoch e is no older than any transaction that runs. */
  lemma RunningOk(s: State, addr: nat)
    requires ThreadsOk(s)
    ensures BlockOk(s, Block(addr, Running(s)), s.clock)
  {
    forall x | x in Running(s)
      ensures x.thread < |s.threads| && x.round <= s.threads[x.thread].round
      ensures s.threads[x.thread].inTx && s.threads[x.thread].round == x.round ==> s.threads[x.thread].start <= s.clock
    {
      assert ThreadOk(s, x.thread);
    }
  }

  lemma SlotRegions(s: State, a: Action, i: nat)
    requires Inv(s) && Enabled(s, a) && i < |s.slots|
    ensures i < |Next(s, a).slots| && RegionsOk(s, Next(s, a).slots[i].regions)
  {
    assert RegionsOk(s, s.slots[i].regions);
    TargetOnly(s, a);
    if a.Step? && s.threads[a.t].pc.FreeAdd? {
      assert FreeOk(s, a.t);
      AddBlockOk(s, s.slots[s.threads[a.t].idx].regions, s.threads[a.t].pc.b, s.threads[a.t].pc.e);
    }
    hide Inv, Running, AddBlock, RegionOk, BlockOk;
  }

  lemma FreeKept(s: State, a: Action, t: nat)
    requires Inv(s) && Enabled(s, a) && t < |s.threads|
    ensures t < |Next(s, a).threads| && (Next(s, a).threads[t].pc.FreeAdd? ==> FreeOk(Next(s, a), t))
  {
    SameThreads(s, a);
    var r := Next(s, a);
    if r.threads[t].pc.FreeAdd? {
      assert ThreadOk(s, t);
      if a.Tick? || a.t != t {
        assert FreeOk(s, t);
        NotMine(s, a, t);
        TargetOnly(s, a);
        BlockKept(s, a, s.threads[t].pc.b, s.threads[t].pc.e);
        hide Next, Inv, BlockOk, Target;
      } else {
        OwnFreeKept(s, a);
      }
    }
  }

  lemma OwnFreeKept(s: State, a: Action)
    requires Inv(s) && Enabled(s, a) && !a.Tick? && a.t < |Next(s, a).threads| && Next(s, a).threads[a.t].pc.FreeAdd?
    ensures FreeOk(Next(s, a), a.t)
  {
    var t := a.t;
    assert ThreadOk(s, t);
    assert a.Step? && s.threads[t].pc.FreeRead? by { hide Inv, Running, AddBlock; }
    RunningOk(s, s.threads[t].pc.addr);
    BlockKept(s, a, Block(s.threads[t].pc.addr, Running(s)), s.clock);
    var rs := s.slots[s.threads[t].idx].regions;
    assert RegionsOk(s, rs);
    hide Inv, BlockOk, Running;
    forall k | 0 <= k < |rs|
      ensures rs[k].ts <= s.clock
    {
      assert RegionOk(s, rs[k]);
    }
  }

  lemma NextInv(s: State, a: Action)
    requires Inv(s) && Enabled(s, a)
    ensures Inv(Next(s, a))
  {
    ThreadsKept(s, a);
    OwnersKept(s, a);
    SlotsKept(s, a);
    SameThreads(s, a);
    var r := Next(s, a);
    forall t | 0 <= t < |r.threads|
      ensures ScanOk(r, t)
      ensures r.threads[t].pc.FreeAdd? ==> FreeOk(r, t)
    {
      ScanKept(s, a, t);
      FreeKept(s, a, t);
    }
    forall i | 0 <= i < |r.slots|
      ensures RegionsOk(r, r.slots[i].regions)
    {
      SlotRegions(s, a, i);
      RegionsKept(s, a, r.slots[i].regions);
    }
    hide Next, ThreadsOk, OwnersOk, SlotsOk, ScanOk, FreeOk, RegionsOk;
  }

  // ---- every run ----

  function Exec(s: State, run: seq<Action>): State
    decreases |run|
  {
    if run == [] then s else
      var before := Exec(s, run[..|run| - 1]);
      if Enabled(before, run[|run| - 1]) then Next(before, run[|run| - 1]) else before
  }

  lemma {:induction false} ExecInv(s: State, run: seq<Action>)
    requires Inv(s)
    ensures Inv(Exec(s, run))
    decreases |run|
  {
    hide Inv, Enabled, Next;
    if run != [] {
      ExecInv(s, run[..|run| - 1]);
      var before := Exec(s, run[..|run| - 1]);
      if Enabled(before, run[|run| - 1]) {
        NextInv(before, run[|run| - 1]);
      }
    }
  }

  ghost predicate Reachable(s: State) {
    exists s0: State, run: seq<Action> :: Initial(s0) && s == Exec(s0, run)
  }

  lemma ReachableInv(s: State)
    requires Reachable(s)
    ensures Inv(s)
  {
    hide Inv, Initial;
    var s0: State, run: seq<Action> :| Initial(s0) && s == Exec(s0, run);
    InitialInv(s0);
    ExecInv(s0, run);
  }

  /** The slots in use, now or before, form a prefix of the array; no two threads share one. */
  lemma SlotsFormPrefix(s: State, i: nat, j: nat)
    requires Reachable(s) && i < j < |s.slots| && s.slots[j].used != Null
    ensures s.slots[i].used != Null
  {
    ReachableInv(s);
    hide ThreadsOk, OwnersOk, ScansOk, AllRegionsOk;
  }

  lemma {:induction false} BelowForever(s: State, run: seq<Action>, min: nat)
    requires Inv(s) && Below(s, min, |s.slots|)
    ensures |Exec(s, run).slots| == |s.slots| && Below(Exec(s, run), min, |s.slots|)
    decreases |run|
  {
    hide Below, Next, Enabled, ScansOk, AllRegionsOk, ThreadsOk, OwnersOk, SlotsOk;
    if run != [] {
      var before := Exec(s, run[..|run| - 1]);
      var a := run[|run| - 1];
      BelowForever(s, run[..|run| - 1], min);
      ExecInv(s, run[..|run| - 1]);
      if Enabled(before, a) {
        BelowKept(before, a, min, |s.slots|);
        SameThreads(before, a);
      }
    }
  }

  /** The scan is not atomic, yet its result is below the epoch of every thread from then on, whoever comes,
      goes or advances in the meantime. */
  lemma BoundHoldsForever(s: State, t: nat, run: seq<Action>, j: nat)
    requires Reachable(s) && t < |s.threads| && s.threads[t].pc.Reclaim? && j < |s.slots|
    ensures var r := Exec(s, run);
            |r.slots| == |s.slots| && (r.slots[j].ts.At? ==> s.threads[t].pc.min <= r.slots[j].ts.e)
    ensures var r := Exec(s, run);
            forall u :: 0 <= u < |r.threads| && r.threads[u].inTx ==> s.threads[t].pc.min <= r.threads[u].start
  {
    ReachableInv(s);
    assert ScanOk(s, t);
    var min := s.threads[t].pc.min;
    BelowForever(s, run, min);
    ExecInv(s, run);
    var r := Exec(s, run);
    forall u | 0 <= u < |r.threads| && r.threads[u].inTx
      ensures min <= r.threads[u].start
    {
      assert ThreadOk(r, u);
    }
  }

  /** When a region is reclaimed, no transaction that was running at the free of one of its blocks is still
      running. */
  lemma ReclaimIsSafe(s: State, t: nat, b: Block, x: Tx)
    requires Reachable(s) && t < |s.threads| && s.threads[t].pc.Reclaim? && s.threads[t].idx < |s.slots|
    requires var rs := s.slots[s.threads[t].idx].regions;
             rs != [] && s.threads[t].pc.min > rs[0].ts && b in rs[0].blocks
    requires x in b.running
    ensures x !in Running(s)
  {
    ReachableInv(s);
    var i := s.threads[t].idx;
    var rs := s.slots[i].regions;
    assert RegionsOk(s, rs) && RegionOk(s, rs[0]) && BlockOk(s, b, rs[0].ts);
    assert ScanOk(s, t) && ThreadOk(s, x.thread);
    hide ThreadsOk, OwnersOk, AllRegionsOk, ScansOk, RegionsOk;
  }

  /** The regions of a slot are in the order of their epochs, and none is from the future. */
  lemma RegionsInOrder(s: State, i: nat, j: nat, k: nat)
    requires Reachable(s) && i < |s.slots| && j < k < |s.slots[i].regions|
    ensures s.slots[i].regions[j].ts < s.slots[i].regions[k].ts <= s.clock
  {
    ReachableInv(s);
    assert RegionsOk(s, s.slots[i].regions) && RegionOk(s, s.slots[i].regions[k]);
  }

  /** `gc_free` asserts that the last region is of the current epoch when it is not older. */
  lemma FreeAsserts(s: State, t: nat)
    requires Reachable(s) && t < |s.threads| && s.threads[t].pc.FreeAdd? && s.threads[t].idx < |s.slots|
    ensures var rs := s.slots[s.threads[t].idx].regions;
            rs != [] && !(Last(rs).ts < s.threads[t].pc.e) ==> Last(rs).ts == s.threads[t].pc.e
  {
    ReachableInv(s);
    assert FreeOk(s, t);
  }

  /** `gc_init_thread` asserts that a slot it failed to claim is in use. */
  lemma ClaimAsserts(s: State, t: nat)
    requires Reachable(s) && t < |s.threads| && s.threads[t].pc.Claim? && s.threads[t].pc.i < |s.slots|
    ensures s.slots[s.threads[t].pc.i].used != s.threads[t].pc.used ==> s.slots[s.threads[t].pc.i].used != Null
  {
    ReachableInv(s);
    assert ThreadOk(s, t);
  }

  // ---- the program ----

  predicate Sorted(rs: seq<Region>) {
    forall j, k :: 0 <= j < k < |rs| ==> rs[j].ts < rs[k].ts
  }

  /** Of an ordered list, exactly the regions older than the bound are freed. */
  lemma {:induction false} DropsOlder(rs: seq<Region>, min: nat)
    requires Sorted(rs)
    ensures |Drop(rs, min)| <= |rs| && Drop(rs, min) == rs[|rs| - |Drop(rs, min)|..]
    ensures forall k :: 0 <= k < |rs| ==> (rs[k].ts < min <==> k < |rs| - |Drop(rs, min)|)
    decreases |rs|
  {
    if rs != [] && min > rs[0].ts {
      DropsOlder(rs[1..], min);
      forall k | 0 < k < |rs|
        ensures rs[k].ts < min <==> k < |rs| - |Drop(rs, min)|
      {
        assert rs[k] == rs[1..][k - 1];
      }
    }
  }

  /** `gc_threads`: the slots, as the loops of the program see them when nobody interferes. */
  class Slots {
    const used: array<Used>
    const ts: array<Epoch>
    const regions: array<seq<Region>>

    ghost predicate Valid()
      reads this
    {
      used.Length == ts.Length == regions.Length
    }

    constructor (n: nat)
      ensures Valid() && used.Length == n && fresh(used) && fresh(ts) && fresh(regions)
      ensures forall i :: 0 <= i < n ==> used[i] == Null && ts[i] == Unset && regions[i] == []
    {
      used := new Used[n](_ => Null);
      ts := new Epoch[n](_ => Unset);
      regions := new seq<Region>[n](_ => []);
    }

    /** `gc_compute_min`: the least of `now` and the epochs of the busy slots. */
    method ComputeMin(now: nat) returns (min: nat)
      requires Valid() && forall i :: 0 <= i < used.Length && used[i] == Busy ==> ts[i].At?
      requires forall i, j :: 0 <= i < j < used.Length && used[j] != Null ==> used[i] != Null
      ensures min <= now && forall i :: 0 <= i < used.Length && used[i] == Busy ==> min <= ts[i].e
      ensures min == now || exists i :: 0 <= i < used.Length && used[i] == Busy && min == ts[i].e
    {
      min := now;
      var i := 0;
      while i < used.Length && used[i] != Null
        invariant i <= used.Length && min <= now
        invariant forall j :: 0 <= j < i && used[j] == Busy ==> min <= ts[j].e
        invariant min == now || exists j :: 0 <= j < i && used[j] == Busy && min == ts[j].e
      {
        if used[i] == Busy && ts[i].e < min {
          min := ts[i].e;
        }
        i := i + 1;
      }
    }

    /** `gc_cleanup_thread`. */
    method CleanupThread(idx: nat, min: nat)
      requires Valid() && idx < regions.Length
      modifies regions
      ensures regions[..] == old(regions[..])[idx := Drop(old(regions[idx]), min)]
    {
      while regions[idx] != [] && min > regions[idx][0].ts
        invariant regions[..] == old(regions[..])[idx := regions[idx]]
        invariant Drop(regions[idx], min) == Drop(old(regions[idx]), min)
        decreases |regions[idx]|
      {
        regions[idx] := regions[idx][1..];
      }
    }

    /** `gc_free`, up to the periodic clean-up. */
    method Free(idx: nat, b: Block, epoch: nat)
      requires Valid() && idx < regions.Length
      modifies regions
      ensures regions[..] == old(regions[..])[idx := AddBlock(old(regions[idx]), b, epoch)]
    {
      var rs := regions[idx];
      if rs == [] || rs[|rs| - 1].ts < epoch {
        regions[idx] := rs + [Region(epoch, [b])];
      } else {
        var last := rs[|rs| - 1];
        regions[idx] := rs[|rs| - 1 := last.(blocks := [b] + last.blocks)];
      }
    }
  }
  /** The collector with all its threads: every step of the machine, in place. */
  class Machine {
    var clock: nat
    var active: nat
    const slots: array<Slot>
    const threads: array<Thread>

    ghost function Abs(): State
      reads this, slots, threads
    {
      State(clock, active, slots[..], threads[..])
    }

    ghost predicate Valid()
      reads this
    {
      (slots as object) != (threads as object)
    }

    constructor (n: nat, m: nat)
      ensures Valid() && Initial(Abs()) && slots.Length == n && threads.Length == m && fresh(slots) && fresh(threads)
    {
      clock, active := 0, 0;
      slots := new Slot[n](_ => Slot(Null, Unset, []));
      threads := new Thread[m](_ => Thread(Out, 0, false, 0, 0));
    }

    method Act(a: Action)
      requires Valid() && Enabled(Abs(), a)
      modifies this`clock, this`active, slots, threads
      ensures Abs() == Next(old(Abs()), a)
    {
      hide StepInit, StepFree, StepScan, StepExit;
      match a {
        case Tick => clock := clock + 1;
        case Enter(t) => active := active + 1; threads[t] := threads[t].(pc := Find(0));
        case Begin(t) =>
          threads[t] := threads[t].(pc := SetEpoch, inTx := true, start := clock, round := threads[t].round + 1);
        case End(t) => threads[t] := threads[t].(inTx := false);
        case Free(t, addr) => threads[t] := threads[t].(pc := FreeRead(addr));
        case Exit(t) => threads[t] := threads[t].(pc := Leave);
        case Step(t) =>
          var pc := threads[t].pc;
          if pc.Find? || pc.Claim? || pc.ReadEpoch? || pc.WriteEpoch? || pc.SetEpoch? {
            Init(t);
          } else if pc.ScanUsed? || pc.ScanTs? {
            Scan(t);
          } else if pc.Leave? || pc.Release? || pc.Uncount? {
            GoAway(t);
          } else {
            Collect(t);
          }
      }
    }

    /** `gc_init_thread` and `gc_set_epoch`. */
    method Init(t: nat)
      requires Valid() && t < threads.Length && InRange(Abs(), threads[t])
      modifies slots, threads
      ensures Abs() == StepInit(old(Abs()), t)
    {
      var th := threads[t];
      match th.pc {
        case Find(i) =>
          var used := slots[i].used;
          var after := if i + 1 >= slots.Length then 0 else i + 1;
          threads[t] := th.(pc := if used != Busy then Claim(i, used) else Find(after));
        case Claim(i, used) =>
          if slots[i].used == used {
            slots[i] := slots[i].(used := Busy);
            threads[t] := th.(pc := ReadEpoch, idx := i);
          } else {
            threads[t] := th.(pc := Find(if i + 1 >= slots.Length then 0 else i + 1));
          }
        case ReadEpoch => threads[t] := th.(pc := WriteEpoch(clock));
        case WriteEpoch(e) => slots[th.idx] := slots[th.idx].(ts := At(e)); threads[t] := th.(pc := Idle);
        case SetEpoch => slots[th.idx] := slots[th.idx].(ts := At(th.start)); threads[t] := th.(pc := Idle);
        case _ =>
      }
    }

    /** One access of `gc_compute_min`. */
    method Scan(t: nat)
      requires Valid() && t < threads.Length && InRange(Abs(), threads[t])
      modifies threads
      ensures Abs() == StepScan(old(Abs()), t)
    {
      var th := threads[t];
      match th.pc {
        case ScanUsed(i, min) =>
          if i >= slots.Length || slots[i].used == Null {
            threads[t] := th.(pc := Reclaim(min));
          } else {
            threads[t] := th.(pc := if slots[i].used == Busy then ScanTs(i, min) else ScanUsed(i + 1, min));
          }
        case ScanTs(i, min) =>
          match slots[i].ts {
            case Unset => threads[t] := th.(pc := ScanUsed(i, min));
            case At(e) => threads[t] := th.(pc := ScanUsed(i + 1, if e < min then e else min));
          }
        case _ =>
      }
    }

    /** `gc_free` and `gc_cleanup`. */
    method Collect(t: nat)
      requires Valid() && t < threads.Length && InRange(Abs(), threads[t])
      modifies slots, threads
      ensures Abs() == StepFree(old(Abs()), t)
    {
      var th := threads[t];
      match th.pc {
        case FreeRead(addr) =>
          var running := set u | 0 <= u < threads.Length && threads[u].inTx :: Tx(u, threads[u].round);
          assert running == Running(Abs());
          threads[t] := th.(pc := FreeAdd(Block(addr, running), clock));
        case FreeAdd(b, e) =>
          slots[th.idx] := slots[th.idx].(regions := AddBlock(slots[th.idx].regions, b, e));
          threads[t] := th.(pc := CleanRead);
        case CleanRead => threads[t] := th.(pc := if slots[th.idx].regions == [] then Idle else ScanUsed(0, clock));
        case Reclaim(min) =>
          var rs := slots[th.idx].regions;
          if rs != [] && min > rs[0].ts {
            slots[th.idx] := slots[th.idx].(regions := rs[1..]);
          } else {
            threads[t] := th.(pc := Idle);
          }
        case _ =>
      }
    }

    /** `gc_exit_thread`. */
    method GoAway(t: nat)
      requires Valid() && t < threads.Length && InRange(Abs(), threads[t])
      modifies this`active, slots, threads
      ensures Abs() == StepExit(old(Abs()), t)
    {
      var th := threads[t];
      match th.pc {
        case Leave => slots[th.idx] := slots[th.idx].(ts := Unset); threads[t] := th.(pc := Release);
        case Release =>
          slots[th.idx] := slots[th.idx].(used := if slots[th.idx].regions == [] then FreeEmpty else FreeFull);
          threads[t] := th.(pc := Uncount);
        case Uncount => active := if active > 0 then active - 1 else 0; threads[t] := th.(pc := Out);
        case _ =>
      }
    }
  }
}
