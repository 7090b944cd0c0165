/** The inductive invariant of the commit-time locking design. */
module CtlInvariant {
  import opened CommitHistory
  import opened CtlMachine

  /** The commit timestamp a thread has taken, 0 when it has none. */
  function Ts(pc: Pc): nat {
    match pc
    case Validate(t, _) => t
    case Install(t, _) => t
    case Mix(t, _, _) => t
    case Release(t, _) => t
    case _ => 0
  }

  predicate Writing(pc: Pc) {
    pc.Install? || pc.Mix? || pc.Release?
  }

  /** How many write-set entries have been stored to memory. */
  function Stored(pc: Pc): nat {
    match pc
    case Install(_, k) => k
    case Mix(_, k, _) => k
    case Release(_, k) => k + 1
    case _ => 0
  }

  /** The locks of all entries from this index on are held. */
  function From(tx: Tx): nat {
    match tx.pc
    case AcqLoad(k) => k
    case AcqCas(k, _) => k
    case TakeTime => 0
    case Validate(_, _) => 0
    case Install(_, k) => k
    case Mix(_, k, _) => k
    case Release(_, k) => k
    case _ => |tx.writes|
  }

  /** Entry k is the one its lock points to. */
  predicate Holds(tx: Tx, k: nat) {
    && k < |tx.writes| && k < |tx.noDrop| && !tx.noDrop[k]
    && match tx.pc
       case AcqLoad(_) => true
       case AcqCas(_, _) => true
       case TakeTime => true
       case Validate(_, _) => true
       case Install(_, j) => j <= k
       case Mix(_, j, _) => j <= k
       case Release(_, j) => j <= k
       case Undo(j) => k < j
       case _ => false
  }

  /** Entries among the first n that hold a lock. */
  function Count(noDrop: seq<bool>, n: nat): nat
    requires n <= |noDrop|
  {
    if n == 0 then 0 else Count(noDrop, n - 1) + if noDrop[n - 1] then 0 else 1
  }

  ghost predicate Marks(tx: Tx)
    requires |tx.noDrop| == |tx.writes|
  {
    match tx.pc
    case AcqLoad(k) => (forall j :: 0 <= j < k && j < |tx.noDrop| ==> tx.noDrop[j])
        && tx.acquired == Count(tx.noDrop, |tx.noDrop|)
    case AcqCas(k, _) => (forall j :: 0 <= j < k && j < |tx.noDrop| ==> tx.noDrop[j])
        && tx.acquired == Count(tx.noDrop, |tx.noDrop|)
    case TakeTime => tx.acquired == Count(tx.noDrop, |tx.noDrop|)
    case Validate(_, _) => tx.acquired == Count(tx.noDrop, |tx.noDrop|)
    case Undo(k) => k <= |tx.noDrop| && 0 < tx.acquired == Count(tx.noDrop, k)
    case Install(_, _) => true
    case Mix(_, _, _) => true
    case Release(_, _) => true
    case Idle => true
    case _ => (forall j :: 0 <= j < |tx.noDrop| ==> tx.noDrop[j]) && tx.acquired == 0
  }

  /** An entry that holds its lock remembers the version the lock had. */
  ghost predicate EntryHeld(sh: Shared, i: nat, tx: Tx, k: nat)
    requires SharedShape(sh) && TxShape(sh, tx) && k < |tx.writes|
  {
    var l := Lk(sh, tx.writes[k].addr);
    && sh.locks[l] == Held(i, k)
    && sh.vers[l] == tx.version[k] <= sh.clock
    && (Ts(tx.pc) > 0 ==> tx.version[k] < Ts(tx.pc))
  }

  ghost predicate EntryCovered(sh: Shared, i: nat, tx: Tx, k: nat)
    requires SharedShape(sh) && TxShape(sh, tx) && k < |tx.writes|
  {
    var l := sh.locks[Lk(sh, tx.writes[k].addr)];
    l.Held? && l.owner == i && k <= l.entry < |tx.writes|
  }

  ghost predicate LocksOk(sh: Shared, i: nat, tx: Tx)
    requires SharedShape(sh) && TxShape(sh, tx)
  {
    && (forall k :: 0 <= k < |tx.writes| && Holds(tx, k) ==> EntryHeld(sh, i, tx, k))
    && (forall k :: From(tx) <= k < |tx.writes| ==> EntryCovered(sh, i, tx, k))
    && Marks(tx)
  }

  /** The log is consistent in itself and the write set sums it up. */
  ghost predicate LogOk(log: seq<Op>, writes: seq<Update>, n: nat) {
    LogAgrees(log) && SameEffect(log, writes) && Distinct(writes) && InRange(log, n)
  }

  ghost predicate SourcesKnown(sh: Shared, tx: Tx) {
    forall k {:trigger tx.log[k]} :: 0 <= k < |tx.log| && tx.log[k].Read? ==>
      match tx.log[k].source
      case Memory(v, _) => tx.readOnly || REntry(Lk(sh, tx.log[k].addr), v) in tx.rset
      case Buffer => true
      case UnderOwnLock(_) => false
  }

  /** Everything read so far is the memory of timestamp `end`. */
  ghost predicate SnapshotOk(sh: Shared, tx: Tx)
    requires SharedShape(sh)
  {
    && tx.start <= tx.end <= sh.clock
    && ReadsHold(sh.h, tx.log, tx.end)
    && SourcesKnown(sh, tx)
  }

  /** Version v of the lock of `a` was seen when the lock was free. */
  ghost predicate Seen(sh: Shared, a: nat, v: nat)
    requires SharedShape(sh) && a < |sh.mem|
  {
    && v <= sh.vers[Lk(sh, a)] <= sh.clock
    && NoPending(sh.h, Lk(sh, a), v)
  }

  /** Unless something has been committed under the lock since, x is the value of that version. */
  ghost predicate Fresh(sh: Shared, a: nat, v: nat, x: Word)
    requires SharedShape(sh) && a < |sh.mem| && v <= sh.clock
  {
    NoCommit(sh.h, Lk(sh, a), v, sh.clock) ==> x == ValueAt(sh.h, v, a)
  }

  ghost predicate QuietReads(sh: Shared, tx: Tx, n: nat, hi: nat)
    requires SharedShape(sh) && n <= |tx.rset| && hi <= sh.clock
  {
    forall j {:trigger tx.rset[j]} :: 0 <= j < n ==> Quiet(sh.h, tx.rset[j].lock, tx.rset[j].version, hi)
  }

  ghost predicate PcOk(sh: Shared, tx: Tx)
    requires SharedShape(sh) && TxShape(sh, tx)
  {
    match tx.pc
    case RLoadValue(a, v) => Seen(sh, a, v)
    case RReloadLock(a, v, x) => Seen(sh, a, v) && Fresh(sh, a, v, x)
    case RClock(a, v, x) => Seen(sh, a, v) && Fresh(sh, a, v, x) && !tx.readOnly
    case RExtend(a, v, x, now, k) =>
      Seen(sh, a, v) && Fresh(sh, a, v, x) && !tx.readOnly && v <= now <= sh.clock && tx.end <= now
          && QuietReads(sh, tx, k, now)
    case RRecheck(a, v, x) => Seen(sh, a, v) && Fresh(sh, a, v, x) && v <= tx.end
    case Validate(t, k) => !tx.readOnly && QuietReads(sh, tx, k, t - 1)
    case Mix(_, k, x) => x == sh.mem[tx.writes[k].addr]
    case AcqLoad(_) => !tx.readOnly
    case AcqCas(_, _) => !tx.readOnly
    case TakeTime => !tx.readOnly
    case _ => true
  }

  /** A thread's timestamp stands in the history under its name. */
  ghost predicate StampOk(sh: Shared, i: nat, tx: Tx)
    requires SharedShape(sh)
  {
    var t := Ts(tx.pc);
    t > 0 ==>
      && t <= sh.clock && tx.end < t
      && sh.h.commits[t - 1]
         == CommitHistory.Commit(i, if tx.pc.Validate? then Pending else Committed, tx.start, tx.writes, tx.log)
  }

  ghost predicate TxOk(sh: Shared, i: nat, tx: Tx)
    requires SharedShape(sh) && TxShape(sh, tx)
  {
    && LogOk(tx.log, tx.writes, |sh.mem|)
    && SnapshotOk(sh, tx)
    && PcOk(sh, tx)
    && StampOk(sh, i, tx)
    && LocksOk(sh, i, tx)
    && (tx.readOnly ==> tx.writes == [])
  }

  // ---- clauses about all threads ----

  ghost predicate Owned(s: State, l: nat)
    requires l < |s.sh.locks|
  {
    s.sh.locks[l].Held? ==>
      var Held(o, e) := s.sh.locks[l];
      o < |s.txs| && Holds(s.txs[o], e) && Lk(s.sh, s.txs[o].writes[e].addr) == l
  }

  /** A held lock points to the entry that will release it. */
  ghost predicate OwnersOk(s: State) {
    forall l :: 0 <= l < |s.sh.locks| ==> Owned(s, l)
  }

  /** A pending timestamp belongs to a thread that is validating with it. */
  ghost predicate PendingOk(s: State) {
    forall t {:trigger s.sh.h.commits[t]} :: 0 <= t < |s.sh.h.commits| && s.sh.h.commits[t].status.Pending? ==>
      s.sh.h.commits[t].tid < |s.txs| && s.txs[s.sh.h.commits[t].tid].pc.Validate?
      && s.txs[s.sh.h.commits[t].tid].pc.t == t + 1
  }

  /** What is newer than the last free version of a lock belongs to the thread that holds it. */
  ghost predicate Newest(s: State, l: nat, t: nat)
    requires l < |s.sh.locks| && 0 < t <= |s.sh.h.commits|
  {
    && s.sh.locks[l].Held? && s.sh.locks[l].owner < |s.txs|
    && Ts(s.txs[s.sh.locks[l].owner].pc) == t
  }

  ghost predicate VersionsOk(s: State)
    requires SharedShape(s.sh)
  {
    && (forall l :: 0 <= l < |s.sh.locks| ==>
          s.sh.vers[l] <= s.sh.clock && (s.sh.locks[l].Free? ==> s.sh.locks[l].version == s.sh.vers[l]))
    && (forall l, t {:trigger Touches(s.sh.h, t, l)} ::
          (0 <= l < |s.sh.locks| && s.sh.vers[l] < t <= s.sh.clock
           && !s.sh.h.commits[t - 1].status.Aborted? && Touches(s.sh.h, t, l)) ==> Newest(s, l, t))
  }

  /** The word as the installing owner of its lock, if there is one, has left it so far. */
  ghost predicate WordOk(s: State, a: nat)
    requires Shape(s) && a < |s.sh.mem|
  {
    var l := s.sh.locks[Lk(s.sh, a)];
    s.sh.mem[a] ==
      if l.Held? && l.owner < |s.txs| && Writing(s.txs[l.owner].pc) then
        var tx := s.txs[l.owner];
        Apply(tx.writes[..Stored(tx.pc)], ValueAt(s.sh.h, Ts(tx.pc) - 1, a), a)
      else ValueAt(s.sh.h, s.sh.clock, a)
  }

  ghost predicate MemoryOk(s: State)
    requires Shape(s)
  {
    forall a :: 0 <= a < |s.sh.mem| ==> WordOk(s, a)
  }

  ghost predicate CommitOk(sh: Shared, t: nat)
    requires SharedShape(sh) && 0 < t <= sh.clock
  {
    var c := sh.h.commits[t - 1];
    c.status.Committed? ==>
        c.start < t && LogOk(c.log, c.writes, |sh.mem|) && ReadsHold(sh.h, c.log, t - 1) && NoLockReads(c.log)
  }

  ghost predicate NoLockReads(log: seq<Op>) {
    forall k :: 0 <= k < |log| && log[k].Read? ==> !log[k].source.UnderOwnLock?
  }

  ghost predicate FinishedOk(sh: Shared, f: Finished)
    requires SharedShape(sh)
  {
    && f.start <= f.end <= f.at <= sh.clock
    && LogAgrees(f.log) && InRange(f.log, |sh.mem|) && ReadsHold(sh.h, f.log, f.end) && NoLockReads(f.log)
  }

  ghost predicate PastOk(sh: Shared)
    requires SharedShape(sh)
  {
    && (forall t :: 0 < t <= sh.clock ==> CommitOk(sh, t))
    && (forall k :: 0 <= k < |sh.finished| ==> FinishedOk(sh, sh.finished[k]))
  }

  ghost predicate TxsOk(s: State)
    requires Shape(s)
  {
    forall i :: 0 <= i < |s.txs| ==> TxOk(s.sh, i, s.txs[i])
  }

  ghost predicate Inv(s: State) {
    && Shape(s)
    && TxsOk(s)
    && OwnersOk(s)
    && PendingOk(s)
    && VersionsOk(s)
    && MemoryOk(s)
    && PastOk(s.sh)
  }

  predicate Initial(s: State) {
    && Shape(s)
    && s.sh.clock == 0
    && s.sh.mem == s.sh.h.init
    && s.sh.finished == []
    && (forall l :: 0 <= l < |s.sh.locks| ==> s.sh.locks[l] == Free(0) && s.sh.vers[l] == 0)
    && (forall i :: 0 <= i < |s.txs| ==> s.txs[i] == Tx(Idle, false, 0, 0, [], [], [], [], 0, []))
  }

  lemma InitialInv(s: State)
    requires Initial(s)
    ensures Inv(s)
  {
    hide Merge;
  }
}
