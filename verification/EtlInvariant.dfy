/** The inductive invariant of the encounter-time locking designs. */
module EtlInvariant {
  import opened CommitHistory
  import opened EtlMachine

  // ---- where a thread is ----

  /** The commit timestamp a thread has taken, 0 when it has none. */
  function Ts(pc: Pc): nat {
    match pc
    case Validate(t, _) => t
    case Install(t, _) => t
    case Release(t, _) => t
    case _ => 0
  }

  predicate Writing(pc: Pc) {
    pc.Install? || pc.Release?
  }

  predicate Undoing(pc: Pc) {
    pc.Undo? || pc.UndoLock?
  }

  /** The transaction can still commit. */
  predicate Running(pc: Pc) {
    !pc.Idle? && !Writing(pc) && !Undoing(pc)
  }

  /** The locks of all entries from this index on are held. */
  function Pos(tx: Tx): nat {
    match tx.pc
    case Idle => |tx.entries|
    case Install(_, k) => k
    case Release(_, k) => k
    case Undo(k, _) => k
    case UndoLock(k, _) => k
    case _ => 0
  }

  /** How many entries have been written back, or restored. */
  function Done(pc: Pc): nat {
    match pc
    case Install(_, k) => k
    case Release(_, k) => k + 1
    case Undo(k, _) => k
    case UndoLock(k, _) => k + 1
    case _ => 0
  }

  predicate Before(u: Stamp, v: Stamp) {
    u.version < v.version || (u.version == v.version && u.incarnation < v.incarnation)
  }

  predicate NotAfter(u: Stamp, v: Stamp) {
    u == v || Before(u, v)
  }

  // ---- the write set ----

  predicate UnderLock(lockOf: seq<nat>, es: seq<WEntry>, k: nat, l: nat) {
    k < |es| && LockIx(lockOf, es[k].addr) == l
  }

  /** Entry k is followed by the next entry under the same lock. */
  ghost predicate ChainOk(lockOf: seq<nat>, es: seq<WEntry>, k: nat)
    requires k < |es|
  {
    var l := LockIx(lockOf, es[k].addr);
    var n := es[k].next;
    && (n != 0 ==> k < n < |es| && UnderLock(lockOf, es, n, l))
    && (forall j :: k < j < |es| && (n == 0 || j < n) ==> !UnderLock(lockOf, es, j, l))
  }

  ghost predicate ChainsOk(lockOf: seq<nat>, es: seq<WEntry>) {
    && (forall k :: 0 <= k < |es| ==> ChainOk(lockOf, es, k))
    && (forall j, k :: 0 <= j < k < |es| ==> es[j].addr != es[k].addr)
  }

  /** Some entry from p on is under lock l. */
  ghost predicate CoversFrom(lockOf: seq<nat>, es: seq<WEntry>, p: nat, l: nat) {
    exists k :: p <= k < |es| && UnderLock(lockOf, es, k, l)
  }

  /** The lock of entry k is held by thread i, points to the first entry under it, and the entry knows the
      stamp the lock had. */
  ghost predicate EntryHeld(sh: Shared, i: nat, tx: Tx, k: nat)
    requires SharedShape(sh) && TxShape(sh, tx) && k < |tx.entries|
  {
    var l := Lk(sh, tx.entries[k].addr);
    var w := sh.locks[l];
    && w.Held? && w.owner == i && w.entry <= k
    && UnderLock(sh.h.lockOf, tx.entries, w.entry, l)
    && (forall j :: 0 <= j < w.entry ==> !UnderLock(sh.h.lockOf, tx.entries, j, l))
    && tx.entries[k].stamp == sh.vers[l]
    && sh.vers[l].version <= sh.clock
    && NoPending(sh.h, l, sh.vers[l].version)
    && (Ts(tx.pc) > 0 ==> sh.vers[l].version < Ts(tx.pc))
  }

  ghost predicate EntriesHeld(sh: Shared, i: nat, tx: Tx)
    requires SharedShape(sh) && TxShape(sh, tx)
  {
    forall k :: Pos(tx) <= k < |tx.entries| ==> EntryHeld(sh, i, tx, k)
  }

  /** What an entry has stored: the word to write back, or the word to restore. */
  ghost predicate EntryValue(sh: Shared, tx: Tx, k: nat)
    requires k < |tx.entries|
  {
    var e := tx.entries[k];
    e.mask != 0 ==>
      e.value == if sh.design.WriteBack? then Effect(tx.log, Base(sh, e.addr), e.addr) else Base(sh, e.addr)
  }

  ghost predicate EntryValues(sh: Shared, tx: Tx) {
    !Writing(tx.pc) ==> forall k :: Pos(tx) <= k < |tx.entries| ==> EntryValue(sh, tx, k)
  }

  predicate Stored(es: seq<WEntry>, a: nat) {
    exists k :: 0 <= k < |es| && es[k].addr == a && es[k].mask != 0
  }

  /** The transaction has not changed words without a stored entry. */
  ghost predicate Untouched(log: seq<Op>, es: seq<WEntry>) {
    forall a: nat, x: Word :: !Stored(es, a) ==> Effect(log, x, a) == x
  }

  // ---- reads ----

  ghost predicate LogOk(log: seq<Op>, n: nat) {
    LogAgrees(log) && InRange(log, n)
  }

  /** Everything read from unlocked words is the memory of timestamp `end`. */
  ghost predicate SnapshotOk(sh: Shared, tx: Tx)
    requires SharedShape(sh)
  {
    && tx.start <= tx.end <= sh.clock
    && ReadsHold(sh.h, tx.log, tx.end)
  }

  predicate OwnLock(sh: Shared, i: nat, l: nat) {
    l < |sh.locks| && sh.locks[l].Held? && sh.locks[l].owner == i
  }

  /** Whatever was read under an own lock was read on top of the word as it was when the lock was taken. */
  ghost predicate OwnRead(sh: Shared, i: nat, op: Op) {
    op.Read? && op.source.UnderOwnLock? ==> OwnLock(sh, i, Lk(sh, op.addr)) && op.source.base == Base(sh, op.addr)
  }

  ghost predicate OwnReads(sh: Shared, i: nat, log: seq<Op>) {
    forall k :: 0 <= k < |log| ==> OwnRead(sh, i, log[k])
  }

  ghost predicate SourcesKnown(sh: Shared, tx: Tx) {
    forall k {:trigger tx.log[k]} :: 0 <= k < |tx.log| && tx.log[k].Read? && tx.log[k].source.Memory? ==>
      tx.readOnly || REntry(Lk(sh, tx.log[k].addr), tx.log[k].source.version) in tx.rset
  }

  ghost predicate QuietReads(sh: Shared, rset: seq<REntry>, n: nat, hi: nat)
    requires SharedShape(sh) && n <= |rset| && hi <= sh.clock
  {
    forall j {:trigger rset[j]} :: 0 <= j < n ==> Quiet(sh.h, rset[j].lock, rset[j].version, hi)
  }

  /** The read set entries that belong to completed reads. */
  function Completed(sh: Shared, tx: Tx): nat {
    if sh.design.WriteThrough? && (tx.pc.RClock? || tx.pc.RExtend?) && |tx.rset| > 0 then |tx.rset| - 1 else |tx.rset|
  }

  /** What was read under a lock that is now the thread's own had not changed when the lock was taken. */
  ghost predicate ReadBeforeLock(sh: Shared, i: nat, r: REntry) {
    OwnLock(sh, i, r.lock) && r.lock < |sh.vers| && sh.vers[r.lock].version <= |sh.h.commits| ==>
      Quiet(sh.h, r.lock, r.version, sh.vers[r.lock].version)
  }

  ghost predicate ReadsBeforeLocks(sh: Shared, i: nat, rset: seq<REntry>) {
    forall j :: 0 <= j < |rset| ==> ReadBeforeLock(sh, i, rset[j])
  }

  ghost predicate RunOk(sh: Shared, i: nat, tx: Tx)
    requires SharedShape(sh)
  {
    Running(tx.pc) ==>
      && OwnReads(sh, i, tx.log)
      && SourcesKnown(sh, tx)
      && ReadsBeforeLocks(sh, i, tx.rset)
      && tx.end <= sh.clock
      && QuietReads(sh, tx.rset, Completed(sh, tx), tx.end)
  }

  // ---- the access to come ----

  /** Stamp v of the lock of `a` was seen when the lock was free. */
  ghost predicate Seen(sh: Shared, a: nat, v: Stamp)
    requires SharedShape(sh) && a < |sh.mem|
  {
    && NotAfter(v, sh.vers[Lk(sh, a)])
    && v.version <= sh.clock
    && NoPending(sh.h, Lk(sh, a), v.version)
  }

  /** If the lock still says so, x is the committed value. In the write-back design it is even unless
      something has been committed under the lock since. */
  ghost predicate Fresh(sh: Shared, a: nat, v: Stamp, x: Word)
    requires SharedShape(sh) && a < |sh.mem| && v.version <= sh.clock
  {
    && (sh.design.WriteThrough? ==> sh.locks[Lk(sh, a)] == Free(v))
    && NoCommit(sh.h, Lk(sh, a), v.version, sh.clock)
    ==> x == ValueAt(sh.h, v.version, a)
  }

  /** x is the value of version v. */
  ghost predicate Fixed(sh: Shared, a: nat, v: nat, x: Word)
    requires SharedShape(sh) && a < |sh.mem|
  {
    v <= sh.clock && NoPending(sh.h, Lk(sh, a), v) && x == ValueAt(sh.h, v, a)
  }

  /** In the write-through design the read in progress is the last in the read set. */
  ghost predicate Noted(sh: Shared, i: nat, tx: Tx, a: nat, v: nat) {
    sh.design.WriteThrough? ==>
      |tx.rset| > 0 && tx.rset[|tx.rset| - 1] == REntry(Lk(sh, a), v) && !OwnLock(sh, i, Lk(sh, a))
  }

  /** The timestamp of a rollback is newer than the locks it still has to release. */
  ghost predicate LaterThanLocks(tx: Tx, t: nat) {
    t != 0 ==> forall j {:trigger tx.entries[j]} :: Pos(tx) <= j < |tx.entries| ==> tx.entries[j].stamp.version < t
  }

  ghost predicate PcOk(sh: Shared, i: nat, tx: Tx)
    requires SharedShape(sh) && TxShape(sh, tx)
  {
    match tx.pc
    case RLoadValue(a, v) => Seen(sh, a, v)
    case RReloadLock(a, v, x) => Seen(sh, a, v) && Fresh(sh, a, v, x)
    case RClock(a, v, x) => Fixed(sh, a, v.version, x) && !tx.readOnly && Noted(sh, i, tx, a, v.version)
    case RExtend(a, v, x, now, k) =>
      && Fixed(sh, a, v.version, x) && !tx.readOnly && Noted(sh, i, tx, a, v.version)
      && v.version <= now <= sh.clock && tx.end <= now && QuietReads(sh, tx.rset, k, now)
    case RRecheck(a, v, x) => Fixed(sh, a, v.version, x) && v.version <= tx.end && sh.design.WriteBack?
    case ROwn(a) =>
      && OwnLock(sh, i, Lk(sh, a))
      && (sh.design.WriteBack? ==> !Stored(tx.entries, a))
    case WLoadLock(_, _, mask) => sh.design.WriteThrough? ==> mask != 0
    case WCas(a, _, mask, v) =>
      && (sh.design.WriteThrough? ==> mask != 0)
      && (v.version <= tx.end || !HasRead(tx.rset, Lk(sh, a)))
    case WLoad(k, _, mask) => !tx.readOnly && mask != 0 && (sh.design.WriteBack? ==> tx.entries[k].mask == 0)
    case WStore(k, y, value, mask) =>
      && !tx.readOnly && sh.design.WriteThrough? && tx.entries[k].mask != 0
      && y == Merge(sh.mem[tx.entries[k].addr], value, mask)
    case TakeTime => !tx.readOnly
    case Validate(t, k) => !tx.readOnly && QuietReads(sh, tx.rset, k, t - 1)
    case Undo(k, t) => LaterThanLocks(tx, t)
    case UndoLock(k, t) => LaterThanLocks(tx, t)
    case _ => true
  }

  // ---- commit ----

  /** Applying the recorded updates is the effect of the log, on the memory before timestamp t. */
  ghost predicate EffectAt(h: History, log: seq<Op>, us: seq<Update>, t: nat, a: nat)
    requires 0 < t <= |h.commits|
  {
    if Covers(h.lockOf, us, LockIx(h.lockOf, a)) then
      && NoPending(h, LockIx(h.lockOf, a), t - 1)
      && Effect(log, ValueAt(h, t - 1, a), a) == Apply(us, ValueAt(h, t - 1, a), a)
    else
      forall x: Word :: Effect(log, x, a) == x
  }

  ghost predicate EffectOk(h: History, log: seq<Op>, us: seq<Update>, t: nat)
    requires 0 < t <= |h.commits|
  {
    forall a: nat :: EffectAt(h, log, us, t, a)
  }

  /** Reads under own locks saw the memory before timestamp t. */
  ghost predicate OwnReadAt(h: History, op: Op, t: nat)
    requires 0 < t <= |h.commits|
  {
    op.Read? && op.source.UnderOwnLock? ==>
      NoPending(h, LockIx(h.lockOf, op.addr), t - 1) && op.source.base == ValueAt(h, t - 1, op.addr)
  }

  ghost predicate OwnReadsAt(h: History, log: seq<Op>, t: nat)
    requires 0 < t <= |h.commits|
  {
    forall k :: 0 <= k < |log| ==> OwnReadAt(h, log[k], t)
  }

  predicate SameAddresses(us: seq<Update>, es: seq<WEntry>) {
    |us| == |es| && forall k :: 0 <= k < |es| ==> us[k].addr == es[k].addr
  }

  /** A thread's timestamp stands in the history under its name. */
  ghost predicate StampOk(sh: Shared, i: nat, tx: Tx)
    requires SharedShape(sh)
  {
    var t := Ts(tx.pc);
    t > 0 ==>
      && t <= sh.clock && tx.end < t
      && var c := sh.h.commits[t - 1];
         && c.tid == i && c.status == (if tx.pc.Validate? then Pending else Committed) && c.start == tx.start
              && c.log == tx.log
         && SameAddresses(c.writes, tx.entries)
         && (sh.design.WriteBack? ==> c.writes == Updates(sh, tx.entries))
         && EffectOk(sh.h, tx.log, c.writes, t) && OwnReadsAt(sh.h, tx.log, t)
  }

  ghost predicate TxOk(sh: Shared, i: nat, tx: Tx)
    requires SharedShape(sh) && TxShape(sh, tx)
  {
    && LogOk(tx.log, |sh.mem|)
    && SnapshotOk(sh, tx)
    && RunOk(sh, i, tx)
    && PcOk(sh, i, tx)
    && StampOk(sh, i, tx)
    && ChainsOk(sh.h.lockOf, tx.entries)
    && EntriesHeld(sh, i, tx)
    && EntryValues(sh, tx)
    && Untouched(tx.log, tx.entries)
    && (tx.readOnly ==> tx.entries == [])
  }

  // ---- clauses about all threads ----

  /** A held lock belongs to a thread that still has to release it. */
  ghost predicate Owned(s: State, l: nat)
    requires l < |s.sh.locks|
  {
    s.sh.locks[l].Held? ==>
      var o := s.sh.locks[l].owner;
      o < |s.txs| && CoversFrom(s.sh.h.lockOf, s.txs[o].entries, Pos(s.txs[o]), l)
  }

  ghost predicate OwnersOk(s: State) {
    forall l :: 0 <= l < |s.sh.locks| ==> Owned(s, l)
  }

  /** A pending timestamp belongs to a thread that is validating with it. */
  ghost predicate PendingOk(s: State) {
    forall t {:trigger s.sh.h.commits[t]} :: 0 <= t < |s.sh.h.commits| && s.sh.h.commits[t].status.Pending? ==>
      s.sh.h.commits[t].tid < |s.txs| && s.txs[s.sh.h.commits[t].tid].pc.Validate?
      && s.txs[s.sh.h.commits[t].tid].pc.t == t + 1
  }

  /** What is newer than the last free stamp of a lock belongs to the thread that holds it. */
  ghost predicate Newest(s: State, l: nat, t: nat)
    requires l < |s.sh.locks| && 0 < t <= |s.sh.h.commits|
  {
    && s.sh.locks[l].Held? && s.sh.locks[l].owner < |s.txs|
    && Ts(s.txs[s.sh.locks[l].owner].pc) == t
  }

  ghost predicate VersionsOk(s: State)
    requires SharedShape(s.sh)
  {
    && (forall l :: 0 <= l < |s.sh.locks| ==>
          s.sh.vers[l].version <= s.sh.clock && (s.sh.locks[l].Free? ==> s.sh.locks[l].stamp == s.sh.vers[l]))
    && (forall l, t {:trigger Touches(s.sh.h, t, l)} ::
          (0 <= l < |s.sh.locks| && s.sh.vers[l].version < t <= s.sh.clock
           && !s.sh.h.commits[t - 1].status.Aborted? && Touches(s.sh.h, t, l)) ==> Newest(s, l, t))
  }

  /** Word `a` has been restored by the rollback. */
  predicate Restored(tx: Tx, a: nat) {
    exists k :: 0 <= k < Done(tx.pc) && k < |tx.entries| && tx.entries[k].addr == a
  }

  /** The content of a word under a lock, as its owner has left it so far. */
  ghost function OwnerWord(sh: Shared, tx: Tx, a: nat): Word
    requires SharedShape(sh)
  {
    if sh.design.WriteBack? then
      if Writing(tx.pc) && 0 < Ts(tx.pc) <= sh.clock then
        var t := Ts(tx.pc);
        var us := sh.h.commits[t - 1].writes;
        Apply(if Done(tx.pc) <= |us| then us[..Done(tx.pc)] else us, ValueAt(sh.h, t - 1, a), a)
      else ValueAt(sh.h, sh.clock, a)
    else
      if Writing(tx.pc) then ValueAt(sh.h, sh.clock, a)
      else if Undoing(tx.pc) && Restored(tx, a) then Base(sh, a)
      else Effect(tx.log, Base(sh, a), a)
  }

  ghost predicate WordOk(s: State, a: nat)
    requires Shape(s) && a < |s.sh.mem|
  {
    var w := s.sh.locks[Lk(s.sh, a)];
    s.sh.mem[a] ==
      if w.Held? && w.owner < |s.txs| then OwnerWord(s.sh, s.txs[w.owner], a) else ValueAt(s.sh.h, s.sh.clock, a)
  }

  ghost predicate MemoryOk(s: State)
    requires Shape(s)
  {
    forall a :: 0 <= a < |s.sh.mem| ==> WordOk(s, a)
  }

  ghost predicate CommitOk(sh: Shared, t: nat)
    requires SharedShape(sh) && 0 < t <= sh.clock
  {
    var c := sh.h.commits[t - 1];
    c.status.Committed? ==>
      && c.start < t && LogOk(c.log, |sh.mem|) && ReadsHold(sh.h, c.log, t - 1)
      && EffectOk(sh.h, c.log, c.writes, t) && OwnReadsAt(sh.h, c.log, t)
  }

  ghost predicate NoLockReads(log: seq<Op>) {
    forall k :: 0 <= k < |log| && log[k].Read? ==> !log[k].source.UnderOwnLock?
  }

  ghost predicate FinishedOk(sh: Shared, f: Finished)
    requires SharedShape(sh)
  {
    && f.start <= f.end <= f.at <= sh.clock
    && LogOk(f.log, |sh.mem|) && ReadsHold(sh.h, f.log, f.end) && NoLockReads(f.log)
  }

  ghost predicate PastOk(sh: Shared)
    requires SharedShape(sh)
  {
    && (forall t :: 0 < t <= sh.clock ==> CommitOk(sh, t))
    && (forall k :: 0 <= k < |sh.finished| ==> FinishedOk(sh, sh.finished[k]))
  }

  ghost predicate TxsOk(s: State)
    requires Shape(s)
  {
    forall i :: 0 <= i < |s.txs| ==> TxOk(s.sh, i, s.txs[i])
  }

  ghost predicate Inv(s: State) {
    && Shape(s)
    && TxsOk(s)
    && OwnersOk(s)
    && PendingOk(s)
    && VersionsOk(s)
    && MemoryOk(s)
    && PastOk(s.sh)
  }

  predicate Initial(s: State) {
    && Shape(s)
    && s.sh.clock == 0
    && s.sh.mem == s.sh.h.init
    && s.sh.finished == []
    && (forall l :: 0 <= l < |s.sh.locks| ==> s.sh.locks[l] == Free(Stamp(0, 0)) && s.sh.vers[l] == Stamp(0, 0))
    && (forall i :: 0 <= i < |s.txs| ==> s.txs[i] == Tx(Idle, false, 0, 0, [], [], [], s.txs[i].size))
  }

  lemma InitialInv(s: State)
    requires Initial(s)
    ensures Inv(s)
  {
    hide Merge;
  }
}
