/** Every access of every thread keeps the invariant of the commit-time locking design. */
module CtlProof {
  import opened CommitHistory
  import opened CtlMachine
  import opened CtlInvariant

  // ---- what a step of one thread may do to another ----

  /** Seen from thread j: its own locks, the words under them and its own timestamps are left alone. */
  ghost predicate Env(sh: Shared, sh': Shared, j: nat) {
    && SharedShape(sh) && SharedShape(sh') && SameFrame(sh, sh')
    && Grows(sh.h, sh'.h)
    && (forall l :: 0 <= l < |sh.locks| ==> sh.vers[l] <= sh'.vers[l])
    && (forall l :: 0 <= l < |sh.locks| && sh.locks[l].Held? && sh.locks[l].owner == j
          ==> sh'.locks[l] == sh.locks[l] && sh'.vers[l] == sh.vers[l])
    && (forall a :: 0 <= a < |sh.mem| && sh.locks[Lk(sh, a)].Held? && sh.locks[Lk(sh, a)].owner == j
          ==> sh'.mem[a] == sh.mem[a])
    && (forall t :: 0 <= t < |sh.h.commits| && sh.h.commits[t].tid == j ==> sh'.h.commits[t] == sh.h.commits[t])
  }

  lemma SeenStable(sh: Shared, sh': Shared, j: nat, a: nat, v: nat)
    requires Env(sh, sh', j) && a < |sh.mem| && Seen(sh, a, v) && sh'.vers[Lk(sh, a)] <= sh'.clock
    ensures Seen(sh', a, v)
  {
    NoPendingGrows(sh.h, sh'.h, Lk(sh, a), v);
  }

  lemma FreshStable(sh: Shared, sh': Shared, j: nat, a: nat, v: nat, x: Word)
    requires Env(sh, sh', j) && a < |sh.mem| && Seen(sh, a, v) && Fresh(sh, a, v, x)
    ensures Fresh(sh', a, v, x)
  {
    hide Merge, Apply, ValueAt, NoCommit, Quiet, NoPending;
    if NoCommit(sh'.h, Lk(sh, a), v, sh'.clock) {
      NoCommitShrinks(sh.h, sh'.h, Lk(sh, a), v);
      ValueGrows(sh.h, sh'.h, v, a);
    }
  }

  lemma QuietReadsStable(sh: Shared, sh': Shared, j: nat, tx: Tx, n: nat, hi: nat)
    requires Env(sh, sh', j) && n <= |tx.rset| && hi <= sh.clock && QuietReads(sh, tx, n, hi)
    ensures QuietReads(sh', tx, n, hi)
  {
    hide Quiet;
    forall k {:trigger tx.rset[k]} | 0 <= k < n
      ensures Quiet(sh'.h, tx.rset[k].lock, tx.rset[k].version, hi)
    {
      QuietGrows(sh.h, sh'.h, tx.rset[k].lock, tx.rset[k].version, hi);
    }
  }

  lemma SnapshotStable(sh: Shared, sh': Shared, tx: Tx)
    requires SharedShape(sh) && SharedShape(sh') && SameFrame(sh, sh') && Grows(sh.h, sh'.h) && SnapshotOk(sh, tx)
    ensures SnapshotOk(sh', tx)
  {
    hide ReadsHold;
    ReadsGrow(sh.h, sh'.h, tx.log, tx.end);
  }

  lemma LocksStable(sh: Shared, sh': Shared, j: nat, tx: Tx)
    requires Env(sh, sh', j) && TxShape(sh, tx) && TxShape(sh', tx) && LocksOk(sh, j, tx)
    ensures LocksOk(sh', j, tx)
  {
    hide Marks;
    forall k | 0 <= k < |tx.writes| && Holds(tx, k)
      ensures EntryHeld(sh', j, tx, k)
    {
      assert EntryHeld(sh, j, tx, k);
    }
    forall k | From(tx) <= k < |tx.writes|
      ensures EntryCovered(sh', j, tx, k)
    {
      assert EntryCovered(sh, j, tx, k);
    }
  }

  lemma PcStable(sh: Shared, sh': Shared, j: nat, tx: Tx)
    requires Env(sh, sh', j) && TxShape(sh, tx) && TxShape(sh', tx) && PcOk(sh, tx) && LocksOk(sh, j, tx)
    requires forall l :: 0 <= l < |sh'.locks| ==> sh'.vers[l] <= sh'.clock
    ensures PcOk(sh', tx)
  {
    hide Seen, Fresh, QuietReads, Marks;
    match tx.pc {
      case RLoadValue(a, v) => SeenStable(sh, sh', j, a, v);
      case RReloadLock(a, v, x) => SeenStable(sh, sh', j, a, v); FreshStable(sh, sh', j, a, v, x);
      case RClock(a, v, x) => SeenStable(sh, sh', j, a, v); FreshStable(sh, sh', j, a, v, x);
      case RExtend(a, v, x, now, k) =>
        SeenStable(sh, sh', j, a, v); FreshStable(sh, sh', j, a, v, x); QuietReadsStable(sh, sh', j, tx, k, now);
      case RRecheck(a, v, x) => SeenStable(sh, sh', j, a, v); FreshStable(sh, sh', j, a, v, x);
      case Validate(t, k) => QuietReadsStable(sh, sh', j, tx, k, t - 1);
      case Mix(_, k, x) => assert EntryCovered(sh, j, tx, k);
      case _ =>
    }
  }

  lemma TxStable(sh: Shared, sh': Shared, j: nat, tx: Tx)
    requires Env(sh, sh', j) && TxShape(sh, tx) && TxShape(sh', tx) && TxOk(sh, j, tx)
    requires forall l :: 0 <= l < |sh'.locks| ==> sh'.vers[l] <= sh'.clock
    ensures TxOk(sh', j, tx)
  {
    hide LogOk, Quiet, SnapshotOk, PcOk, LocksOk, SetsShape, PcShape;
    SnapshotStable(sh, sh', tx);
    PcStable(sh, sh', j, tx);
    LocksStable(sh, sh', j, tx);
  }

  // ---- what the clauses about all threads say about one lock ----

  lemma FreeIsQuiet(s: State, l: nat)
    requires Inv(s) && l < |s.sh.locks| && s.sh.locks[l].Free?
    ensures s.sh.locks[l].version == s.sh.vers[l]
    ensures Quiet(s.sh.h, l, s.sh.vers[l], s.sh.clock)
    ensures NoPending(s.sh.h, l, s.sh.clock)
  {
    hide TxOk, MemoryOk, PastOk, OwnersOk, TxShape;
    forall t {:trigger Touches(s.sh.h, t, l)} | 0 < t <= s.sh.clock && s.sh.h.commits[t - 1].status.Pending?
      ensures !Touches(s.sh.h, t, l)
    {
      if Touches(s.sh.h, t, l) {
        PendingHolds(s, l, t);
      }
    }
  }

  /** The locks of a pending timestamp are held by its thread. */
  lemma PendingHolds(s: State, l: nat, t: nat)
    requires Inv(s) && l < |s.sh.locks| && 0 < t <= s.sh.clock
    requires s.sh.h.commits[t - 1].status.Pending? && Touches(s.sh.h, t, l)
    ensures s.sh.locks[l].Held? && s.sh.locks[l].owner == s.sh.h.commits[t - 1].tid
  {
    hide LogOk, SnapshotOk, MemoryOk, PastOk, OwnersOk, VersionsOk, PcOk, Marks;
    var c := s.sh.h.commits[t - 1];
    assert TxShape(s.sh, s.txs[c.tid]) && TxOk(s.sh, c.tid, s.txs[c.tid]);
    var k :| 0 <= k < |c.writes| && LockIx(s.sh.h.lockOf, c.writes[k].addr) == l;
    assert EntryCovered(s.sh, c.tid, s.txs[c.tid], k);
  }

  /** What a thread sees as valid is quiet until now, or until its own timestamp. */
  lemma ValidIsQuiet(s: State, i: nat, k: nat)
    requires Inv(s) && i < |s.txs| && k < |s.txs[i].rset| && EntryValid(s.sh, i, s.txs[i], k)
    ensures var hi := if Ts(s.txs[i].pc) > 0 then Ts(s.txs[i].pc) - 1 else s.sh.clock;
            var r := s.txs[i].rset[k];
            hi <= s.sh.clock && Quiet(s.sh.h, r.lock, r.version, hi)
  {
    hide LogOk, SnapshotOk, MemoryOk, PastOk, PcOk, Marks, PendingOk, NoPending;
    var tx := s.txs[i];
    var l := tx.rset[k].lock;
    assert TxShape(s.sh, tx) && TxOk(s.sh, i, tx);
    if s.sh.locks[l].Free? {
      FreeIsQuiet(s, l);
    } else {
      assert Owned(s, l);
      assert EntryHeld(s.sh, i, tx, s.sh.locks[l].entry);
    }
  }

  // ---- steps that leave the shared data alone ----

  /** The bookkeeping about locks does not notice the thread's step. */
  ghost predicate SameRole(tx: Tx, tx': Tx) {
    && (tx.pc.Validate? ==> tx'.pc.Validate? && tx'.pc.t == tx.pc.t)
    && (forall e :: 0 <= e < |tx.writes| && Holds(tx, e) ==>
          && Holds(tx', e) && tx'.writes[e].addr == tx.writes[e].addr
          && Ts(tx'.pc) == Ts(tx.pc) && Writing(tx'.pc) == Writing(tx.pc)
          && (Writing(tx.pc) ==> tx'.writes == tx.writes && Stored(tx'.pc) == Stored(tx.pc)))
  }

  lemma LocalKeeps(s: State, i: nat, tx': Tx, fin: seq<Finished>)
    requires Inv(s) && i < |s.txs| && TxShape(s.sh, tx') && SameRole(s.txs[i], tx')
    ensures var s' := State(s.sh.(finished := fin), s.txs[i := tx']);
            Shape(s') && OwnersOk(s') && PendingOk(s') && VersionsOk(s') && MemoryOk(s')
  {
    hide TxOk, PastOk, SetsShape, PcShape, ValueAt, Apply, Touches, Ts, Writing, Stored;
    var s' := State(s.sh.(finished := fin), s.txs[i := tx']);
    forall l | 0 <= l < |s.sh.locks|
      ensures Owned(s', l)
    {
      assert Owned(s, l);
    }
    forall l, t {:trigger Touches(s.sh.h, t, l)} | 0 <= l < |s.sh.locks| && s.sh.vers[l] < t <= s.sh.clock
        && !s.sh.h.commits[t - 1].status.Aborted? && Touches(s.sh.h, t, l)
      ensures Newest(s', l, t)
    {
      assert Newest(s, l, t) && Owned(s, l);
    }
    forall a | 0 <= a < |s.sh.mem|
      ensures WordOk(s', a)
    {
      assert WordOk(s, a) && Owned(s, Lk(s.sh, a));
    }
  }
}
