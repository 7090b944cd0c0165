/** Every access of every thread keeps the invariant of the encounter-time locking designs: what the threads
    may do to one another, and what the clauses about all threads say about one lock. */
module EtlProof {
  import opened CommitHistory
  import opened EtlMachine
  import opened EtlInvariant

  /** What no step changes in the shared data. */
  predicate SameFrame(sh: Shared, sh': Shared) {
    && sh'.design == sh.design && sh'.max == sh.max
    && |sh'.mem| == |sh.mem| && |sh'.locks| == |sh.locks|
    && sh'.h.lockOf == sh.h.lockOf && sh'.h.init == sh.h.init
    && sh.clock <= sh'.clock
  }

  /** A free lock word is new, and then its stamp is too, or it was there before. */
  predicate StampsGrow(sh: Shared, sh': Shared) {
    |sh'.locks| == |sh.locks| == |sh.vers| &&
    forall l :: 0 <= l < |sh.locks| && sh'.locks[l].Free? && sh'.locks[l] != sh.locks[l] ==>
      Before(sh.vers[l], sh'.locks[l].stamp)
  }

  /** Seen from thread j: its own locks, the words under them and its own timestamps are left alone. */
  ghost predicate Env(sh: Shared, sh': Shared, j: nat) {
    && SharedShape(sh) && SharedShape(sh') && SameFrame(sh, sh')
    && Grows(sh.h, sh'.h)
    && (forall l :: 0 <= l < |sh.locks| ==> NotAfter(sh.vers[l], sh'.vers[l]))
    && (sh.design.WriteThrough? ==> StampsGrow(sh, sh'))
    && (forall l :: 0 <= l < |sh.locks| && OwnLock(sh, j, l) ==>
        sh'.locks[l] == sh.locks[l] && sh'.vers[l] == sh.vers[l])
    && (forall l :: 0 <= l < |sh.locks| && OwnLock(sh', j, l) ==> OwnLock(sh, j, l))
    && (forall a :: 0 <= a < |sh.mem| && OwnLock(sh, j, Lk(sh, a)) ==> sh'.mem[a] == sh.mem[a])
    && (forall t :: 0 <= t < |sh.h.commits| && sh.h.commits[t].tid == j ==> sh'.h.commits[t] == sh.h.commits[t])
  }

  lemma SeenStable(sh: Shared, sh': Shared, j: nat, a: nat, v: Stamp)
    requires Env(sh, sh', j) && a < |sh.mem| && Seen(sh, a, v)
    ensures Seen(sh', a, v)
  {
    NoPendingGrows(sh.h, sh'.h, Lk(sh, a), v.version);
  }

  lemma FreshStable(sh: Shared, sh': Shared, j: nat, a: nat, v: Stamp, x: Word)
    requires Env(sh, sh', j) && a < |sh.mem| && Seen(sh, a, v) && Fresh(sh, a, v, x)
    ensures Fresh(sh', a, v, x)
  {
    hide Merge, Apply, ValueAt, NoCommit, Quiet, NoPending;
    if NoCommit(sh'.h, Lk(sh, a), v.version, sh'.clock) {
      NoCommitShrinks(sh.h, sh'.h, Lk(sh, a), v.version);
      ValueGrows(sh.h, sh'.h, v.version, a);
    }
  }

  lemma FixedStable(sh: Shared, sh': Shared, j: nat, a: nat, v: nat, x: Word)
    requires Env(sh, sh', j) && a < |sh.mem| && Fixed(sh, a, v, x)
    ensures Fixed(sh', a, v, x)
  {
    hide Merge, Apply, ValueAt, NoPending;
    NoPendingGrows(sh.h, sh'.h, Lk(sh, a), v);
    ValueGrows(sh.h, sh'.h, v, a);
  }

  lemma QuietReadsStable(sh: Shared, sh': Shared, rset: seq<REntry>, n: nat, hi: nat)
    requires SharedShape(sh) && SharedShape(sh') && Grows(sh.h, sh'.h)
    requires n <= |rset| && hi <= sh.clock && QuietReads(sh, rset, n, hi)
    ensures QuietReads(sh', rset, n, hi)
  {
    hide Quiet;
    forall k {:trigger rset[k]} | 0 <= k < n
      ensures Quiet(sh'.h, rset[k].lock, rset[k].version, hi)
    {
      QuietGrows(sh.h, sh'.h, rset[k].lock, rset[k].version, hi);
    }
  }

  /** An own lock was free, and nothing was pending, at its last free version. */
  ghost predicate BasesFixed(sh: Shared, i: nat) {
    forall l :: 0 <= l < |sh.locks| && OwnLock(sh, i, l) && l < |sh.vers| ==>
      sh.vers[l].version <= |sh.h.commits| && NoPending(sh.h, l, sh.vers[l].version)
  }

  lemma BaseStable(sh: Shared, sh': Shared, j: nat, a: nat)
    requires Env(sh, sh', j) && BasesFixed(sh, j) && OwnLock(sh, j, Lk(sh, a))
    ensures Base(sh', a) == Base(sh, a)
  {
    hide Merge, Apply, ValueAt, NoPending;
    ValueGrows(sh.h, sh'.h, sh.vers[Lk(sh, a)].version, a);
  }

  lemma SnapshotStable(sh: Shared, sh': Shared, tx: Tx)
    requires SharedShape(sh) && SharedShape(sh') && sh.clock <= sh'.clock && Grows(sh.h, sh'.h) && SnapshotOk(sh, tx)
    ensures SnapshotOk(sh', tx)
  {
    hide ReadsHold;
    ReadsGrow(sh.h, sh'.h, tx.log, tx.end);
  }

  lemma RunStable(sh: Shared, sh': Shared, j: nat, tx: Tx)
    requires Env(sh, sh', j) && BasesFixed(sh, j) && RunOk(sh, j, tx)
    ensures RunOk(sh', j, tx)
  {
    hide Base, Quiet, NoPending, QuietReads;
    if Running(tx.pc) {
      forall k | 0 <= k < |tx.log|
        ensures OwnRead(sh', j, tx.log[k])
      {
        assert OwnRead(sh, j, tx.log[k]);
        if tx.log[k].Read? && tx.log[k].source.UnderOwnLock? {
          BaseStable(sh, sh', j, tx.log[k].addr);
        }
      }
      forall k | 0 <= k < |tx.rset|
        ensures ReadBeforeLock(sh', j, tx.rset[k])
      {
        var r := tx.rset[k];
        assert ReadBeforeLock(sh, j, r);
        if OwnLock(sh', j, r.lock) {
          assert OwnLock(sh, j, r.lock);
          QuietGrows(sh.h, sh'.h, r.lock, r.version, sh.vers[r.lock].version);
        }
      }
      QuietReadsStable(sh, sh', tx.rset, Completed(sh, tx), tx.end);
    }
  }

  lemma EntriesStable(sh: Shared, sh': Shared, j: nat, tx: Tx)
    requires Env(sh, sh', j) && TxShape(sh, tx) && TxShape(sh', tx) && BasesFixed(sh, j)
    requires EntriesHeld(sh, j, tx) && EntryValues(sh, tx)
    ensures EntriesHeld(sh', j, tx) && EntryValues(sh', tx)
  {
    hide Base, NoPending, Effect;
    forall k | Pos(tx) <= k < |tx.entries|
      ensures EntryHeld(sh', j, tx, k)
      ensures !Writing(tx.pc) ==> EntryValue(sh', tx, k)
    {
      assert EntryHeld(sh, j, tx, k);
      assert !Writing(tx.pc) ==> EntryValue(sh, tx, k);
      BaseStable(sh, sh', j, tx.entries[k].addr);
      NoPendingGrows(sh.h, sh'.h, Lk(sh, tx.entries[k].addr), sh.vers[Lk(sh, tx.entries[k].addr)].version);
    }
  }

  lemma PcStable(sh: Shared, sh': Shared, j: nat, tx: Tx)
    requires Env(sh, sh', j) && TxShape(sh, tx) && TxShape(sh', tx) && PcOk(sh, j, tx) && EntriesHeld(sh, j, tx)
    ensures PcOk(sh', j, tx)
  {
    hide Seen, Fresh, Fixed, QuietReads, NoPending, Before;
    match tx.pc {
      case RLoadValue(a, v) => SeenStable(sh, sh', j, a, v);
      case RReloadLock(a, v, x) => SeenStable(sh, sh', j, a, v); FreshStable(sh, sh', j, a, v, x);
      case RClock(a, v, x) => FixedStable(sh, sh', j, a, v.version, x);
      case RExtend(a, v, x, now, k) =>
        FixedStable(sh, sh', j, a, v.version, x); QuietReadsStable(sh, sh', tx.rset, k, now);
      case RRecheck(a, v, x) => FixedStable(sh, sh', j, a, v.version, x);
      case Validate(t, k) => QuietReadsStable(sh, sh', tx.rset, k, t - 1);
      case WStore(k, y, value, mask) => assert EntryHeld(sh, j, tx, k);
      case _ =>
    }
  }

  lemma EffectStable(h: History, h': History, log: seq<Op>, us: seq<Update>, t: nat)
    requires Grows(h, h') && 0 < t <= |h.commits| && EffectOk(h, log, us, t)
    ensures EffectOk(h', log, us, t)
  {
    hide Effect, Apply, NoPending, ValueAt;
    forall a: nat
      ensures EffectAt(h', log, us, t, a)
    {
      assert EffectAt(h, log, us, t, a);
      if Covers(h.lockOf, us, LockIx(h.lockOf, a)) {
        NoPendingGrows(h, h', LockIx(h.lockOf, a), t - 1);
        ValueGrows(h, h', t - 1, a);
      }
    }
  }

  lemma OwnReadsStable(h: History, h': History, log: seq<Op>, t: nat)
    requires Grows(h, h') && 0 < t <= |h.commits| && OwnReadsAt(h, log, t)
    ensures OwnReadsAt(h', log, t)
  {
    hide NoPending, ValueAt;
    forall k | 0 <= k < |log|
      ensures OwnReadAt(h', log[k], t)
    {
      assert OwnReadAt(h, log[k], t);
      if log[k].Read? && log[k].source.UnderOwnLock? {
        NoPendingGrows(h, h', LockIx(h.lockOf, log[k].addr), t - 1);
        ValueGrows(h, h', t - 1, log[k].addr);
      }
    }
  }

  lemma StampStable(sh: Shared, sh': Shared, j: nat, tx: Tx)
    requires Env(sh, sh', j) && StampOk(sh, j, tx)
    ensures StampOk(sh', j, tx)
  {
    hide EffectOk, OwnReadsAt;
    var t := Ts(tx.pc);
    if t > 0 {
      EffectStable(sh.h, sh'.h, tx.log, sh.h.commits[t - 1].writes, t);
      OwnReadsStable(sh.h, sh'.h, tx.log, t);
      if sh.design.WriteBack? {
        assert Updates(sh', tx.entries) == Updates(sh, tx.entries);
      }
    }
  }

  lemma TxStable(sh: Shared, sh': Shared, j: nat, tx: Tx)
    requires Env(sh, sh', j) && TxShape(sh, tx) && TxShape(sh', tx) && BasesFixed(sh, j) && TxOk(sh, j, tx)
    ensures TxOk(sh', j, tx)
  {
    hide LogOk, SnapshotOk, RunOk, PcOk, StampOk, EntriesHeld, EntryValues, SetsShape, PcShape, Untouched, ChainsOk,
         BasesFixed;
    SnapshotStable(sh, sh', tx);
    RunStable(sh, sh', j, tx);
    PcStable(sh, sh', j, tx);
    StampStable(sh, sh', j, tx);
    EntriesStable(sh, sh', j, tx);
  }

  // ---- what the clauses about all threads say about one lock ----

  /** Who holds a lock, and through which entry. */
  lemma OwnedEntry(s: State, l: nat) returns (k: nat)
    requires Inv(s) && l < |s.sh.locks| && s.sh.locks[l].Held?
    ensures var o := s.sh.locks[l].owner;
            && o < |s.txs| && TxShape(s.sh, s.txs[o]) && Pos(s.txs[o]) <= k < |s.txs[o].entries|
            && UnderLock(s.sh.h.lockOf, s.txs[o].entries, k, l)
            && EntryHeld(s.sh, o, s.txs[o], k)
  {
    hide LogOk, SnapshotOk, RunOk, PcOk, StampOk, ChainsOk, EntryValues, Untouched, PendingOk, VersionsOk, MemoryOk,
         PastOk, SetsShape, PcShape;
    assert Owned(s, l);
    var o := s.sh.locks[l].owner;
    var tx := s.txs[o];
    k :| Pos(tx) <= k < |tx.entries| && UnderLock(s.sh.h.lockOf, tx.entries, k, l);
    assert TxOk(s.sh, o, tx);
  }

  lemma AllBasesFixed(s: State, i: nat)
    requires Inv(s)
    ensures BasesFixed(s.sh, i)
  {
    hide TxsOk, OwnersOk, PendingOk, VersionsOk, MemoryOk, PastOk, NoPending;
    forall l | 0 <= l < |s.sh.locks| && OwnLock(s.sh, i, l) && l < |s.sh.vers|
      ensures s.sh.vers[l].version <= |s.sh.h.commits| && NoPending(s.sh.h, l, s.sh.vers[l].version)
    {
      var k := OwnedEntry(s, l);
    }
  }

  lemma EntryIndex(sh: Shared, tx: Tx, k: nat)
    requires SharedShape(sh) && TxShape(sh, tx) && k < |tx.entries|
    ensures tx.entries[k].addr < |sh.mem| && Lk(sh, tx.entries[k].addr) < |sh.locks|
  {
  }

  /** The locks of a pending timestamp are held by its thread. */
  lemma PendingHolds(s: State, l: nat, t: nat)
    requires Inv(s) && l < |s.sh.locks| && 0 < t <= s.sh.clock
    requires s.sh.h.commits[t - 1].status.Pending? && Touches(s.sh.h, t, l)
    ensures OwnLock(s.sh, s.sh.h.commits[t - 1].tid, l)
  {
    hide LogOk, SnapshotOk, RunOk, PcOk, ChainsOk, EntryValues, Untouched, MemoryOk, PastOk, OwnersOk, VersionsOk,
         EffectOk, OwnReadsAt;
    var c := s.sh.h.commits[t - 1];
    var tx := s.txs[c.tid];
    assert TxShape(s.sh, tx) && TxOk(s.sh, c.tid, tx);
    var k :| 0 <= k < |c.writes| && LockIx(s.sh.h.lockOf, c.writes[k].addr) == l;
    assert EntryHeld(s.sh, c.tid, tx, k);
  }

  lemma FreeIsQuiet(s: State, l: nat)
    requires Inv(s) && l < |s.sh.locks| && s.sh.locks[l].Free?
    ensures s.sh.locks[l].stamp == s.sh.vers[l] && s.sh.vers[l].version <= s.sh.clock
    ensures Quiet(s.sh.h, l, s.sh.vers[l].version, s.sh.clock)
    ensures NoPending(s.sh.h, l, s.sh.clock)
  {
    hide TxsOk, MemoryOk, PastOk, OwnersOk, PendingOk, TxShape;
    forall t {:trigger Touches(s.sh.h, t, l)} | 0 < t <= s.sh.clock && s.sh.h.commits[t - 1].status.Pending?
      ensures !Touches(s.sh.h, t, l)
    {
      if Touches(s.sh.h, t, l) {
        PendingHolds(s, l, t);
      }
    }
  }

  /** Under an own lock nothing happens between the last free version and now, or the own timestamp. */
  lemma OwnIsQuiet(s: State, i: nat, l: nat)
    requires Inv(s) && i < |s.txs| && OwnLock(s.sh, i, l)
    ensures var hi := if Ts(s.txs[i].pc) > 0 then Ts(s.txs[i].pc) - 1 else s.sh.clock;
            && hi <= s.sh.clock && s.sh.vers[l].version <= hi
            && Quiet(s.sh.h, l, s.sh.vers[l].version, hi) && NoPending(s.sh.h, l, hi)
  {
    hide LogOk, SnapshotOk, RunOk, PcOk, ChainsOk, EntryValues, Untouched, MemoryOk, PastOk, OwnersOk, EffectOk,
         OwnReadsAt, EntriesHeld, PendingOk;
    var k := OwnedEntry(s, l);
    var tx := s.txs[i];
    assert TxShape(s.sh, tx) && TxOk(s.sh, i, tx);
    var hi := if Ts(tx.pc) > 0 then Ts(tx.pc) - 1 else s.sh.clock;
    forall t {:trigger Touches(s.sh.h, t, l)} | 0 < t <= hi && s.sh.h.commits[t - 1].status.Pending?
      ensures !Touches(s.sh.h, t, l)
    {
      if Touches(s.sh.h, t, l) {
        PendingHolds(s, l, t);
        PendingStamp(s, t);
      }
    }
  }

  lemma PendingStamp(s: State, t: nat)
    requires Inv(s) && 0 < t <= s.sh.clock && s.sh.h.commits[t - 1].status.Pending?
    ensures var o := s.sh.h.commits[t - 1].tid; o < |s.txs| && s.txs[o].pc.Validate? && Ts(s.txs[o].pc) == t
  {
    hide TxsOk, MemoryOk, PastOk, OwnersOk, VersionsOk;
  }

  /** What a thread sees as valid, its own locks included, is quiet until now, or until its own timestamp. */
  lemma ValidIsQuiet(s: State, i: nat, k: nat)
    requires Inv(s) && i < |s.txs| && k < |s.txs[i].rset| && Running(s.txs[i].pc) && EntryValid(s.sh, i, s.txs[i], k)
    ensures var hi := if Ts(s.txs[i].pc) > 0 then Ts(s.txs[i].pc) - 1 else s.sh.clock;
            var r := s.txs[i].rset[k];
            hi <= s.sh.clock && Quiet(s.sh.h, r.lock, r.version, hi)
  {
    hide LogOk, SnapshotOk, PcOk, ChainsOk, EntriesHeld, EntryValues, Untouched, MemoryOk, PastOk, OwnersOk,
         VersionsOk, PendingOk, EffectOk, OwnReadsAt, NoPending;
    var tx := s.txs[i];
    var r := tx.rset[k];
    assert TxShape(s.sh, tx) && TxOk(s.sh, i, tx);
    if s.sh.locks[r.lock].Free? {
      FreeIsQuiet(s, r.lock);
    } else {
      OwnIsQuiet(s, i, r.lock);
      assert ReadBeforeLock(s.sh, i, r);
    }
  }

  /** A word under an own lock has kept its content since the lock was taken. */
  lemma BaseIsLast(s: State, i: nat, a: nat)
    requires Inv(s) && i < |s.txs| && a < |s.sh.mem| && OwnLock(s.sh, i, Lk(s.sh, a))
    ensures var hi := if Ts(s.txs[i].pc) > 0 then Ts(s.txs[i].pc) - 1 else s.sh.clock;
            hi <= s.sh.clock && Base(s.sh, a) == ValueAt(s.sh.h, hi, a)
  {
    hide TxsOk, MemoryOk, PastOk, OwnersOk, VersionsOk, PendingOk, ValueAt, NoPending;
    var l := Lk(s.sh, a);
    OwnIsQuiet(s, i, l);
    var hi := if Ts(s.txs[i].pc) > 0 then Ts(s.txs[i].pc) - 1 else s.sh.clock;
    QuietNoCommit(s.sh.h, l, s.sh.vers[l].version, hi);
    ValueQuiet(s.sh.h, s.sh.vers[l].version, hi, a);
  }
}
