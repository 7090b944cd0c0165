/** The chains of write-set entries: the walk along a chain finds what there is to be found, and the write
    set stays chained when an entry is added. */
module EtlChains {
  import opened CommitHistory
  import opened EtlMachine
  import opened EtlInvariant

  /** From any entry under the lock of `a`, the walk misses no later entry for `a`. */
  lemma {:induction false} ChainFindComplete(lockOf: seq<nat>, es: seq<WEntry>, k: nat, a: nat)
    requires ChainsOk(lockOf, es) && UnderLock(lockOf, es, k, LockIx(lockOf, a)) && ChainFind(es, k, a) == |es|
    ensures forall j :: k <= j < |es| ==> es[j].addr != a
    decreases |es| - k
  {
    assert ChainOk(lockOf, es, k);
    if es[k].next != 0 {
      ChainFindComplete(lockOf, es, es[k].next, a);
    }
    forall j | k <= j < |es|
      ensures es[j].addr != a
    {
      if es[k].next == 0 || j < es[k].next {
        assert k < j ==> !UnderLock(lockOf, es, j, LockIx(lockOf, a));
      }
    }
  }

  /** The end of a chain is under the same lock and has no successor. */
  lemma {:induction false} ChainLastIsLast(lockOf: seq<nat>, es: seq<WEntry>, k: nat)
    requires ChainsOk(lockOf, es) && k < |es|
    ensures var r := ChainLast(es, k); es[r].next == 0 && LockIx(lockOf, es[r].addr) == LockIx(lockOf, es[k].addr)
    decreases |es| - k
  {
    assert ChainOk(lockOf, es, k);
    if es[k].next != 0 {
      ChainLastIsLast(lockOf, es, es[k].next);
    }
  }

  lemma LinkedOk(lockOf: seq<nat>, es: seq<WEntry>, last: nat, a: nat)
    requires ChainsOk(lockOf, es) && last < |es| && es[last].next == 0
    requires LockIx(lockOf, es[last].addr) == LockIx(lockOf, a)
    requires forall k :: 0 <= k < |es| ==> es[k].addr != a
    ensures ChainsOk(lockOf, Linked(es, last, a))
  {
    var es' := Linked(es, last, a);
    forall k | 0 <= k < |es'|
      ensures ChainOk(lockOf, es', k)
    {
      if k < |es| {
        assert ChainOk(lockOf, es, k);
        assert ChainOk(lockOf, es, last);
        forall j | k < j < |es'| && (es'[k].next == 0 || j < es'[k].next)
          ensures !UnderLock(lockOf, es', j, LockIx(lockOf, es'[k].addr))
        {
          if j < |es| {
            assert !UnderLock(lockOf, es, j, LockIx(lockOf, es[k].addr));
          } else {
            assert k != last && es[k].next == 0;
            assert k < last ==> !UnderLock(lockOf, es, last, LockIx(lockOf, es[k].addr));
            assert last < k ==> !UnderLock(lockOf, es, k, LockIx(lockOf, es[last].addr));
          }
        }
      }
    }
  }

  lemma AcquiredOk(lockOf: seq<nat>, es: seq<WEntry>, a: nat, v: Stamp)
    requires ChainsOk(lockOf, es) && forall k :: 0 <= k < |es| ==> LockIx(lockOf, es[k].addr) != LockIx(lockOf, a)
    ensures ChainsOk(lockOf, Acquired(es, a, v))
  {
    var es' := Acquired(es, a, v);
    forall k | 0 <= k < |es'|
      ensures ChainOk(lockOf, es', k)
    {
      if k < |es| {
        assert ChainOk(lockOf, es, k);
        forall j | k < j < |es'| && (es'[k].next == 0 || j < es'[k].next)
          ensures !UnderLock(lockOf, es', j, LockIx(lockOf, es'[k].addr))
        {
          if j < |es| {
            assert !UnderLock(lockOf, es, j, LockIx(lockOf, es[k].addr));
          }
        }
      }
    }
  }

  /** Chains depend on addresses and links only. */
  lemma SameChains(lockOf: seq<nat>, es: seq<WEntry>, es': seq<WEntry>)
    requires ChainsOk(lockOf, es) && |es'| == |es|
    requires forall k :: 0 <= k < |es| ==> es'[k].addr == es[k].addr && es'[k].next == es[k].next
    ensures ChainsOk(lockOf, es')
  {
    forall k | 0 <= k < |es'|
      ensures ChainOk(lockOf, es', k)
    {
      assert ChainOk(lockOf, es, k);
      forall j | k < j < |es'| && (es'[k].next == 0 || j < es'[k].next)
        ensures !UnderLock(lockOf, es', j, LockIx(lockOf, es'[k].addr))
      {
        assert !UnderLock(lockOf, es, j, LockIx(lockOf, es[k].addr));
      }
    }
  }

  // ---- the effect of a log ----

  lemma EffectRead(log: seq<Op>, op: Op)
    requires op.Read?
    ensures forall x: Word, a: nat :: Effect(log + [op], x, a) == Effect(log, x, a)
  {
    assert (log + [op])[..|log|] == log;
  }

  lemma EffectWrite(log: seq<Op>, b: nat, value: Word, mask: Word)
    ensures forall x: Word, a: nat ::
              Effect(log + [Op.Write(b, value, mask)], x, a)
              == if a == b then Merge(Effect(log, x, a), value, mask) else Effect(log, x, a)
  {
    hide Merge;
    assert (log + [Op.Write(b, value, mask)])[..|log|] == log;
  }

  lemma LogOkAppend(log: seq<Op>, op: Op, n: nat)
    requires LogOk(log, n) && op.addr < n && OpAgrees(log + [op], |log|)
    ensures LogOk(log + [op], n)
  {
    AgreesAppend(log, op);
  }

  lemma ReadsAppend(h: History, log: seq<Op>, op: Op, e: nat)
    requires e <= |h.commits| && ReadsHold(h, log, e) && ReadHolds(h, op, e)
    ensures ReadsHold(h, log + [op], e)
  {
  }

  lemma MaskGrows(m: Word, n: Word)
    requires m != 0 || n != 0
    ensures Join(m, n) != 0
  {
  }
}
