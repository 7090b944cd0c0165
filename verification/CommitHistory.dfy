/** What the three transactional designs have in common: words and masks, the log of a transaction, and the
    sequence of committed memories indexed by timestamp that serves as their specification. */
module CommitHistory {

  type Word = bv64

  const ALL_BITS: Word := 0xFFFF_FFFF_FFFF_FFFF

  /** The masked store `(old & ~mask) | (value & mask)`. */
  function Merge(was: Word, value: Word, mask: Word): Word {
    (was & !mask) | (value & mask)
  }

  lemma MergeAll(was: Word, value: Word)
    ensures Merge(was, value, ALL_BITS) == value
  {
  }

  lemma MergeNone(was: Word, value: Word)
    ensures Merge(was, value, 0) == was
  {
  }

  /** Two masked stores to one word are the single masked store that a write-set entry accumulates. */
  lemma MergeMerge(was: Word, v1: Word, m1: Word, v2: Word, m2: Word)
    ensures Merge(Merge(was, v1, m1), v2, m2) == Merge(was, Merge(v1, v2, m2), m1 | m2)
  {
  }

  datatype Update = Update(addr: nat, value: Word, mask: Word)

  /** How a read obtained its value: from an unlocked word with that lock version and content, from the
      write set alone, or from a word whose lock the transaction held. */
  datatype Source = Memory(version: nat, base: Word) | Buffer | UnderOwnLock(base: Word)

  datatype Op =
    | Read(addr: nat, value: Word, source: Source)
    | Write(addr: nat, value: Word, mask: Word)

  /** The content of word `a` after the writes of the log, when it was `x` before. */
  function Effect(log: seq<Op>, x: Word, a: nat): Word {
    if log == [] then x else
      var before := Effect(log[..|log| - 1], x, a);
      var op := log[|log| - 1];
      if op.Write? && op.addr == a then Merge(before, op.value, op.mask) else before
  }

  /** The content of word `a` after storing the updates in order, when it was `x` before. */
  function Apply(us: seq<Update>, x: Word, a: nat): Word {
    if us == [] then x else
      var before := Apply(us[..|us| - 1], x, a);
      var u := us[|us| - 1];
      if u.addr == a then Merge(before, u.value, u.mask) else before
  }

  /** The write set has the effect of the writes in the log. */
  ghost predicate SameEffect(log: seq<Op>, us: seq<Update>) {
    forall x: Word, a: nat :: Effect(log, x, a) == Apply(us, x, a)
  }

  /** The first entry for `a`, as `stm_has_written` finds it; |us| when there is none. */
  function FindFrom(us: seq<Update>, a: nat, k: nat): (r: nat)
    requires k <= |us|
    ensures k <= r <= |us|
    ensures r < |us| ==> us[r].addr == a
    ensures forall j :: k <= j < r ==> us[j].addr != a
    decreases |us| - k
  {
    if k == |us| || us[k].addr == a then k else FindFrom(us, a, k + 1)
  }

  function Find(us: seq<Update>, a: nat): nat {
    FindFrom(us, a, 0)
  }

  ghost predicate Distinct(us: seq<Update>) {
    forall j, k :: 0 <= j < k < |us| ==> us[j].addr != us[k].addr
  }

  lemma {:induction false} ApplyAbsent(us: seq<Update>, x: Word, a: nat)
    requires forall k :: 0 <= k < |us| ==> us[k].addr != a
    ensures Apply(us, x, a) == x
    decreases |us|
  {
    if us != [] {
      ApplyAbsent(us[..|us| - 1], x, a);
    }
  }

  /** With one entry per address, only that entry matters. */
  lemma {:induction false} ApplyEntry(us: seq<Update>, k: nat, x: Word)
    requires Distinct(us) && k < |us|
    ensures Apply(us, x, us[k].addr) == Merge(x, us[k].value, us[k].mask)
    decreases |us|
  {
    hide Merge;
    var rest := us[..|us| - 1];
    if k == |us| - 1 {
      ApplyAbsent(rest, x, us[k].addr);
    } else {
      ApplyEntry(rest, k, x);
    }
  }

  function Folded(u: Update, value: Word, mask: Word): Update {
    Update(u.addr, Merge(u.value, value, mask), u.mask | mask)
  }

  lemma FoldAt(us: seq<Update>, k: nat, value: Word, mask: Word, x: Word, a: nat)
    requires Distinct(us) && k < |us|
    ensures Apply(us[k := Folded(us[k], value, mask)], x, a)
         == if a == us[k].addr then Merge(Apply(us, x, a), value, mask) else Apply(us, x, a)
  {
    hide Merge, Apply;
    var merged := us[k := Folded(us[k], value, mask)];
    if a == us[k].addr {
      ApplyEntry(us, k, x);
      ApplyEntry(merged, k, x);
      MergeMerge(x, us[k].value, us[k].mask, value, mask);
    } else {
      ApplyElsewhere(us, merged, x, a);
    }
  }

  /** Folding a second store into an existing entry has the effect of doing both stores. */
  lemma FoldWrite(log: seq<Op>, us: seq<Update>, k: nat, value: Word, mask: Word)
    requires SameEffect(log, us) && Distinct(us) && k < |us|
    ensures SameEffect(log + [Write(us[k].addr, value, mask)], us[k := Folded(us[k], value, mask)])
    ensures Distinct(us[k := Folded(us[k], value, mask)])
  {
    hide Merge, Apply;
    var log' := log + [Write(us[k].addr, value, mask)];
    assert log'[..|log|] == log;
    forall x: Word, a: nat
      ensures Effect(log', x, a) == Apply(us[k := Folded(us[k], value, mask)], x, a)
    {
      assert Effect(log, x, a) == Apply(us, x, a);
      FoldAt(us, k, value, mask, x, a);
    }
  }

  lemma {:induction false} ApplyElsewhere(us: seq<Update>, vs: seq<Update>, x: Word, a: nat)
    requires |us| == |vs|
    requires forall k :: 0 <= k < |us| ==> us[k] == vs[k] || (us[k].addr != a && vs[k].addr != a)
    ensures Apply(us, x, a) == Apply(vs, x, a)
    decreases |us|
  {
    if us != [] {
      ApplyElsewhere(us[..|us| - 1], vs[..|vs| - 1], x, a);
    }
  }

  lemma AddWrite(log: seq<Op>, us: seq<Update>, u: Update)
    requires SameEffect(log, us)
    ensures SameEffect(log + [Write(u.addr, u.value, u.mask)], us + [u])
  {
    var log' := log + [Write(u.addr, u.value, u.mask)];
    forall x: Word, a: nat
      ensures Effect(log', x, a) == Apply(us + [u], x, a)
    {
      assert log'[..|log|] == log && (us + [u])[..|us|] == us;
      assert Effect(log, x, a) == Apply(us, x, a);
    }
  }

  lemma AddRead(log: seq<Op>, us: seq<Update>, op: Op)
    requires SameEffect(log, us) && op.Read?
    ensures SameEffect(log + [op], us)
  {
    forall x: Word, a: nat
      ensures Effect(log + [op], x, a) == Apply(us, x, a)
    {
      assert (log + [op])[..|log|] == log;
      assert Effect(log, x, a) == Apply(us, x, a);
    }
  }

  /** The value of the k-th operation is what the earlier writes of the log make of the content it saw. */
  ghost predicate OpAgrees(log: seq<Op>, k: nat)
    requires k < |log|
  {
    match log[k]
    case Write(_, _, _) => true
    case Read(a, v, Memory(_, base)) => v == Effect(log[..k], base, a)
    case Read(a, v, UnderOwnLock(base)) => v == Effect(log[..k], base, a)
    case Read(a, v, Buffer) => forall x: Word :: v == Effect(log[..k], x, a)
  }

  ghost predicate LogAgrees(log: seq<Op>) {
    forall k :: 0 <= k < |log| ==> OpAgrees(log, k)
  }

  lemma AgreesAppend(log: seq<Op>, op: Op)
    requires LogAgrees(log) && OpAgrees(log + [op], |log|)
    ensures LogAgrees(log + [op])
  {
    forall k | 0 <= k < |log| + 1
      ensures OpAgrees(log + [op], k)
    {
      if k < |log| {
        assert (log + [op])[..k] == log[..k];
        assert OpAgrees(log, k);
      }
    }
  }

  // ---- the history of commit timestamps ----

  /** Pending: the timestamp is taken but the read set is not yet validated. */
  datatype Status = Pending | Committed | Aborted

  datatype Commit = Commit(tid: nat, status: Status, start: nat, writes: seq<Update>, log: seq<Op>)

  /** Timestamp t is entry t-1; the memory before the first commit is `init`. */
  datatype History = History(lockOf: seq<nat>, init: seq<Word>, commits: seq<Commit>)

  /** The lock that guards an address, an arbitrary function of it. */
  function LockIx(lockOf: seq<nat>, a: nat): nat {
    if a < |lockOf| then lockOf[a] else 0
  }

  function Initially(init: seq<Word>, a: nat): Word {
    if a < |init| then init[a] else 0
  }

  /** Content of word `a` in the e-th committed memory. */
  function ValueAt(h: History, e: nat, a: nat): Word
    requires e <= |h.commits|
  {
    if e == 0 then Initially(h.init, a) else
      var before := ValueAt(h, e - 1, a);
      var c := h.commits[e - 1];
      if c.status.Committed? then Apply(c.writes, before, a) else before
  }

  ghost predicate Covers(lockOf: seq<nat>, us: seq<Update>, l: nat) {
    exists k :: 0 <= k < |us| && LockIx(lockOf, us[k].addr) == l
  }

  ghost predicate Touches(h: History, t: nat, l: nat)
    requires 0 < t <= |h.commits|
  {
    Covers(h.lockOf, h.commits[t - 1].writes, l)
  }

  /** No commit or commit attempt with a timestamp in (lo, hi] that might still succeed writes under lock l. */
  ghost predicate Quiet(h: History, l: nat, lo: nat, hi: nat)
    requires hi <= |h.commits|
  {
    forall t {:trigger Touches(h, t, l)} :: lo < t <= hi && !h.commits[t - 1].status.Aborted? ==> !Touches(h, t, l)
  }

  ghost predicate NoCommit(h: History, l: nat, lo: nat, hi: nat)
    requires hi <= |h.commits|
  {
    forall t {:trigger Touches(h, t, l)} :: lo < t <= hi && h.commits[t - 1].status.Committed? ==> !Touches(h, t, l)
  }

  ghost predicate NoPending(h: History, l: nat, hi: nat)
    requires hi <= |h.commits|
  {
    forall t {:trigger Touches(h, t, l)} :: 0 < t <= hi && h.commits[t - 1].status.Pending? ==> !Touches(h, t, l)
  }

  lemma {:induction false} ApplyUncovered(h: History, us: seq<Update>, x: Word, a: nat)
    requires !Covers(h.lockOf, us, LockIx(h.lockOf, a))
    ensures Apply(us, x, a) == x
  {
    forall k | 0 <= k < |us|
      ensures us[k].addr != a
    {
      if us[k].addr == a {
        assert Covers(h.lockOf, us, LockIx(h.lockOf, a));
      }
    }
    ApplyAbsent(us, x, a);
  }

  /** A word keeps its value over an interval of timestamps without a commit under its lock. */
  lemma {:induction false} ValueQuiet(h: History, lo: nat, hi: nat, a: nat)
    requires lo <= hi <= |h.commits|
    requires NoCommit(h, LockIx(h.lockOf, a), lo, hi)
    ensures ValueAt(h, hi, a) == ValueAt(h, lo, a)
    decreases hi
  {
    if lo < hi {
      var l := LockIx(h.lockOf, a);
      assert NoCommit(h, l, lo, hi - 1);
      ValueQuiet(h, lo, hi - 1, a);
      if h.commits[hi - 1].status.Committed? {
        assert !Touches(h, hi, l);
        ApplyUncovered(h, h.commits[hi - 1].writes, ValueAt(h, hi - 1, a), a);
      }
    }
  }

  /** How a history may change: timestamps are added at the end, pending ones are decided, nothing else. */
  ghost predicate Grows(h: History, h': History) {
    && h'.lockOf == h.lockOf && h'.init == h.init
    && |h.commits| <= |h'.commits|
    && forall t :: 0 <= t < |h.commits| ==>
         || h'.commits[t] == h.commits[t]
         || (h.commits[t].status.Pending? && exists st: Status :: h'.commits[t] == h.commits[t].(status := st))
  }

  /** Deciding pending timestamps does not change what is already fixed. */
  lemma {:induction false} ValueGrows(h: History, h': History, e: nat, a: nat)
    requires Grows(h, h') && e <= |h.commits|
    requires NoPending(h, LockIx(h.lockOf, a), e)
    ensures ValueAt(h', e, a) == ValueAt(h, e, a)
    decreases e
  {
    if e > 0 {
      var l := LockIx(h.lockOf, a);
      assert NoPending(h, l, e - 1);
      ValueGrows(h, h', e - 1, a);
      if !Touches(h, e, l) {
        ApplyUncovered(h, h.commits[e - 1].writes, ValueAt(h, e - 1, a), a);
      }
    }
  }

  lemma {:induction false} ValueAppend(h: History, c: Commit, e: nat, a: nat)
    requires e <= |h.commits|
    ensures ValueAt(h.(commits := h.commits + [c]), e, a) == ValueAt(h, e, a)
    decreases e
  {
    if e > 0 {
      ValueAppend(h, c, e - 1, a);
    }
  }

  /** The history after timestamp t has been decided. */
  function Record(h: History, t: nat, st: Status): History
    requires 0 < t <= |h.commits|
  {
    h.(commits := h.commits[t - 1 := h.commits[t - 1].(status := st)])
  }

  /** Deciding timestamp t leaves a word alone before t, when it aborts, and when t does not write under its lock. */
  lemma {:induction false} ValueRecord(h: History, t: nat, st: Status, e: nat, a: nat)
    requires 0 < t <= |h.commits| && e <= |h.commits| && h.commits[t - 1].status.Pending? && !st.Pending?
    requires e < t || st.Aborted? || !Touches(h, t, LockIx(h.lockOf, a))
    ensures ValueAt(Record(h, t, st), e, a) == ValueAt(h, e, a)
    decreases e
  {
    if e > 0 {
      ValueRecord(h, t, st, e - 1, a);
      if e == t && st.Committed? {
        ApplyUncovered(h, h.commits[t - 1].writes, ValueAt(h, e - 1, a), a);
      }
    }
  }

  lemma RecordGrows(h: History, t: nat, st: Status)
    requires 0 < t <= |h.commits| && h.commits[t - 1].status.Pending?
    ensures Grows(h, Record(h, t, st))
  {
  }

  lemma {:induction false} ApplyPrefix(us: seq<Update>, n: nat, x: Word, a: nat)
    requires n <= |us| && forall j :: n <= j < |us| ==> us[j].addr != a
    ensures Apply(us, x, a) == Apply(us[..n], x, a)
    decreases |us|
  {
    if n < |us| {
      ApplyPrefix(us[..|us| - 1], n, x, a);
      assert us[..|us| - 1][..n] == us[..n];
    } else {
      assert us[..n] == us;
    }
  }

  /** A memory read of version `version` is still what the e-th committed memory holds. */
  ghost predicate ReadHolds(h: History, op: Op, e: nat)
    requires e <= |h.commits|
  {
    op.Read? && op.source.Memory? ==>
      var l := LockIx(h.lockOf, op.addr);
      && op.source.version <= e
      && Quiet(h, l, op.source.version, e)
      && NoPending(h, l, op.source.version)
      && op.source.base == ValueAt(h, op.source.version, op.addr)
  }

  ghost predicate ReadsHold(h: History, log: seq<Op>, e: nat)
    requires e <= |h.commits|
  {
    forall k :: 0 <= k < |log| ==> ReadHolds(h, log[k], e)
  }

  lemma ReadGrows(h: History, h': History, op: Op, e: nat)
    requires Grows(h, h') && e <= |h.commits| && ReadHolds(h, op, e)
    ensures ReadHolds(h', op, e)
  {
    if op.Read? && op.source.Memory? {
      var l := LockIx(h.lockOf, op.addr);
      QuietGrows(h, h', l, op.source.version, e);
      NoPendingGrows(h, h', l, op.source.version);
      ValueGrows(h, h', op.source.version, op.addr);
    }
  }

  lemma ReadsGrow(h: History, h': History, log: seq<Op>, e: nat)
    requires Grows(h, h') && e <= |h.commits| && ReadsHold(h, log, e)
    ensures ReadsHold(h', log, e)
  {
    forall k | 0 <= k < |log|
      ensures ReadHolds(h', log[k], e)
    {
      ReadGrows(h, h', log[k], e);
    }
  }

  lemma QuietGrows(h: History, h': History, l: nat, lo: nat, hi: nat)
    requires Grows(h, h') && hi <= |h.commits| && Quiet(h, l, lo, hi)
    ensures Quiet(h', l, lo, hi)
  {
    forall t {:trigger Touches(h', t, l)} | lo < t <= hi && !h'.commits[t - 1].status.Aborted?
      ensures !Touches(h', t, l)
    {
      assert Touches(h', t, l) == Touches(h, t, l);
    }
  }

  lemma NoPendingGrows(h: History, h': History, l: nat, hi: nat)
    requires Grows(h, h') && hi <= |h.commits| && NoPending(h, l, hi)
    ensures NoPending(h', l, hi)
  {
    forall t {:trigger Touches(h', t, l)} | 0 < t <= hi && h'.commits[t - 1].status.Pending?
      ensures !Touches(h', t, l)
    {
      assert Touches(h', t, l) == Touches(h, t, l);
    }
  }

  lemma NoCommitShrinks(h: History, h': History, l: nat, lo: nat)
    requires Grows(h, h') && NoCommit(h', l, lo, |h'.commits|)
    ensures NoCommit(h, l, lo, |h.commits|)
  {
    forall t {:trigger Touches(h, t, l)} | lo < t <= |h.commits| && h.commits[t - 1].status.Committed?
      ensures !Touches(h, t, l)
    {
      assert Touches(h', t, l) == Touches(h, t, l);
    }
  }

  /** Extending the snapshot: a read that is quiet up to `now` holds there too. */
  lemma ReadMoves(h: History, op: Op, e: nat, now: nat)
    requires e <= |h.commits| && now <= |h.commits| && ReadHolds(h, op, e)
    requires op.Read? && op.source.Memory? ==>
               op.source.version <= now && Quiet(h, LockIx(h.lockOf, op.addr), op.source.version, now)
    ensures ReadHolds(h, op, now)
  {
  }

  // ---- what the invariants mean for a transaction ----

  /** The e-th committed memory as a whole. */
  function MemoryAt(h: History, e: nat): (m: seq<Word>)
    requires e <= |h.commits|
    ensures |m| == |h.init|
    ensures forall a :: 0 <= a < |m| ==> m[a] == ValueAt(h, e, a)
  {
    seq(|h.init|, a requires 0 <= a < |h.init| => ValueAt(h, e, a))
  }

  /** Executing one operation alone on a memory; None when a read does not return what the memory holds. */
  datatype Outcome = Legal(mem: seq<Word>) | Illegal

  function Replay(m: seq<Word>, log: seq<Op>): (r: Outcome)
    ensures r.Legal? ==> |r.mem| == |m|
  {
    if log == [] then Legal(m) else
      var before := Replay(m, log[..|log| - 1]);
      if before.Illegal? then Illegal else
        match log[|log| - 1]
        case Read(a, v, _) => if a < |m| && before.mem[a] == v then before else Illegal
        case Write(a, v, mask) => if a < |m| then Legal(before.mem[a := Merge(before.mem[a], v, mask)]) else Illegal
  }

  ghost predicate InRange(log: seq<Op>, n: nat) {
    forall k :: 0 <= k < |log| ==> log[k].addr < n
  }

  /** Every operand a read saw in memory is the content of the e-th committed memory. */
  ghost predicate SawMemory(h: History, log: seq<Op>, e: nat)
    requires e <= |h.commits|
  {
    forall k :: 0 <= k < |log| && log[k].Read? && !log[k].source.Buffer?
      ==> log[k].source.base == ValueAt(h, e, log[k].addr)
  }

  /** Such a transaction could have run alone, start to end, on the e-th committed memory. */
  lemma {:induction false} RunsAlone(h: History, log: seq<Op>, e: nat)
    requires e <= |h.commits| && LogAgrees(log) && InRange(log, |h.init|) && SawMemory(h, log, e)
    ensures var r := Replay(MemoryAt(h, e), log);
            r.Legal? && forall a :: 0 <= a < |h.init| ==> r.mem[a] == Effect(log, ValueAt(h, e, a), a)
    decreases |log|
  {
    if log != [] {
      var n := |log| - 1;
      var shorter := log[..n];
      forall k | 0 <= k < n
        ensures OpAgrees(shorter, k)
      {
        assert shorter[..k] == log[..k];
        assert OpAgrees(log, k);
      }
      RunsAlone(h, shorter, e);
      assert OpAgrees(log, n);
    }
  }

  lemma ReadsHoldSaw(h: History, log: seq<Op>, e: nat)
    requires e <= |h.commits| && ReadsHold(h, log, e)
    requires forall k :: 0 <= k < |log| && log[k].Read? && log[k].source.UnderOwnLock?
               ==> log[k].source.base == ValueAt(h, e, log[k].addr)
    ensures SawMemory(h, log, e)
  {
    forall k | 0 <= k < |log| && log[k].Read? && log[k].source.Memory?
      ensures log[k].source.base == ValueAt(h, e, log[k].addr)
    {
      assert ReadHolds(h, log[k], e);
      QuietNoCommit(h, LockIx(h.lockOf, log[k].addr), log[k].source.version, e);
      ValueQuiet(h, log[k].source.version, e, log[k].addr);
    }
  }

  lemma QuietNoCommit(h: History, l: nat, lo: nat, hi: nat)
    requires hi <= |h.commits| && Quiet(h, l, lo, hi)
    ensures NoCommit(h, l, lo, hi)
  {
  }

  /** What is added to a history leaves the earlier memories as they are. */
  lemma {:induction false} SameBefore(h: History, h': History, e: nat)
    requires h'.init == h.init && e <= |h.commits| <= |h'.commits| && h'.commits[..|h.commits|] == h.commits
    ensures MemoryAt(h', e) == MemoryAt(h, e)
  {
    forall a | 0 <= a < |h.init|
      ensures ValueAt(h', e, a) == ValueAt(h, e, a)
    {
      SameValue(h, h', e, a);
    }
  }

  lemma {:induction false} SameValue(h: History, h': History, e: nat, a: nat)
    requires h'.init == h.init && e <= |h.commits| <= |h'.commits| && h'.commits[..|h.commits|] == h.commits
    ensures ValueAt(h', e, a) == ValueAt(h, e, a)
    decreases e
  {
    if e > 0 {
      SameValue(h, h', e - 1, a);
      assert h'.commits[e - 1] == h'.commits[..|h.commits|][e - 1];
    }
  }

  lemma {:induction false} ReplayEffect(m: seq<Word>, log: seq<Op>)
    requires Replay(m, log).Legal?
    ensures forall a :: 0 <= a < |m| ==> Replay(m, log).mem[a] == Effect(log, m[a], a)
    decreases |log|
  {
    hide Merge;
    if log != [] { ReplayEffect(m, log[..|log| - 1]); }
  }
}
