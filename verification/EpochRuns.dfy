/** What the operations of the collector come to: the bound of a scan, a thread that comes, frees and goes undisturbed,
    and where the blocks are. */
module EpochRuns {
  import opened Counting
  import opened EpochGc

  lemma {:induction false} ExecShape(s: State, run: seq<Action>)
    ensures |Exec(s, run).threads| == |s.threads| && |Exec(s, run).slots| == |s.slots|
    decreases |run|
  {
    hide Next, Enabled;
    if run != [] {
      var n := |run| - 1;
      ExecShape(s, run[..n]);
      if Enabled(Exec(s, run[..n]), run[n]) { SameThreads(Exec(s, run[..n]), run[n]); }
    }
  }

  // ---- the bound of a scan is attained ----

  predicate Scanning(pc: Pc) {
    pc.ScanUsed? || pc.ScanTs? || pc.Reclaim?
  }

  predicate HoldsEpoch(s: State, i: nat, e: nat) {
    i < |s.slots| && s.slots[i].used == Busy && s.slots[i].ts == At(e)
  }

  lemma ScanEnds(s: State, t: nat)
    requires t < |s.threads| && Enabled(s, Step(t)) && Scanning(Next(s, Step(t)).threads[t].pc)
    ensures !s.threads[t].pc.CleanRead? ==> Scanning(s.threads[t].pc)
  {
    hide Running, AddBlock;
  }

  /** The bound that a scan has found is the clock that the clean-up read, or the epoch that a slot in use held at a
      later moment of the same scan. */
  /** Thread t's clean-up read the clock at moment c of the run, and has been scanning since. */
  ghost predicate ScansSince(s0: State, run: seq<Action>, t: nat, c: nat) {
    && c < |run| && run[c] == Step(t) && t < |Exec(s0, run[..c]).threads|
    && Exec(s0, run[..c]).threads[t].pc.CleanRead?
    && forall q :: c < q <= |run| ==> ScansAt(s0, run[..q], t)
  }

  ghost predicate ScansAt(s0: State, run: seq<Action>, t: nat) {
    t < |Exec(s0, run).threads| && Scanning(Exec(s0, run).threads[t].pc)
  }

  /** A slot in use had epoch e at moment p of the run. */
  ghost predicate HeldEpoch(s0: State, run: seq<Action>, p: nat, e: nat) {
    p < |run| && exists i: nat :: HoldsEpoch(Exec(s0, run[..p]), i, e)
  }

  lemma {:induction false} Extends(s0: State, run: seq<Action>, t: nat, c: nat)
    requires run != [] && ScansSince(s0, run[..|run| - 1], t, c) && ScansAt(s0, run, t)
    ensures ScansSince(s0, run, t, c)
  {
    var n := |run| - 1;
    hide ScansAt, Exec;
    assert run[..n][..c] == run[..c];
    forall q | c < q <= |run|
      ensures ScansAt(s0, run[..q], t)
    {
      if q <= n { assert run[..q] == run[..n][..q]; } else { assert run[..q] == run; }
    }
  }

  /** The bound that a scan has found is the clock that the clean-up read, or the epoch that a slot in use held at a
      later moment of the same scan. */
  lemma {:induction false} BoundAttained(s0: State, run: seq<Action>, t: nat) returns (c: nat, p: nat)
    requires Initial(s0) && t < |Exec(s0, run).threads| && Scanning(Exec(s0, run).threads[t].pc)
    ensures ScansSince(s0, run, t, c)
    ensures var min := Exec(s0, run).threads[t].pc.min;
            min == Exec(s0, run[..c]).clock || (c < p && HeldEpoch(s0, run, p, min))
    decreases |run|
  {
    assert run != [] by { assert run == [] ==> Exec(s0, run) == s0; }
    var n := |run| - 1;
    var before := Exec(s0, run[..n]);
    var s := Exec(s0, run);
    InitialInv(s0);
    ExecInv(s0, run[..n]);
    assert ScansAt(s0, run, t);
    assert run[..|run|] == run;
    ScanTurnOf(before, run[n], t);
    hide Inv, Exec, Initial, Enabled, Next, HoldsEpoch, Scanning;
    if run[n] == Step(t) && before.threads[t].pc.CleanRead? {
      c, p := n, n;
    } else {
      c, p := BoundAttained(s0, run[..n], t);
      Extends(s0, run, t, c);
      hide ScansSince;
      assert run[..n][..c] == run[..c];
      if s.threads[t].pc.min != before.threads[t].pc.min {
        p := n;
      } else if c < p && HeldEpoch(s0, run[..n], p, before.threads[t].pc.min) {
        assert run[..n][..p] == run[..p];
      }
    }
  }

  lemma ScanTurnOf(s: State, a: Action, t: nat)
    requires Inv(s)
    requires var r := if Enabled(s, a) then Next(s, a) else s;
             t < |r.threads| && Scanning(r.threads[t].pc)
    ensures t < |s.threads|
    ensures var r := if Enabled(s, a) then Next(s, a) else s;
            if a == Step(t) && s.threads[t].pc.CleanRead? then r.threads[t].pc.min == s.clock
            else Scanning(s.threads[t].pc)
                 && (r.threads[t].pc.min == s.threads[t].pc.min
                     || (s.threads[t].pc.ScanTs? && HoldsEpoch(s, s.threads[t].pc.i, r.threads[t].pc.min)))
  {
    if Enabled(s, a) { SameThreads(s, a); }
    if a == Step(t) && Enabled(s, a) {
      if s.threads[t].pc.CleanRead? {
        CleanReads(s, t);
      } else {
        ScanEnds(s, t);
        BoundStep(s, a, t);
      }
    }
    hide Inv, Next;
  }

  lemma CleanReads(s: State, t: nat)
    requires t < |s.threads| && s.threads[t].pc.CleanRead? && Enabled(s, Step(t))
    ensures var r := Next(s, Step(t));
            |r.threads| == |s.threads| && (Scanning(r.threads[t].pc) ==> r.threads[t].pc == ScanUsed(0, s.clock))
  {
  }

  lemma BoundStep(s: State, a: Action, t: nat)
    requires Inv(s) && t < |s.threads| && Scanning(s.threads[t].pc)
    requires Enabled(s, a) ==> |Next(s, a).threads| == |s.threads| && Scanning(Next(s, a).threads[t].pc)
    ensures Enabled(s, a) && Next(s, a).threads[t].pc.min != s.threads[t].pc.min ==>
              s.threads[t].pc.ScanTs? && HoldsEpoch(s, s.threads[t].pc.i, Next(s, a).threads[t].pc.min)
  {
    hide ThreadsOk, OwnersOk, ScansOk, AllRegionsOk, Running, AddBlock;
  }

  // ---- a thread alone ----

  /** Thread t makes its next access, if it is in the collector. */
  function Now(s: State, t: nat): State {
    if Enabled(s, Step(t)) then Next(s, Step(t)) else s
  }

  function Alone(s: State, t: nat, m: nat): State
    decreases m
  {
    if m == 0 then s else Alone(Now(s, t), t, m - 1)
  }

  lemma {:induction false} AloneThen(s: State, t: nat, m: nat, more: nat)
    ensures Alone(s, t, m + more) == Alone(Alone(s, t, m), t, more)
    decreases m
  {
    hide Now;
    if m > 0 { AloneThen(Now(s, t), t, m - 1, more); }
  }

  lemma {:induction false} AloneIsRun(s: State, t: nat, m: nat)
    ensures Alone(s, t, m) == Exec(s, seq(m, _ => Step(t)))
    decreases m
  {
    hide Next, Enabled;
    if m > 0 {
      AloneIsRun(s, t, m - 1);
      AloneThen(s, t, m - 1, 1);
      assert Alone(Alone(s, t, m - 1), t, 1) == Now(Alone(s, t, m - 1), t);
      assert seq(m, _ => Step(t))[..m - 1] == seq(m - 1, _ => Step(t));
    }
  }

  /** `min` is the least of the clock and the epochs of the first n slots that are in use. */
  ghost predicate LeastOf(s: State, min: nat, n: nat) {
    && min <= s.clock
    && (forall j :: 0 <= j < n && j < |s.slots| && s.slots[j].used == Busy ==>
        s.slots[j].ts.At? && min <= s.slots[j].ts.e)
    && (min == s.clock || exists j: nat :: j < n && HoldsEpoch(s, j, min))
  }

  /** Nobody is between claiming its slot and giving it an epoch, or between taking back its epoch and giving up its
      slot. */
  predicate Settled(s: State) {
    forall i :: 0 <= i < |s.slots| && s.slots[i].used == Busy ==> s.slots[i].ts.At?
  }

  predicate Prefix(s: State) {
    forall i, j :: 0 <= i < j < |s.slots| && s.slots[j].used != Null ==> s.slots[i].used != Null
  }

  lemma ScanTurn(s: State, t: nat, i: nat, min: nat) returns (n: nat, next: nat)
    requires t < |s.threads| && s.threads[t].pc == ScanUsed(i, min) && s.threads[t].idx < |s.slots|
    requires Settled(s) && i < |s.slots| && s.slots[i].used != Null
    ensures Alone(s, t, n) == Put(s, t, s.threads[t].(pc := ScanUsed(i + 1, next)))
    ensures next == if s.slots[i].used == Busy && s.slots[i].ts.e < min then s.slots[i].ts.e else min
  {
    var s1 := Now(s, t);
    assert Alone(s, t, 1) == Alone(s1, t, 0) == s1;
    assert Alone(s, t, 2) == Alone(s1, t, 1) == Alone(Now(s1, t), t, 0) == Now(s1, t);
    if s.slots[i].used == Busy {
      n, next := 2, if s.slots[i].ts.e < min then s.slots[i].ts.e else min;
      assert s1 == Put(s, t, s.threads[t].(pc := ScanTs(i, min)));
    } else {
      n, next := 1, min;
    }
  }

  lemma ScanStops(s: State, t: nat, i: nat, min: nat)
    requires t < |s.threads| && s.threads[t].pc == ScanUsed(i, min) && s.threads[t].idx < |s.slots|
    requires i >= |s.slots| || s.slots[i].used == Null
    ensures Alone(s, t, 1) == Put(s, t, s.threads[t].(pc := Reclaim(min)))
  {
    assert Alone(s, t, 1) == Alone(Now(s, t), t, 0) == Now(s, t);
  }

  lemma LeastNext(s: State, i: nat, min: nat)
    requires i < |s.slots| && Settled(s) && LeastOf(s, min, i)
    ensures LeastOf(s, if s.slots[i].used == Busy && s.slots[i].ts.e < min then s.slots[i].ts.e else min, i + 1)
  {
    if s.slots[i].used == Busy && s.slots[i].ts.e < min {
      assert HoldsEpoch(s, i, s.slots[i].ts.e);
    }
  }

  lemma LeastEnd(s: State, i: nat, min: nat)
    requires Prefix(s) && LeastOf(s, min, i) && (i >= |s.slots| || s.slots[i].used == Null)
    ensures LeastOf(s, min, |s.slots|)
  {
  }

  /** The scan alone, from slot i on. */
  lemma {:induction false} ScanAlone(s: State, t: nat, i: nat, min: nat) returns (m: nat, least: nat)
    requires t < |s.threads| && s.threads[t].pc == ScanUsed(i, min) && s.threads[t].idx < |s.slots|
    requires Settled(s) && Prefix(s) && LeastOf(s, min, i)
    ensures Alone(s, t, m) == Put(s, t, s.threads[t].(pc := Reclaim(least)))
    ensures LeastOf(s, least, |s.slots|)
    decreases |s.slots| - i
  {
    hide Alone, HoldsEpoch, LeastOf;
    if i >= |s.slots| || s.slots[i].used == Null {
      m, least := 1, min;
      ScanStops(s, t, i, min);
      LeastEnd(s, i, min);
    } else {
      var n, next := ScanTurn(s, t, i, min);
      var s1 := Put(s, t, s.threads[t].(pc := ScanUsed(i + 1, next)));
      LeastNext(s, i, min);
      SameSlots(s, s1, next, i + 1);
      assert Settled(s1) && Prefix(s1);
      hide Settled, Prefix;
      var rest;
      rest, least := ScanAlone(s1, t, i + 1, next);
      m := n + rest;
      AloneThen(s, t, n, rest);
      SameSlots(s1, s, least, |s.slots|);
      assert Put(s1, t, s1.threads[t].(pc := Reclaim(least))) == Put(s, t, s.threads[t].(pc := Reclaim(least)));
    }
  }

  lemma SameSlots(s: State, r: State, min: nat, n: nat)
    requires s.slots == r.slots && s.clock == r.clock && LeastOf(s, min, n)
    ensures LeastOf(r, min, n)
  {
    if min != s.clock {
      var j: nat :| j < n && HoldsEpoch(s, j, min);
      assert HoldsEpoch(r, j, min);
    }
  }

  /** The state in which thread t is idle again and its slot has the regions `rs`. */
  function Done(s: State, t: nat, rs: seq<Region>): State
    requires t < |s.threads| && s.threads[t].idx < |s.slots|
  {
    var i := s.threads[t].idx;
    PutSlot(Put(s, t, s.threads[t].(pc := Idle)), i, s.slots[i].(regions := rs))
  }

  lemma {:induction false} ReclaimAlone(s: State, t: nat) returns (m: nat)
    requires t < |s.threads| && s.threads[t].pc.Reclaim? && s.threads[t].idx < |s.slots|
    ensures Alone(s, t, m) == Done(s, t, Drop(s.slots[s.threads[t].idx].regions, s.threads[t].pc.min))
    decreases |s.slots[s.threads[t].idx].regions|
  {
    var i := s.threads[t].idx;
    var min := s.threads[t].pc.min;
    var rs := s.slots[i].regions;
    if rs != [] && min > rs[0].ts {
      var s1 := PutSlot(s, i, s.slots[i].(regions := rs[1..]));
      assert Now(s, t) == s1;
      m := ReclaimAlone(s1, t);
      m := m + 1;
      assert Done(s1, t, Drop(rs[1..], min)) == Done(s, t, Drop(rs, min));
    } else {
      m := 1;
      assert Alone(s, t, 1) == Alone(Now(s, t), t, 0) == Now(s, t);
      assert s.slots[i := s.slots[i].(regions := rs)] == s.slots;
    }
  }

  /** When the slots stand still, a clean-up by itself finds the least of the clock and the epochs in use, and leaves
      exactly the regions that are not older. */
  lemma CleansAlone(s: State, t: nat) returns (m: nat, min: nat)
    requires Reachable(s) && t < |s.threads| && s.threads[t].pc.CleanRead? && Settled(s)
    ensures s.threads[t].idx < |s.slots| && LeastOf(s, min, |s.slots|)
    ensures Exec(s, seq(m, _ => Step(t))) == Done(s, t, Drop(s.slots[s.threads[t].idx].regions, min))
  {
    IdleSlot(s, t);
    m, min := Cleans(s, t);
    AloneIsRun(s, t, m);
  }

  lemma Cleans(s: State, t: nat) returns (m: nat, min: nat)
    requires t < |s.threads| && s.threads[t].pc.CleanRead? && Settled(s) && Prefix(s) && s.threads[t].idx < |s.slots|
    ensures LeastOf(s, min, |s.slots|)
    ensures Alone(s, t, m) == Done(s, t, Drop(s.slots[s.threads[t].idx].regions, min))
  {
    var i := s.threads[t].idx;
    var rs := s.slots[i].regions;
    var s1 := Put(s, t, s.threads[t].(pc := ScanUsed(0, s.clock)));
    assert LeastOf(s1, s.clock, 0);
    var scan;
    scan, min := ScanAlone(s1, t, 0, s.clock);
    SameSlots(s1, s, min, |s.slots|);
    if rs == [] {
      m := 1;
      assert Alone(s, t, 1) == Alone(Now(s, t), t, 0) == Now(s, t);
      assert s.slots[i := s.slots[i].(regions := rs)] == s.slots;
    } else {
      assert Now(s, t) == s1;
      var s2 := Put(s1, t, s1.threads[t].(pc := Reclaim(min)));
      var reclaim := ReclaimAlone(s2, t);
      m := 1 + (scan + reclaim);
      AloneThen(s1, t, scan, reclaim);
      assert Done(s2, t, Drop(rs, min)) == Done(s, t, Drop(rs, min));
    }
    hide LeastOf, Settled, Prefix, Drop;
  }

  lemma SameRunning(s: State, r: State)
    requires |s.threads| == |r.threads|
    requires forall t :: 0 <= t < |s.threads| ==>
               s.threads[t].inTx == r.threads[t].inTx && s.threads[t].round == r.threads[t].round
    ensures Running(s) == Running(r)
  {
  }

  /** A block that is freed while the slots stand still joins the region of the present epoch, and the regions older
      than every epoch in use go. */
  lemma FreesAlone(s: State, t: nat, addr: nat) returns (m: nat, min: nat)
    requires Reachable(s) && t < |s.threads| && s.threads[t].pc.Idle? && Settled(s)
    ensures s.threads[t].idx < |s.slots| && LeastOf(s, min, |s.slots|)
    ensures var rs := s.slots[s.threads[t].idx].regions;
            Exec(s, [Free(t, addr)] + seq(m, _ => Step(t)))
            == Done(s, t, Drop(AddBlock(rs, Block(addr, Running(s)), s.clock), min))
  {
    IdleSlot(s, t);
    hide Reachable, Running, AddBlock, Drop, LeastOf, Settled, Prefix;
    var rs := AddBlock(s.slots[s.threads[t].idx].regions, Block(addr, Running(s)), s.clock);
    var s1 := Next(s, Free(t, addr));
    FreeTurns(s, t, addr);
    hide Next;
    m, min := Frees(s, t, rs);
    AloneThen(s1, t, 2, m);
    m := 2 + m;
    AloneIsRun(s1, t, m);
    ExecFirst(s, Free(t, addr), seq(m, _ => Step(t)));
    hide Alone, Exec, Done, Cleaning;
  }

  /** Thread t is about to clean up, and its slot has the regions `rs`. */
  function Cleaning(s: State, t: nat, rs: seq<Region>): State
    requires t < |s.threads| && s.threads[t].idx < |s.slots|
  {
    var i := s.threads[t].idx;
    PutSlot(Put(s, t, s.threads[t].(pc := CleanRead)), i, s.slots[i].(regions := rs))
  }

  lemma {:induction false} Frees(s: State, t: nat, rs: seq<Region>) returns (m: nat, min: nat)
    requires t < |s.threads| && s.threads[t].idx < |s.slots| && Settled(s) && Prefix(s)
    ensures LeastOf(s, min, |s.slots|)
    ensures Alone(Cleaning(s, t, rs), t, m) == Done(s, t, Drop(rs, min))
  {
    var r := Cleaning(s, t, rs);
    m, min := Cleans(r, t);
    LeastKept(r, s, min, |s.slots|);
    hide Drop, LeastOf, Alone;
    assert Done(r, t, Drop(rs, min)) == Done(s, t, Drop(rs, min));
  }

  lemma IdleSlot(s: State, t: nat)
    requires Reachable(s) && t < |s.threads| && (s.threads[t].pc.Idle? || s.threads[t].pc.CleanRead?)
    ensures s.threads[t].idx < |s.slots| && Prefix(s)
  {
    ReachableInv(s);
    assert ThreadOk(s, t);
  }

  lemma FreeTurns(s: State, t: nat, addr: nat)
    requires t < |s.threads| && s.threads[t].pc.Idle? && s.threads[t].idx < |s.slots|
    ensures Alone(Next(s, Free(t, addr)), t, 2)
            == Cleaning(s, t, AddBlock(s.slots[s.threads[t].idx].regions, Block(addr, Running(s)), s.clock))
  {
    var i := s.threads[t].idx;
    var b := Block(addr, Running(s));
    var s1 := Next(s, Free(t, addr));
    var s2 := Put(s, t, s.threads[t].(pc := FreeAdd(b, s.clock)));
    var s3 := Cleaning(s, t, AddBlock(s.slots[i].regions, b, s.clock));
    SameRunning(s, s1);
    hide Running, AddBlock;
    assert Now(s1, t) == s2 && Now(s2, t) == s3;
    assert Alone(s1, t, 2) == Alone(s2, t, 1) == Alone(s3, t, 0);
  }

  lemma LeastKept(s: State, r: State, min: nat, n: nat)
    requires s.clock == r.clock && |s.slots| == |r.slots| && LeastOf(s, min, n)
    requires forall i :: 0 <= i < |s.slots| ==> s.slots[i].used == r.slots[i].used && s.slots[i].ts == r.slots[i].ts
    ensures LeastOf(r, min, n)
  {
    if min != s.clock {
      var j: nat :| j < n && HoldsEpoch(s, j, min);
      assert HoldsEpoch(r, j, min);
    }
  }

  lemma {:induction false} ExecFirst(s: State, a: Action, run: seq<Action>)
    ensures Exec(s, [a] + run) == Exec(if Enabled(s, a) then Next(s, a) else s, run)
    decreases |run|
  {
    hide Next, Enabled;
    assert Exec(s, []) == s;
    if run == [] {
      assert [a] + run == [a] && [a][..0] == [];
    } else {
      assert ([a] + run)[..|run|] == [a] + run[..|run| - 1];
      ExecFirst(s, a, run[..|run| - 1]);
    }
  }

  // ---- coming and going ----

  /** A transaction past its beginning has its start time in the thread's slot. */
  ghost predicate StartsStored(s: State) {
    forall t :: 0 <= t < |s.threads| ==> StartStored(s, t)
  }

  ghost predicate StartStored(s: State, t: nat)
    requires t < |s.threads|
  {
    s.threads[t].inTx && !s.threads[t].pc.SetEpoch? ==> HoldsEpoch(s, s.threads[t].idx, s.threads[t].start)
  }

  lemma StartKept(s: State, a: Action, t: nat)
    requires Inv(s) && Enabled(s, a) && t < |s.threads| && StartStored(s, t)
    ensures t < |Next(s, a).threads| && StartStored(Next(s, a), t)
  {
    SameThreads(s, a);
    assert ThreadOk(s, t);
    if a.Tick? || a.t != t {
      if s.threads[t].inTx { NotMine(s, a, t); }
      TargetOnly(s, a);
      hide Next, Inv, Target;
    } else {
      hide Inv, Running, AddBlock;
    }
  }

  lemma {:induction false} StartsKept(s0: State, run: seq<Action>)
    requires Initial(s0)
    ensures StartsStored(Exec(s0, run))
    decreases |run|
  {
    if run != [] {
      var n := |run| - 1;
      var before := Exec(s0, run[..n]);
      StartsKept(s0, run[..n]);
      InitialInv(s0);
      ExecInv(s0, run[..n]);
      hide Inv;
      if Enabled(before, run[n]) {
        SameThreads(before, run[n]);
        forall t | 0 <= t < |before.threads|
          ensures StartStored(Next(before, run[n]), t)
        {
          StartKept(before, run[n], t);
        }
      }
      hide Next, StartStored;
    }
  }

  /** While a transaction runs, its thread's slot holds the transaction's own start time. */
  lemma EpochIsStart(s: State, t: nat)
    requires Reachable(s) && t < |s.threads| && s.threads[t].inTx && !s.threads[t].pc.SetEpoch?
    ensures HoldsEpoch(s, s.threads[t].idx, s.threads[t].start)
  {
    hide Initial;
    var s0: State, run: seq<Action> :| Initial(s0) && s == Exec(s0, run);
    StartsKept(s0, run);
    assert StartStored(s, t);
  }

  ghost predicate OwnedBy(s: State, i: nat, t: nat) {
    t < |s.threads| && Registered(s.threads[t].pc) && s.threads[t].idx == i
  }

  ghost predicate Owned(s: State, i: nat) {
    exists t: nat :: OwnedBy(s, i, t)
  }

  /** The threads that are counted. */
  function Present(s: State): set<nat> {
    set t | 0 <= t < |s.threads| && !s.threads[t].pc.Out?
  }

  /** A slot in use is some thread's, and `active` counts the threads that have come and not left. */
  ghost predicate CountedOk(s: State) {
    && (forall i :: 0 <= i < |s.slots| && s.slots[i].used == Busy ==> Owned(s, i))
    && s.active == |Present(s)|
  }

  lemma OwnerKept(s: State, a: Action, i: nat)
    requires Inv(s) && Enabled(s, a) && i < |s.slots| && (s.slots[i].used == Busy ==> Owned(s, i))
    ensures i < |Next(s, a).slots|
    ensures Next(s, a).slots[i].used == Busy ==> Owned(Next(s, a), i)
  {
    SameThreads(s, a);
    TargetOnly(s, a);
    var r := Next(s, a);
    if r.slots[i].used == Busy {
      if s.slots[i].used == Busy {
        var t: nat :| OwnedBy(s, i, t);
        OwnerStays(s, a, i, t);
      } else {
        assert Target(s, a) == i;
        assert a.Step?;
        assert ThreadOk(s, a.t);
        assert OwnedBy(r, i, a.t) by { hide Inv, Running, AddBlock; }
      }
    }
  }

  lemma OwnerStays(s: State, a: Action, i: nat, t: nat)
    requires Enabled(s, a) && i < |s.slots| && OwnedBy(s, i, t) && |Next(s, a).slots| == |s.slots|
    ensures Next(s, a).slots[i].used == Busy ==> OwnedBy(Next(s, a), i, t)
  {
    hide Running, AddBlock;
    SameThreads(s, a);
  }

  lemma PresentKept(s: State, a: Action)
    requires Enabled(s, a) && s.active == |Present(s)|
    ensures Next(s, a).active == |Present(Next(s, a))|
  {
    var r := Next(s, a);
    SameThreads(s, a);
    ActiveSteps(s, a);
    var t := if a.Tick? then 0 else a.t;
    hide Next, Enabled;
    PresentChange(s, r, t);
    hide Present;
  }

  lemma PresentChange(s: State, r: State, t: nat)
    requires |r.threads| == |s.threads|
    requires forall u :: 0 <= u < |s.threads| && u != t ==> r.threads[u] == s.threads[u]
    ensures t < |s.threads| && !s.threads[t].pc.Out? && r.threads[t].pc.Out? ==> |Present(r)| == |Present(s)| - 1
    ensures t < |s.threads| && s.threads[t].pc.Out? && !r.threads[t].pc.Out? ==> |Present(r)| == |Present(s)| + 1
    ensures t < |s.threads| ==> (s.threads[t].pc.Out? == r.threads[t].pc.Out? ==> |Present(r)| == |Present(s)|)
    ensures t >= |s.threads| ==> |Present(r)| == |Present(s)|
  {
    var p, q := Present(s), Present(r);
    assert p - {t} == q - {t};
    assert t in p <==> t < |s.threads| && !s.threads[t].pc.Out?;
    assert t in q <==> t < |s.threads| && !r.threads[t].pc.Out?;
    hide Present;
    SizeWithout(p, t);
    SizeWithout(q, t);
  }

  lemma SizeWithout(p: set<nat>, t: nat)
    ensures |p| == |p - {t}| + One(t in p)
  {
    if t in p { assert p == (p - {t}) + {t}; } else { assert p == p - {t}; }
  }

  lemma ActiveSteps(s: State, a: Action)
    requires Enabled(s, a)
    ensures |Next(s, a).threads| == |s.threads|
    ensures var r := Next(s, a);
            if a.Enter? then s.threads[a.t].pc.Out? && !r.threads[a.t].pc.Out? && r.active == s.active + 1
            else if a.Step? && s.threads[a.t].pc.Uncount?
            then r.threads[a.t].pc.Out? && r.active == (if s.active > 0 then s.active - 1 else 0)
            else r.active == s.active && (!a.Tick? ==> (r.threads[a.t].pc.Out? <==> s.threads[a.t].pc.Out?))
  {
    hide Running, AddBlock;
  }

  lemma {:induction false} CountsKept(s0: State, run: seq<Action>)
    requires Initial(s0)
    ensures CountedOk(Exec(s0, run))
    decreases |run|
  {
    if run == [] {
      assert Present(s0) == {};
    } else {
      var n := |run| - 1;
      var before := Exec(s0, run[..n]);
      CountsKept(s0, run[..n]);
      InitialInv(s0);
      ExecInv(s0, run[..n]);
      hide Inv, Owned;
      if Enabled(before, run[n]) {
        SameThreads(before, run[n]);
        PresentKept(before, run[n]);
        forall i | 0 <= i < |before.slots|
          ensures Next(before, run[n]).slots[i].used == Busy ==> Owned(Next(before, run[n]), i)
        {
          OwnerKept(before, run[n], i);
        }
      }
      hide Next, Present;
    }
  }

  function OwnersBelow(s: State, n: nat): set<nat> {
    set t | 0 <= t < |s.threads| && Registered(s.threads[t].pc) && s.threads[t].idx < n
  }

  lemma {:induction false} ManyOwners(s: State, n: nat)
    requires n <= |s.slots| && forall i :: 0 <= i < n ==> Owned(s, i)
    ensures |OwnersBelow(s, n)| >= n
    decreases n
  {
    if n > 0 {
      ManyOwners(s, n - 1);
      assert Owned(s, n - 1);
      var t: nat :| OwnedBy(s, n - 1, t);
      assert OwnersBelow(s, n - 1) <= OwnersBelow(s, n) - {t};
      Subset(OwnersBelow(s, n - 1), OwnersBelow(s, n) - {t});
    }
  }

  lemma {:induction false} Subset<T>(a: set<T>, b: set<T>)
    requires a <= b
    ensures |a| <= |b|
    decreases |a|
  {
    if a != {} {
      var x :| x in a;
      Subset(a - {x}, b - {x});
    }
  }

  /** A thread that is allowed in finds a slot that nobody uses. */
  lemma SlotAvailable(s: State) returns (i: nat)
    requires Reachable(s) && s.active < |s.slots|
    ensures i < |s.slots| && s.slots[i].used != Busy && forall j :: 0 <= j < i ==> s.slots[j].used == Busy
  {
    hide Initial;
    var s0: State, run: seq<Action> :| Initial(s0) && s == Exec(s0, run);
    CountsKept(s0, run);
    hide Owned;
    i := 0;
    while i < |s.slots| && s.slots[i].used == Busy
      invariant i <= |s.slots| && forall j :: 0 <= j < i ==> s.slots[j].used == Busy
    {
      i := i + 1;
    }
    if i == |s.slots| {
      ManyOwners(s, i);
      Subset(OwnersBelow(s, i), Present(s));
    }
  }

  lemma {:induction false} FindsAlone(s: State, t: nat, j: nat, i: nat)
    requires t < |s.threads| && j <= i < |s.slots| && s.threads[t].pc == Find(j)
    requires s.slots[i].used != Busy && forall k :: j <= k < i ==> s.slots[k].used == Busy
    ensures Alone(s, t, i - j) == Put(s, t, s.threads[t].(pc := Find(i)))
    decreases i - j
  {
    if j < i {
      var s1 := Put(s, t, s.threads[t].(pc := Find(j + 1)));
      assert Now(s, t) == s1;
      FindsAlone(s1, t, j + 1, i);
      assert Put(s1, t, s1.threads[t].(pc := Find(i))) == Put(s, t, s.threads[t].(pc := Find(i)));
    }
  }

  /** Thread t is registered in slot i with the present epoch; what the slot holds from its last owner stays. */
  function In(s: State, t: nat, i: nat): State
    requires t < |s.threads| && i < |s.slots|
  {
    PutSlot(Put(s, t, s.threads[t].(pc := Idle, idx := i)), i, Slot(Busy, At(s.clock), s.slots[i].regions))
  }

  lemma ClaimTurns(s: State, t: nat, i: nat)
    requires t < |s.threads| && i < |s.slots| && s.threads[t].pc == Find(i) && s.slots[i].used != Busy
    ensures Now(Now(s, t), t)
            == PutSlot(Put(s, t, s.threads[t].(pc := ReadEpoch, idx := i)), i, s.slots[i].(used := Busy))
  {
    var s1 := Put(s, t, s.threads[t].(pc := Claim(i, s.slots[i].used)));
    assert Now(s, t) == s1;
  }

  lemma EpochTurns(s: State, t: nat)
    requires t < |s.threads| && s.threads[t].pc == ReadEpoch && s.threads[t].idx < |s.slots|
    ensures var i := s.threads[t].idx;
            Now(Now(s, t), t) == PutSlot(Put(s, t, s.threads[t].(pc := Idle)), i, s.slots[i].(ts := At(s.clock)))
  {
    var s1 := Put(s, t, s.threads[t].(pc := WriteEpoch(s.clock)));
    assert Now(s, t) == s1;
  }

  lemma ClaimsAlone(s: State, t: nat, i: nat)
    requires t < |s.threads| && i < |s.slots| && s.threads[t].pc == Find(i) && s.slots[i].used != Busy
    ensures Alone(s, t, 4) == In(s, t, i)
  {
    var s2 := PutSlot(Put(s, t, s.threads[t].(pc := ReadEpoch, idx := i)), i, s.slots[i].(used := Busy));
    ClaimTurns(s, t, i);
    EpochTurns(s2, t);
    hide Now;
    TwoTurns(s, t);
    TwoTurns(s2, t);
    AloneThen(s, t, 2, 2);
    hide Alone;
    assert Alone(s2, t, 2) == In(s, t, i);
  }

  lemma TwoTurns(s: State, t: nat)
    ensures Alone(s, t, 2) == Now(Now(s, t), t)
  {
    assert Alone(s, t, 2) == Alone(Now(s, t), t, 1) == Alone(Now(Now(s, t), t), t, 0);
  }

  /** A thread that comes while nobody else moves gets the first slot that is free. */
  lemma EntersAlone(s: State, t: nat) returns (m: nat, i: nat)
    requires Reachable(s) && Enabled(s, Enter(t))
    ensures i < |s.slots| && s.slots[i].used != Busy && forall j :: 0 <= j < i ==> s.slots[j].used == Busy
    ensures Exec(s, [Enter(t)] + seq(m, _ => Step(t))) == In(s, t, i).(active := s.active + 1)
  {
    i := SlotAvailable(s);
    var s1 := Next(s, Enter(t));
    FindsAlone(s1, t, 0, i);
    var s2 := Put(s1, t, s1.threads[t].(pc := Find(i)));
    ClaimsAlone(s2, t, i);
    AloneThen(s1, t, i, 4);
    m := i + 4;
    AloneIsRun(s1, t, m);
    ExecFirst(s, Enter(t), seq(m, _ => Step(t)));
    hide Alone, Exec, Reachable;
    assert In(s2, t, i) == In(s, t, i).(active := s.active + 1);
  }

  /** A transaction that begins makes the present clock its thread's epoch. */
  lemma BeginsAlone(s: State, t: nat)
    requires Reachable(s) && Enabled(s, Begin(t))
    ensures s.threads[t].idx < |s.slots|
    ensures var th := s.threads[t];
            Exec(s, [Begin(t), Step(t)])
            == PutSlot(Put(s, t, th.(inTx := true, start := s.clock, round := th.round + 1)), th.idx,
                       s.slots[th.idx].(ts := At(s.clock)))
  {
    IdleSlot(s, t);
    BeginTurns(s, t);
    var s1 := Next(s, Begin(t));
    var s2 := Next(s1, Step(t));
    hide Reachable, Next;
    ExecFirst(s, Begin(t), [Step(t)]);
    assert [Begin(t)] + [Step(t)] == [Begin(t), Step(t)] && [Step(t)][..0] == [];
    assert Exec(s1, []) == s1;
    hide Enabled;
    assert Exec(s1, [Step(t)]) == s2;
  }

  lemma BeginTurns(s: State, t: nat)
    requires Enabled(s, Begin(t)) && s.threads[t].idx < |s.slots|
    ensures Enabled(Next(s, Begin(t)), Step(t))
    ensures var th := s.threads[t];
            Next(Next(s, Begin(t)), Step(t))
            == PutSlot(Put(s, t, th.(inTx := true, start := s.clock, round := th.round + 1)), th.idx,
                       s.slots[th.idx].(ts := At(s.clock)))
  {
  }

  lemma LeaveTurns(s: State, t: nat)
    requires t < |s.threads| && s.threads[t].pc == Leave && s.threads[t].idx < |s.slots|
    ensures var i := s.threads[t].idx;
            var used := if s.slots[i].regions == [] then FreeEmpty else FreeFull;
            Now(Now(s, t), t)
            == PutSlot(Put(s, t, s.threads[t].(pc := Uncount)), i, Slot(used, Unset, s.slots[i].regions))
  {
    var i := s.threads[t].idx;
    var s1 := PutSlot(Put(s, t, s.threads[t].(pc := Release)), i, s.slots[i].(ts := Unset));
    assert Now(s, t) == s1;
  }

  /** A thread that leaves gives up its slot; what it has freed and not reclaimed stays in it. */
  lemma LeavesAlone(s: State, t: nat)
    requires Reachable(s) && Enabled(s, Exit(t))
    ensures s.threads[t].idx < |s.slots|
    ensures var i := s.threads[t].idx;
            var used := if s.slots[i].regions == [] then FreeEmpty else FreeFull;
            Exec(s, [Exit(t)] + seq(3, _ => Step(t)))
            == PutSlot(Put(s, t, s.threads[t].(pc := Out)), i, Slot(used, Unset, s.slots[i].regions))
               .(active := if s.active > 0 then s.active - 1 else 0)
  {
    IdleSlot(s, t);
    hide Reachable;
    var i := s.threads[t].idx;
    var used := if s.slots[i].regions == [] then FreeEmpty else FreeFull;
    var s1 := Next(s, Exit(t));
    assert s1.threads[t].pc == Leave;
    ExecFirst(s, Exit(t), seq(3, _ => Step(t)));
    AloneIsRun(s1, t, 3);
    hide Exec, Next, Alone, Enabled;
    LeavesFully(s1, t);
  }

  lemma LeavesFully(s: State, t: nat)
    requires t < |s.threads| && s.threads[t].pc == Leave && s.threads[t].idx < |s.slots|
    ensures var i := s.threads[t].idx;
            var used := if s.slots[i].regions == [] then FreeEmpty else FreeFull;
            Alone(s, t, 3)
            == PutSlot(Put(s, t, s.threads[t].(pc := Out)), i, Slot(used, Unset, s.slots[i].regions))
               .(active := if s.active > 0 then s.active - 1 else 0)
  {
    var i := s.threads[t].idx;
    var used := if s.slots[i].regions == [] then FreeEmpty else FreeFull;
    var s3 := PutSlot(Put(s, t, s.threads[t].(pc := Uncount)), i, Slot(used, Unset, s.slots[i].regions));
    LeaveTurns(s, t);
    LastTurn(s3, t);
    hide Now;
    TwoTurns(s, t);
    AloneThen(s, t, 2, 1);
    assert Alone(s3, t, 1) == Alone(Now(s3, t), t, 0) == Now(s3, t);
  }

  lemma LastTurn(s: State, t: nat)
    requires t < |s.threads| && s.threads[t].pc == Uncount && s.threads[t].idx < |s.slots|
    ensures Now(s, t) == Put(s, t, s.threads[t].(pc := Out)).(active := if s.active > 0 then s.active - 1 else 0)
  {
  }

  // ---- where the blocks are ----

  /** How many blocks of address x there are in a list, in the regions of a slot, and in all slots. */
  function InBlocks(bs: seq<Block>, x: nat): nat {
    if bs == [] then 0 else One(bs[0].addr == x) + InBlocks(bs[1..], x)
  }

  function InRegions(rs: seq<Region>, x: nat): nat {
    if rs == [] then 0 else InRegions(rs[..|rs| - 1], x) + InBlocks(rs[|rs| - 1].blocks, x)
  }

  function InSlots(slots: seq<Slot>, x: nat): nat {
    if slots == [] then 0 else InSlots(slots[..|slots| - 1], x) + InRegions(slots[|slots| - 1].regions, x)
  }

  /** The block that a thread is about to add. */
  function InHand(pc: Pc, x: nat): nat {
    match pc
    case FreeRead(addr) => One(addr == x)
    case FreeAdd(b, _) => One(b.addr == x)
    case _ => 0
  }

  function InHands(ts: seq<Thread>, x: nat): nat {
    if ts == [] then 0 else InHands(ts[..|ts| - 1], x) + InHand(ts[|ts| - 1].pc, x)
  }

  /** What one action frees, and what it reclaims. */
  function FreedBy(a: Action, x: nat): nat {
    One(a.Free? && a.addr == x)
  }

  function ReclaimedBy(s: State, a: Action, x: nat): nat
    requires Enabled(s, a)
  {
    if !a.Step? || !s.threads[a.t].pc.Reclaim? then 0 else
      var rs := s.slots[s.threads[a.t].idx].regions;
      if rs != [] && s.threads[a.t].pc.min > rs[0].ts then InBlocks(rs[0].blocks, x) else 0
  }

  function Freed(s: State, run: seq<Action>, x: nat): nat {
    if run == [] then 0 else
      var n := |run| - 1;
      Freed(s, run[..n], x) + if Enabled(Exec(s, run[..n]), run[n]) then FreedBy(run[n], x) else 0
  }

  function Reclaimed(s: State, run: seq<Action>, x: nat): nat {
    if run == [] then 0 else
      var n := |run| - 1;
      var before := Exec(s, run[..n]);
      Reclaimed(s, run[..n], x) + if Enabled(before, run[n]) then ReclaimedBy(before, run[n], x) else 0
  }

  lemma {:induction false} HandsUpdate(ts: seq<Thread>, t: nat, th: Thread, x: nat)
    requires t < |ts|
    ensures InHands(ts[t := th], x) + InHand(ts[t].pc, x) == InHands(ts, x) + InHand(th.pc, x)
    decreases |ts|
  {
    hide InHand;
    var n := |ts| - 1;
    if t < n {
      HandsUpdate(ts[..n], t, th, x);
      assert ts[t := th][..n] == ts[..n][t := th];
    } else {
      assert ts[t := th][..n] == ts[..n];
    }
  }

  lemma {:induction false} SlotsUpdate(slots: seq<Slot>, i: nat, sl: Slot, x: nat)
    requires i < |slots|
    ensures InSlots(slots[i := sl], x) + InRegions(slots[i].regions, x) == InSlots(slots, x) + InRegions(sl.regions, x)
    decreases |slots|
  {
    hide InRegions;
    var n := |slots| - 1;
    if i < n {
      SlotsUpdate(slots[..n], i, sl, x);
      assert slots[i := sl][..n] == slots[..n][i := sl];
    } else {
      assert slots[i := sl][..n] == slots[..n];
    }
  }

  lemma {:induction false} FirstRegion(rs: seq<Region>, x: nat)
    requires rs != []
    ensures InRegions(rs, x) == InBlocks(rs[0].blocks, x) + InRegions(rs[1..], x)
    decreases |rs|
  {
    hide InBlocks;
    var n := |rs| - 1;
    if n == 0 {
      assert rs[1..] == [] && rs[..0] == [];
    } else {
      FirstRegion(rs[..n], x);
      assert rs[..n][1..] == rs[1..][..n - 1];
    }
  }

  lemma {:induction false} AddedBlock(rs: seq<Region>, b: Block, e: nat, x: nat)
    ensures InRegions(AddBlock(rs, b, e), x) == InRegions(rs, x) + One(b.addr == x)
  {
    var r := AddBlock(rs, b, e);
    assert [b][1..] == [];
    if rs == [] || Last(rs).ts < e {
      assert r[..|rs|] == rs && r[|rs|] == Region(e, [b]);
      assert InBlocks([b], x) == One(b.addr == x) + InBlocks([], x);
    } else {
      var n := |rs| - 1;
      assert r[..n] == rs[..n];
      assert ([b] + Last(rs).blocks)[1..] == Last(rs).blocks;
    }
  }

  /** What changes hands in one action. */
  lemma Balanced(s: State, a: Action, x: nat)
    requires Inv(s) && Enabled(s, a)
    ensures var r := Next(s, a);
            InHands(r.threads, x) + InSlots(r.slots, x) + ReclaimedBy(s, a, x)
            == InHands(s.threads, x) + InSlots(s.slots, x) + FreedBy(a, x)
  {
    var r := Next(s, a);
    SameThreads(s, a);
    if !a.Tick? {
      TargetOnly(s, a);
      var t := a.t;
      var i := Target(s, a);
      var th := r.threads[t];
      hide Inv, Next, InHands, InSlots, InHand, InRegions, InBlocks, Target, ReclaimedBy, FreedBy, Enabled;
      assert r.threads == s.threads[t := th];
      HandsUpdate(s.threads, t, th, x);
      if i < |s.slots| {
        var sl := r.slots[i];
        assert r.slots == s.slots[i := sl];
        SlotsUpdate(s.slots, i, sl, x);
        TargetBalanced(s, a, x);
      } else {
        assert r.slots == s.slots;
        NoTarget(s, a, x);
      }
    } else {
      assert r.threads == s.threads && r.slots == s.slots;
    }
  }

  lemma NoTarget(s: State, a: Action, x: nat)
    requires Inv(s) && Enabled(s, a) && !a.Tick? && Target(s, a) >= |s.slots| && |Next(s, a).threads| == |s.threads|
    ensures InHand(Next(s, a).threads[a.t].pc, x) == InHand(s.threads[a.t].pc, x) + FreedBy(a, x)
    ensures ReclaimedBy(s, a, x) == 0
  {
    assert ThreadOk(s, a.t);
    hide Inv, Running, AddBlock, InBlocks;
  }

  lemma TargetBalanced(s: State, a: Action, x: nat)
    requires Enabled(s, a) && Target(s, a) < |s.slots|
    requires |Next(s, a).threads| == |s.threads| && |Next(s, a).slots| == |s.slots|
    ensures var i := Target(s, a);
            InHand(Next(s, a).threads[a.t].pc, x) + InRegions(Next(s, a).slots[i].regions, x) + ReclaimedBy(s, a, x)
            == InHand(s.threads[a.t].pc, x) + InRegions(s.slots[i].regions, x) + FreedBy(a, x)
  {
    var i := Target(s, a);
    var rs := s.slots[i].regions;
    var pc := s.threads[a.t].pc;
    if pc.FreeAdd? {
      AddedBlock(rs, pc.b, pc.e, x);
    } else if pc.Reclaim? && rs != [] {
      FirstRegion(rs, x);
    }
    hide Running, AddBlock, InRegions, InBlocks;
  }

  /** Every block that has been freed is with the thread that frees it, in one region of one slot, or reclaimed, and
      only once. */
  lemma {:induction false} BlocksConserved(s0: State, run: seq<Action>, x: nat)
    requires Initial(s0)
    ensures Freed(s0, run, x)
            == InHands(Exec(s0, run).threads, x) + InSlots(Exec(s0, run).slots, x) + Reclaimed(s0, run, x)
    decreases |run|
  {
    if run == [] {
      NoBlocks(s0.threads, s0.slots, x);
    } else {
      var n := |run| - 1;
      BlocksConserved(s0, run[..n], x);
      InitialInv(s0);
      ExecInv(s0, run[..n]);
      hide Inv, Enabled, Next, InHands, InSlots, FreedBy, ReclaimedBy;
      if Enabled(Exec(s0, run[..n]), run[n]) { Balanced(Exec(s0, run[..n]), run[n], x); }
    }
  }

  lemma {:induction false} NoBlocks(ts: seq<Thread>, slots: seq<Slot>, x: nat)
    requires forall t :: 0 <= t < |ts| ==> ts[t].pc.Out?
    requires forall i :: 0 <= i < |slots| ==> slots[i].regions == []
    ensures InHands(ts, x) == 0 && InSlots(slots, x) == 0
    decreases |ts| + |slots|
  {
    if ts != [] { NoBlocks(ts[..|ts| - 1], slots, x); }
    if slots != [] { NoBlocks(ts, slots[..|slots| - 1], x); }
  }
}
