/** Lamport's fast mutual exclusion algorithm (intro/fast.c), for any number of processes and any
    interleaving. One step is one access to the shared `b`, `x` or `y`. */
module FastMutex {
  import opened Counting

  /** Where a process stands in `lock`/`unlock`; each constructor names the access it is about to make.
      `fast` records which of the two ways led into the critical section. */
  datatype Pc =
    | Idle
    | SetB | SetX | TestY | ClearB | AwaitY
    | SetY | TestX | ClearBSlow | Scan(j: nat) | RetestY | AwaitYSlow
    | Critical(fast: bool) | ResetY(fast: bool) | ClearBExit

  datatype State = State(b: seq<bool>, x: int, y: int, pc: seq<Pc>)

  predicate WellFormed(s: State) {
    |s.b| == |s.pc|
  }

  predicate Initial(s: State) {
    && WellFormed(s)
    && s.x == -1 && s.y == -1
    && (forall i :: 0 <= i < |s.pc| ==> s.pc[i] == Idle)
    && (forall i :: 0 <= i < |s.b| ==> !s.b[i])
  }

  /** One step of process `i`; a process whose wait condition does not hold stays where it is. */
  function Next(s: State, i: nat): (t: State)
    requires WellFormed(s) && i < |s.pc|
    ensures WellFormed(t) && |t.pc| == |s.pc|
  {
    match s.pc[i]
    case Idle => s.(pc := s.pc[i := SetB])
    case SetB => s.(b := s.b[i := true], pc := s.pc[i := SetX])
    case SetX => s.(x := i, pc := s.pc[i := TestY])
    case TestY => s.(pc := s.pc[i := if s.y >= 0 then ClearB else SetY])
    case ClearB => s.(b := s.b[i := false], pc := s.pc[i := AwaitY])
    case AwaitY => if s.y >= 0 then s else s.(pc := s.pc[i := SetB])
    case SetY => s.(y := i, pc := s.pc[i := TestX])
    case TestX => s.(pc := s.pc[i := if s.x != i then ClearBSlow else Critical(true)])
    case ClearBSlow => s.(b := s.b[i := false], pc := s.pc[i := Scan(0)])
    case Scan(j) =>
      if j >= |s.b| then s.(pc := s.pc[i := RetestY])
      else if s.b[j] then s
      else s.(pc := s.pc[i := Scan(j + 1)])
    case RetestY => s.(pc := s.pc[i := if s.y != i then AwaitYSlow else Critical(false)])
    case AwaitYSlow => if s.y >= 0 then s else s.(pc := s.pc[i := SetB])
    case Critical(fast) => s.(pc := s.pc[i := ResetY(fast)])
    case ResetY(fast) => s.(y := -1, pc := s.pc[i := ClearBExit])
    case ClearBExit => s.(b := s.b[i := false], pc := s.pc[i := Idle])
  }

  predicate InCritical(p: Pc) {
    p.Critical? || p.ResetY?
  }

  /** On the way from `y = i` to the fast entry, or inside by it: the raised flag stops every scan. */
  predicate FastSide(p: Pc) {
    p.SetY? || p.TestX? || p == Critical(true) || p == ResetY(true)
  }

  predicate FlagRaised(p: Pc) {
    FastSide(p) || p.SetX? || p.TestY? || p.ClearB? || p.ClearBSlow?
  }

  /** How many processes the slow path of a process has already found without a flag. */
  function Scanned(p: Pc, n: nat): nat {
    match p
    case Scan(j) => j
    case RetestY => n
    case Critical(fast) => if fast then 0 else n
    case ResetY(fast) => if fast then 0 else n
    case _ => 0
  }

  ghost predicate FlagsAgree(s: State)
    requires WellFormed(s)
  {
    forall i :: 0 <= i < |s.pc| && FlagRaised(s.pc[i]) ==> s.b[i]
  }

  /** As long as y still holds the slow process's own number, nobody it has scanned is on the fast side. */
  ghost predicate ScanHolds(s: State)
    requires WellFormed(s)
  {
    forall i, j :: 0 <= i < |s.pc| && s.y == i && 0 <= j < |s.pc| && j != i && j < Scanned(s.pc[i], |s.pc|)
      ==> !FastSide(s.pc[j])
  }

  ghost predicate SlowOwnsY(s: State) {
    forall i :: 0 <= i < |s.pc| && (s.pc[i] == Critical(false) || s.pc[i] == ResetY(false)) ==> s.y == i
  }

  ghost predicate CriticalKeepsY(s: State) {
    forall i :: 0 <= i < |s.pc| && (InCritical(s.pc[i]) || (s.pc[i].TestX? && s.x == i)) ==> s.y >= 0
  }

  /** A process that may still enter by the fast path excludes everybody else from the section. */
  ghost predicate CandidateAlone(s: State) {
    forall i, k :: 0 <= i < |s.pc| && 0 <= k < |s.pc| && s.x == i && (s.pc[i].SetY? || s.pc[i].TestX?)
      ==> !InCritical(s.pc[k])
  }

  ghost predicate MutualExclusion(s: State) {
    forall i, k :: 0 <= i < |s.pc| && 0 <= k < |s.pc| && InCritical(s.pc[i]) && InCritical(s.pc[k]) ==> i == k
  }

  /** The value of y is a process that has not yet given its turn up. */
  ghost predicate YHasOwner(s: State) {
    && -1 <= s.y < |s.pc|
    && (s.y >= 0 ==>
          var p := s.pc[s.y];
          p.TestX? || p.ClearBSlow? || p.Scan? || p.RetestY? || InCritical(p))
  }

  ghost predicate FlagOwners(s: State)
    requires WellFormed(s)
  {
    forall i :: 0 <= i < |s.pc| && s.b[i] ==> FlagRaised(s.pc[i]) || s.pc[i].ClearBExit?
  }

  ghost predicate Inv(s: State) {
    && WellFormed(s)
    && FlagsAgree(s) && ScanHolds(s) && SlowOwnsY(s) && CriticalKeepsY(s)
    && CandidateAlone(s) && MutualExclusion(s)
    && YHasOwner(s) && FlagOwners(s)
  }

  lemma InitialInv(s: State)
    requires Initial(s)
    ensures Inv(s)
  {
  }

  lemma FlagsKept(s: State, i: nat)
    requires WellFormed(s) && i < |s.pc| && FlagsAgree(s)
    ensures FlagsAgree(Next(s, i))
  {
  }

  lemma FlagOwnersKept(s: State, i: nat)
    requires WellFormed(s) && i < |s.pc| && FlagOwners(s)
    ensures FlagOwners(Next(s, i))
  {
  }

  lemma ScanKept(s: State, i: nat)
    requires WellFormed(s) && i < |s.pc| && FlagsAgree(s) && ScanHolds(s)
    ensures ScanHolds(Next(s, i))
  {
  }

  lemma SlowKept(s: State, i: nat)
    requires WellFormed(s) && i < |s.pc| && ScanHolds(s) && SlowOwnsY(s) && MutualExclusion(s)
    ensures SlowOwnsY(Next(s, i))
  {
  }

  lemma CriticalKept(s: State, i: nat)
    requires WellFormed(s) && i < |s.pc| && CriticalKeepsY(s) && CandidateAlone(s) && MutualExclusion(s)
    ensures CriticalKeepsY(Next(s, i))
  {
  }

  lemma CandidateKept(s: State, i: nat)
    requires WellFormed(s) && i < |s.pc| && ScanHolds(s) && CriticalKeepsY(s) && CandidateAlone(s)
    ensures CandidateAlone(Next(s, i))
  {
  }

  lemma ExclusionKept(s: State, i: nat)
    requires WellFormed(s) && i < |s.pc| && ScanHolds(s) && SlowOwnsY(s) && CandidateAlone(s) && MutualExclusion(s)
    ensures MutualExclusion(Next(s, i))
  {
  }

  lemma YOwnerKept(s: State, i: nat)
    requires WellFormed(s) && i < |s.pc| && YHasOwner(s)
    ensures YHasOwner(Next(s, i))
  {
  }

  lemma NextInv(s: State, i: nat)
    requires Inv(s) && i < |s.pc|
    ensures Inv(Next(s, i))
  {
    FlagsKept(s, i);
    FlagOwnersKept(s, i);
    ScanKept(s, i);
    SlowKept(s, i);
    CriticalKept(s, i);
    CandidateKept(s, i);
    ExclusionKept(s, i);
    YOwnerKept(s, i);
  }

  /** The state after the processes have moved in the given order. */
  function Exec(s: State, schedule: seq<nat>): (t: State)
    requires WellFormed(s) && forall k :: 0 <= k < |schedule| ==> schedule[k] < |s.pc|
    ensures WellFormed(t) && |t.pc| == |s.pc|
    decreases |schedule|
  {
    if schedule == [] then s else
      var last := |schedule| - 1;
      Next(Exec(s, schedule[..last]), schedule[last])
  }

  lemma {:induction false} ExecInv(s: State, schedule: seq<nat>)
    requires Inv(s) && forall k :: 0 <= k < |schedule| ==> schedule[k] < |s.pc|
    ensures Inv(Exec(s, schedule))
    decreases |schedule|
  {
    if schedule != [] {
      var last := |schedule| - 1;
      ExecInv(s, schedule[..last]);
      NextInv(Exec(s, schedule[..last]), schedule[last]);
    }
  }

  /** Whatever the number of processes and the order of their accesses, at most one is between the end of
      `lock` and the `y = -1` of its `unlock`, by the fast path or by the slow one. */
  lemma AtMostOneInCritical(s: State, schedule: seq<nat>, i: nat, k: nat)
    requires Initial(s) && forall q :: 0 <= q < |schedule| ==> schedule[q] < |s.pc|
    requires i < |s.pc| && k < |s.pc|
    requires InCritical(Exec(s, schedule).pc[i]) && InCritical(Exec(s, schedule).pc[k])
    ensures i == k
  {
    InitialInv(s);
    ExecInv(s, schedule);
  }

  /** Waits for y to be free, or for a flag to go down. */
  predicate Blocked(s: State, i: nat)
    requires WellFormed(s) && i < |s.pc|
  {
    match s.pc[i]
    case AwaitY => s.y >= 0
    case AwaitYSlow => s.y >= 0
    case Scan(j) => j < |s.b| && s.b[j]
    case _ => false
  }

  lemma UnblockedMoves(s: State, i: nat)
    requires WellFormed(s) && i < |s.pc| && !s.pc[i].Idle? && !Blocked(s, i)
    ensures Next(s, i).pc[i] != s.pc[i]
  {
  }

  /** The owner of y is itself past the tests on y, and a raised flag belongs to somebody who waits for nothing. */
  lemma Unblocked(s: State, i: nat) returns (k: nat)
    requires Inv(s) && i < |s.pc| && !s.pc[i].Idle?
    ensures k < |s.pc| && !s.pc[k].Idle? && !Blocked(s, k)
  {
    hide ScanHolds, SlowOwnsY, CriticalKeepsY, CandidateAlone, MutualExclusion;
    k := i;
    if (s.pc[k].AwaitY? || s.pc[k].AwaitYSlow?) && s.y >= 0 {
      k := s.y;
    }
    if s.pc[k].Scan? && s.pc[k].j < |s.b| && s.b[s.pc[k].j] {
      k := s.pc[k].j;
    }
  }

  /** The algorithm never deadlocks: when anybody is trying, somebody who is trying can move. */
  lemma SomebodyMoves(s: State, schedule: seq<nat>, i: nat) returns (k: nat)
    requires Initial(s) && forall q :: 0 <= q < |schedule| ==> schedule[q] < |s.pc|
    requires i < |s.pc| && !Exec(s, schedule).pc[i].Idle?
    ensures var t := Exec(s, schedule);
            k < |t.pc| && !t.pc[k].Idle? && Next(t, k).pc[k] != t.pc[k]
  {
    InitialInv(s);
    ExecInv(s, schedule);
    var t := Exec(s, schedule);
    k := Unblocked(t, i);
    UnblockedMoves(t, k);
    hide Inv, Next, Blocked;
  }

  // ---- getting in and out ----

  lemma {:induction false} ExecThen(s: State, first: seq<nat>, more: seq<nat>)
    requires WellFormed(s) && forall k :: 0 <= k < |first + more| ==> (first + more)[k] < |s.pc|
    ensures forall k :: 0 <= k < |first| ==> first[k] < |s.pc|
    ensures forall k :: 0 <= k < |more| ==> more[k] < |s.pc|
    ensures Exec(s, first + more) == Exec(Exec(s, first), more)
    decreases |more|
  {
    assert forall k :: 0 <= k < |first| ==> first[k] == (first + more)[k];
    assert forall k :: 0 <= k < |more| ==> more[k] == (first + more)[|first| + k];
    if more == [] {
      assert first + more == first;
    } else {
      var n := |more| - 1;
      assert (first + more)[..|first + more| - 1] == first + more[..n];
      ExecThen(s, first, more[..n]);
    }
  }

  /** The accesses that a process makes at most before it waits for y, is in the critical section, or is idle. */
  function Rank(p: Pc, n: nat): nat {
    match p
    case SetB => n + 10
    case SetX => n + 9
    case TestY => n + 8
    case ClearB => 1
    case SetY => n + 7
    case TestX => n + 6
    case ClearBSlow => n + 5
    case Scan(j) => if j < n then n - j + 3 else 3
    case RetestY => 2
    case ResetY(_) => 2
    case ClearBExit => 1
    case _ => 0
  }

  function Total(pc: seq<Pc>, n: nat): nat {
    Sum(seq(|pc|, i requires 0 <= i < |pc| => Rank(pc[i], n)))
  }

  lemma TotalUpdate(pc: seq<Pc>, n: nat, i: nat, p: Pc)
    requires i < |pc|
    ensures Total(pc[i := p], n) + Rank(pc[i], n) == Total(pc, n) + Rank(p, n)
  {
    var v := seq(|pc|, k requires 0 <= k < |pc| => Rank(pc[k], n));
    SumUpdate(v, i, Rank(p, n));
    assert v[i := Rank(p, n)] == seq(|pc|, k requires 0 <= k < |pc| => Rank(pc[i := p][k], n));
  }

  predicate Trying(p: Pc) {
    !p.Idle? && !InCritical(p) && !p.ClearBExit?
  }

  predicate Waits(p: Pc) {
    p.Idle? || p.AwaitY? || p.AwaitYSlow? || p.Critical?
  }

  lemma RankFalls(s: State, k: nat)
    requires Inv(s) && k < |s.pc| && !Waits(s.pc[k]) && !Blocked(s, k)
    ensures Rank(Next(s, k).pc[k], |s.pc|) < Rank(s.pc[k], |s.pc|)
    ensures Next(s, k).pc == s.pc[k := Next(s, k).pc[k]]
    ensures Trying(s.pc[k]) ==> Trying(Next(s, k).pc[k]) || Next(s, k).pc[k].Critical?
    ensures Next(s, k).pc[k].Idle? ==> !Trying(s.pc[k])
  {
  }

  /** Somebody whose flag is up does not wait, so that a scan is not held up for ever. */
  lemma Mover(s: State, k: nat) returns (m: nat)
    requires Inv(s) && k < |s.pc| && !Waits(s.pc[k]) && forall i :: 0 <= i < |s.pc| ==> !s.pc[i].Critical?
    ensures m < |s.pc| && !Waits(s.pc[m]) && !Blocked(s, m)
  {
    m := if s.pc[k].Scan? && s.pc[k].j < |s.b| && s.b[s.pc[k].j] then s.pc[k].j else k;
    hide ScanHolds, SlowOwnsY, CriticalKeepsY, CandidateAlone, MutualExclusion, YHasOwner;
  }

  /** A schedule of the processes of s. */
  predicate Fits(s: State, run: seq<nat>) {
    forall q :: 0 <= q < |run| ==> run[q] < |s.pc|
  }

  lemma ExecOne(s: State, m: nat, run: seq<nat>)
    requires WellFormed(s) && m < |s.pc| && Fits(s, run)
    ensures Fits(s, [m] + run) && Exec(s, [m] + run) == Exec(Next(s, m), run)
  {
    ExecThen(s, [m], run);
    assert [m][..0] == [];
    assert Exec(s, [m]) == Next(s, m);
  }

  ghost predicate IdleStay(s: State, t: State) {
    |t.pc| == |s.pc| && forall q :: 0 <= q < |s.pc| && s.pc[q].Idle? ==> t.pc[q].Idle?
  }

  /** Process k is in, or everybody waits for y, k for one. */
  ghost predicate Settled(t: State, k: nat) {
    k < |t.pc|
    && (t.pc[k].Critical? || (!t.pc[k].Idle? && forall q :: 0 <= q < |t.pc| ==> Waits(t.pc[q]) && !t.pc[q].Critical?))
  }

  lemma MoverMoves(s: State, q: nat, i: nat) returns (m: nat)
    requires Inv(s) && q < |s.pc| && !Waits(s.pc[q]) && forall k :: 0 <= k < |s.pc| ==> !s.pc[k].Critical?
    requires i < |s.pc| && Trying(s.pc[i])
    ensures m < |s.pc| && Inv(Next(s, m)) && IdleStay(s, Next(s, m))
    ensures Total(Next(s, m).pc, |s.pc|) < Total(s.pc, |s.pc|)
    ensures Next(s, m).pc[m].Critical? || Trying(Next(s, m).pc[i])
  {
    m := Mover(s, q);
    RankFalls(s, m);
    TotalUpdate(s.pc, |s.pc|, m, Next(s, m).pc[m]);
    NextInv(s, m);
    hide Inv, Next, Rank, Total;
  }

  /** Without a process that begins or tries again, somebody gets in, or all who are trying wait for y. */
  lemma {:induction false} Settle(s: State, i: nat) returns (run: seq<nat>, k: nat)
    requires Inv(s) && i < |s.pc| && Trying(s.pc[i])
    ensures Fits(s, run) && Inv(Exec(s, run)) && IdleStay(s, Exec(s, run)) && Settled(Exec(s, run), k)
    decreases Total(s.pc, |s.pc|)
  {
    run, k := [], i;
    if c :| 0 <= c < |s.pc| && s.pc[c].Critical? {
      k := c;
    } else if q :| 0 <= q < |s.pc| && !Waits(s.pc[q]) {
      var m := MoverMoves(s, q, i);
      hide Inv, Next, Waits, Total, Settled, Exec;
      var s1 := Next(s, m);
      if s1.pc[m].Critical? {
        k := m;
        assert Exec(s1, []) == s1 by { ExecNone(s1); }
        assert Settled(s1, k) by { SettledIn(s1, k); }
      } else {
        run, k := Settle(s1, i);
      }
      ExecOne(s, m, run);
      run := [m] + run;
    }
  }

  lemma ExecNone(s: State)
    requires WellFormed(s)
    ensures Exec(s, []) == s
  {
  }

  lemma SettledIn(s: State, k: nat)
    requires k < |s.pc| && s.pc[k].Critical?
    ensures Settled(s, k)
  {
  }

  /** The state after process k alone has made m accesses. */
  function Alone(s: State, k: nat, m: nat): (t: State)
    requires WellFormed(s) && k < |s.pc|
    ensures WellFormed(t) && |t.pc| == |s.pc|
  {
    if m == 0 then s else Next(Alone(s, k, m - 1), k)
  }

  lemma {:induction false} AloneIsRun(s: State, k: nat, m: nat)
    requires WellFormed(s) && k < |s.pc|
    ensures Fits(s, seq(m, _ => k)) && Exec(s, seq(m, _ => k)) == Alone(s, k, m)
    decreases m
  {
    if m > 0 {
      AloneIsRun(s, k, m - 1);
      assert seq(m, _ => k)[..m - 1] == seq(m - 1, _ => k);
    }
  }

  /** The fast path: five accesses from `start` on. */
  lemma FastPath(s: State, k: nat)
    requires WellFormed(s) && k < |s.pc| && s.y == -1 && s.pc[k].SetB?
    ensures var t := Alone(s, k, 5);
            t == s.(b := s.b[k := true], x := k, y := k, pc := s.pc[k := Critical(true)])
  {
    var s1 := Next(s, k);
    var s2 := Next(s1, k);
    var s3 := Next(s2, k);
    var s4 := Next(s3, k);
    assert Alone(s, k, 1) == s1 && Alone(s, k, 2) == s2 && Alone(s, k, 3) == s3 && Alone(s, k, 4) == s4;
  }

  lemma {:induction false} AloneThen(s: State, k: nat, m: nat, l: nat)
    requires WellFormed(s) && k < |s.pc|
    ensures Alone(Alone(s, k, m), k, l) == Alone(s, k, m + l)
    decreases l
  {
    if l > 0 { AloneThen(s, k, m, l - 1); }
  }

  /** A process that finds nobody else in `lock` or `unlock` is in after six accesses, by the fast path, and out after
      three more. */
  lemma EntersAlone(s: State, schedule: seq<nat>, i: nat)
    requires Initial(s) && Fits(s, schedule) && i < |s.pc|
    requires forall k :: 0 <= k < |s.pc| ==> Exec(s, schedule).pc[k].Idle?
    ensures var t := Exec(s, schedule);
            Alone(t, i, 6).pc == t.pc[i := Critical(true)] && Alone(t, i, 9).pc == t.pc && Alone(t, i, 9).y == -1
  {
    InitialInv(s);
    ExecInv(s, schedule);
    var t := Exec(s, schedule);
    assert t.y == -1;
    hide Inv;
    var t1 := Next(t, i);
    assert Alone(t, i, 1) == t1 by { assert Alone(t, i, 0) == t; }
    FastPath(t1, i);
    AloneThen(t, i, 1, 5);
    var c := Alone(t, i, 6);
    var c1 := Next(c, i);
    var c2 := Next(c1, i);
    assert Alone(t, i, 7) == c1 && Alone(t, i, 8) == c2 && Alone(t, i, 9) == Next(c2, i);
  }

  /** A scan that meets no flag gets to its end. */
  lemma {:induction false} ScansThrough(s: State, i: nat, j: nat)
    requires WellFormed(s) && i < |s.pc| && j <= |s.pc| && s.pc[i] == Scan(0) && forall k :: 0 <= k < |s.b| ==> !s.b[k]
    ensures Alone(s, i, j) == s.(pc := s.pc[i := Scan(j)])
    decreases j
  {
    if j > 0 {
      ScansThrough(s, i, j - 1);
      assert s.pc[i := Scan(j - 1)][i := Scan(j)] == s.pc[i := Scan(j)];
    } else {
      assert s.pc[i := Scan(0)] == s.pc;
    }
  }

  /** The slow path: a process that was overtaken in x, but has the last word in y, is in after a scan that meets
      no flag. */
  lemma SlowPath(s: State, i: nat)
    requires WellFormed(s) && i < |s.pc| && s.pc[i].ClearBSlow? && s.y == i
    requires forall k :: 0 <= k < |s.b| && k != i ==> !s.b[k]
    ensures Alone(s, i, |s.pc| + 3).pc == s.pc[i := Critical(false)]
  {
    var n := |s.pc|;
    var s1 := Next(s, i);
    assert Alone(s, i, 1) == s1 by { assert Alone(s, i, 0) == s; }
    ScansThrough(s1, i, n);
    AloneThen(s, i, 1, n);
    var s2 := Alone(s, i, n + 1);
    assert Alone(s, i, n + 2) == Next(s2, i) && Alone(s, i, n + 3) == Next(Next(s2, i), i);
    hide Alone;
  }

  /** Whoever is in is out again after three accesses of its own, with y free. */
  lemma LeavesAlone(s: State, k: nat)
    requires WellFormed(s) && k < |s.pc| && s.pc[k].Critical?
    ensures Alone(s, k, 3) == s.(y := -1, b := s.b[k := false], pc := s.pc[k := Idle])
  {
    var s1 := Next(s, k);
    assert Alone(s, k, 1) == s1 && Alone(s, k, 2) == Next(s1, k);
  }

  /** Whatever has happened, whoever is trying, some schedule brings somebody into the critical section, and no idle
      process has to move for it. */
  lemma EntryPossible(s: State, schedule: seq<nat>, i: nat) returns (more: seq<nat>, k: nat)
    requires Initial(s) && Fits(s, schedule) && i < |s.pc| && Trying(Exec(s, schedule).pc[i])
    ensures Fits(s, schedule + more) && k < |s.pc|
    ensures var t := Exec(s, schedule + more);
            t.pc[k].Critical? && forall q :: 0 <= q < |s.pc| && Exec(s, schedule).pc[q].Idle? ==> t.pc[q].Idle?
  {
    InitialInv(s);
    ExecInv(s, schedule);
    more, k := Settle(Exec(s, schedule), i);
    var t := Exec(Exec(s, schedule), more);
    if !t.pc[k].Critical? {
      assert t.y == -1;
      hide Inv;
      var t1 := Next(t, k);
      FastPath(t1, k);
      AloneIsRun(t1, k, 5);
      ExecOne(t, k, seq(5, _ => k));
      var last := [k] + seq(5, _ => k);
      ExecThen(Exec(s, schedule), more, last);
      more := more + last;
    }
    hide Inv;
    ExecThen(s, schedule, more);
  }

  /** The C program: the shared variables, and one program counter for every thread. */
  class Machine {
    var b: array<bool>
    var x: int
    var y: int
    var pc: array<Pc>

    ghost predicate Valid()
      reads this, b, pc
    {
      b.Length == pc.Length
    }

    ghost function Abs(): State
      reads this, b, pc
    {
      State(b[..], x, y, pc[..])
    }

    constructor (n: nat)
      ensures Valid() && fresh(b) && fresh(pc)
      ensures Initial(Abs()) && pc.Length == n
    {
      b := new bool[n](_ => false);
      x, y := -1, -1;
      pc := new Pc[n](_ => Idle);
    }

    /** Thread `i` performs its next access. */
    method Step(i: nat)
      requires Valid() && i < pc.Length
      modifies this`x, this`y, b, pc
      ensures Valid() && Abs() == Next(old(Abs()), i)
    {
      match pc[i] {
        case Idle => pc[i] := SetB;
        case SetB => b[i] := true; pc[i] := SetX;
        case SetX => x := i; pc[i] := TestY;
        case TestY => if y >= 0 { pc[i] := ClearB; } else { pc[i] := SetY; }
        case ClearB => b[i] := false; pc[i] := AwaitY;
        case AwaitY => if y < 0 { pc[i] := SetB; }
        case SetY => y := i; pc[i] := TestX;
        case TestX => if x != i { pc[i] := ClearBSlow; } else { pc[i] := Critical(true); }
        case ClearBSlow => b[i] := false; pc[i] := Scan(0);
        case Scan(j) =>
          if j >= b.Length { pc[i] := RetestY; } else if !b[j] { pc[i] := Scan(j + 1); }
        case RetestY => if y != i { pc[i] := AwaitYSlow; } else { pc[i] := Critical(false); }
        case AwaitYSlow => if y < 0 { pc[i] := SetB; }
        case Critical(fast) => pc[i] := ResetY(fast);
        case ResetY(fast) => y := -1; pc[i] := ClearBExit;
        case ClearBExit => b[i] := false; pc[i] := Idle;
      }
    }

    /** Runs the threads in any order; the invariant, and with it mutual exclusion, survives. */
    method Run(schedule: seq<nat>)
      requires Valid() && Inv(Abs())
      requires forall k :: 0 <= k < |schedule| ==> schedule[k] < pc.Length
      modifies this`x, this`y, b, pc
      ensures Valid() && Inv(Abs()) && Abs() == Exec(old(Abs()), schedule)
    {
      for k := 0 to |schedule|
        invariant Valid() && b == old(b) && pc == old(pc)
        invariant Inv(Abs()) && Abs() == Exec(old(Abs()), schedule[..k])
      {
        NextInv(Abs(), schedule[k]);
        assert schedule[..k + 1][..k] == schedule[..k];
        Step(schedule[k]);
      }
      assert schedule[..|schedule|] == schedule;
    }
  }
}
