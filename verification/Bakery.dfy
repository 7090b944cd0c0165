/** Lamport's bakery (intro/bakery.c), for any number of threads and unbounded numbers. One step is one access
    to a shared word; in `max` the two mentions of a word are one reading, as elsewhere each mention is one. */
module Bakery {
  import opened Counting

  /** Scan: the loop of `max`, about to read the number of thread j. WaitChoosing, WaitNonzero, WaitLess,
      WaitEqual: the conditions of the two waiting loops for thread j, from left to right. */
  datatype Pc =
    | Idle | SetChoosing | Scan(j: nat, max: nat) | SetNumber(max: nat) | ClearChoosing
    | WaitChoosing(j: nat) | WaitNonzero(j: nat) | WaitLess(j: nat) | WaitEqual(j: nat)
    | Critical

  /** One passage of a thread through the lock. */
  datatype Visit = Visit(thread: nat, round: nat)

  /** `round` counts the visits of a thread; `ahead` records which visits had finished choosing when the thread
      began to choose. */
  datatype State = State(choosing: seq<bool>, number: seq<nat>, pc: seq<Pc>, round: seq<nat>, ahead: seq<set<Visit>>)

  predicate WellFormed(s: State) {
    && |s.choosing| == |s.number| == |s.pc| == |s.round| == |s.ahead|
    && forall i :: 0 <= i < |s.pc| ==>
         match s.pc[i]
         case WaitNonzero(j) => j < |s.pc|
         case WaitLess(j) => j < |s.pc|
         case WaitEqual(j) => j < |s.pc|
         case _ => true
  }

  /** Has chosen its number, and not yet left. */
  predicate Waiting(pc: Pc) {
    pc.WaitChoosing? || pc.WaitNonzero? || pc.WaitLess? || pc.WaitEqual? || pc.Critical?
  }

  function Waiters(s: State): set<Visit>
    requires WellFormed(s)
  {
    set i | 0 <= i < |s.pc| && Waiting(s.pc[i]) :: Visit(i, s.round[i])
  }

  /** Has thread j a smaller (number, id) than thread i? */
  predicate Less(s: State, j: nat, i: nat)
    requires j < |s.number| && i < |s.number|
  {
    s.number[j] < s.number[i] || (s.number[j] == s.number[i] && j < i)
  }

  function Next(s: State, i: nat): (t: State)
    requires WellFormed(s) && i < |s.pc|
    ensures WellFormed(t) && |t.pc| == |s.pc|
  {
    match s.pc[i]
    case Idle => s.(pc := s.pc[i := SetChoosing], round := s.round[i := s.round[i] + 1])
    case SetChoosing =>
      s.(choosing := s.choosing[i := true], pc := s.pc[i := Scan(0, 0)], ahead := s.ahead[i := Waiters(s)])
    case Scan(j, max) =>
      if j >= |s.pc| then s.(pc := s.pc[i := SetNumber(max)])
      else s.(pc := s.pc[i := Scan(j + 1, if s.number[j] > max then s.number[j] else max)])
    case SetNumber(max) => s.(number := s.number[i := max + 1], pc := s.pc[i := ClearChoosing])
    case ClearChoosing => s.(choosing := s.choosing[i := false], pc := s.pc[i := WaitChoosing(0)])
    case WaitChoosing(j) =>
      if j >= |s.pc| then s.(pc := s.pc[i := Critical])
      else if s.choosing[j] then s
      else s.(pc := s.pc[i := WaitNonzero(j)])
    case WaitNonzero(j) => s.(pc := s.pc[i := if s.number[j] > 0 then WaitLess(j) else WaitChoosing(j + 1)])
    case WaitLess(j) => s.(pc := s.pc[i := if s.number[j] < s.number[i] then WaitNonzero(j) else WaitEqual(j)])
    case WaitEqual(j) =>
      s.(pc := s.pc[i := if s.number[j] == s.number[i] && j < i then WaitNonzero(j) else WaitChoosing(j + 1)])
    case Critical => s.(number := s.number[i := 0], pc := s.pc[i := Idle])
  }

  predicate Initial(s: State) {
    && WellFormed(s)
    && forall i :: 0 <= i < |s.pc| ==> !s.choosing[i] && s.number[i] == 0 && s.pc[i] == Idle && s.ahead[i] == {}
  }

  // ---- the invariant ----

  predicate Choosing(pc: Pc) {
    pc.Scan? || pc.SetNumber? || pc.ClearChoosing?
  }

  ghost predicate FlagsOk(s: State)
    requires WellFormed(s)
  {
    forall i :: 0 <= i < |s.pc| ==>
      && s.choosing[i] == Choosing(s.pc[i])
      && (s.number[i] > 0 <==> s.pc[i].ClearChoosing? || Waiting(s.pc[i]))
  }

  /** Whatever number thread j is about to choose, it is larger than that of thread i. */
  predicate WillExceed(s: State, i: nat, j: nat)
    requires WellFormed(s) && i < |s.pc| && j < |s.pc|
  {
    match s.pc[j]
    case Scan(k, max) => k <= i || max >= s.number[i]
    case SetNumber(max) => max >= s.number[i]
    case _ => true
  }

  /** Thread i has seen that j is not choosing. */
  predicate PastChoosing(pc: Pc, j: nat) {
    match pc
    case WaitChoosing(k) => j < k
    case WaitNonzero(k) => j <= k
    case WaitLess(k) => j <= k
    case WaitEqual(k) => j <= k
    case Critical => true
    case _ => false
  }

  /** Thread i has waited for j. */
  predicate Past(pc: Pc, j: nat) {
    match pc
    case WaitChoosing(k) => j < k
    case WaitNonzero(k) => j < k
    case WaitLess(k) => j < k
    case WaitEqual(k) => j < k
    case Critical => true
    case _ => false
  }

  /** What thread i may rely on about thread j. */
  ghost predicate PairOk(s: State, i: nat, j: nat)
    requires WellFormed(s) && i < |s.pc| && j < |s.pc|
  {
    && (PastChoosing(s.pc[i], j) ==> WillExceed(s, i, j))
    && (Past(s.pc[i], j) && s.number[j] > 0 ==> Less(s, i, j))
    && (s.pc[i] == WaitEqual(j) && s.number[j] > 0 ==> s.number[i] <= s.number[j])
  }

  ghost predicate PairsOk(s: State)
    requires WellFormed(s)
  {
    forall i, j :: 0 <= i < |s.pc| && 0 <= j < |s.pc| && i != j ==> PairOk(s, i, j)
  }

  /** Thread j will have, or has, a larger number than the visits that were ahead of it. */
  ghost predicate AheadOk(s: State, i: nat, j: nat)
    requires WellFormed(s) && i < |s.pc| && j < |s.pc|
  {
    Visit(i, s.round[i]) in s.ahead[j] && Waiting(s.pc[i]) && !s.pc[j].Idle? && !s.pc[j].SetChoosing? ==>
      i != j && WillExceed(s, i, j) && (s.number[j] > 0 ==> s.number[i] < s.number[j])
  }

  ghost predicate AheadsOk(s: State)
    requires WellFormed(s)
  {
    && (forall i, j :: 0 <= i < |s.pc| && 0 <= j < |s.pc| ==> AheadOk(s, i, j))
    && (forall i, j {:trigger s.round[i], s.ahead[j]} :: 0 <= i < |s.pc| && 0 <= j < |s.pc| ==>
          forall v :: v in s.ahead[j] && v.thread == i ==>
            v.round <= s.round[i] && (v.round == s.round[i] ==> Waiting(s.pc[i]) || s.pc[i].Idle?))
  }

  ghost predicate Inv(s: State) {
    WellFormed(s) && FlagsOk(s) && PairsOk(s) && AheadsOk(s)
  }

  lemma InitialInv(s: State)
    requires Initial(s)
    ensures Inv(s)
  {
  }

  lemma FlagsKept(s: State, i: nat)
    requires Inv(s) && i < |s.pc|
    ensures FlagsOk(Next(s, i))
  {
    hide PairsOk, AheadsOk, Waiters;
  }

  lemma PairKept(s: State, x: nat, i: nat, j: nat)
    requires Inv(s) && x < |s.pc| && i < |s.pc| && j < |s.pc| && i != j
    ensures PairOk(Next(s, x), i, j)
  {
    assert PairOk(s, i, j);
    hide PairsOk, AheadsOk, Waiters, AheadOk;
    if x != i && x != j {
      OthersPair(s, x, i, j);
    } else if x == i {
      OwnPair(s, i, j);
    } else {
      OtherPair(s, i, j);
    }
  }

  /** The step of a third thread. */
  lemma OthersPair(s: State, x: nat, i: nat, j: nat)
    requires WellFormed(s) && x < |s.pc| && i < |s.pc| && j < |s.pc| && x != i && x != j && PairOk(s, i, j)
    ensures PairOk(Next(s, x), i, j)
  {
    hide Waiters;
  }

  lemma OwnPair(s: State, i: nat, j: nat)
    requires WellFormed(s) && FlagsOk(s) && i < |s.pc| && j < |s.pc| && i != j && PairOk(s, i, j)
    ensures PairOk(Next(s, i), i, j)
  {
    hide Waiters;
  }

  lemma OtherPair(s: State, i: nat, j: nat)
    requires WellFormed(s) && FlagsOk(s) && i < |s.pc| && j < |s.pc| && i != j && PairOk(s, i, j)
    ensures PairOk(Next(s, j), i, j)
  {
    hide Waiters;
  }

  lemma AheadKept(s: State, x: nat, i: nat, j: nat)
    requires Inv(s) && x < |s.pc| && i < |s.pc| && j < |s.pc|
    ensures AheadOk(Next(s, x), i, j)
  {
    assert AheadOk(s, i, j);
    hide PairsOk;
  }

  lemma AheadsKept(s: State, x: nat)
    requires Inv(s) && x < |s.pc|
    ensures AheadsOk(Next(s, x))
  {
    forall i, j | 0 <= i < |s.pc| && 0 <= j < |s.pc|
      ensures AheadOk(Next(s, x), i, j)
    {
      AheadKept(s, x, i, j);
    }
    hide PairsOk, AheadOk, FlagsOk;
  }

  lemma NextInv(s: State, x: nat)
    requires Inv(s) && x < |s.pc|
    ensures Inv(Next(s, x))
  {
    FlagsKept(s, x);
    AheadsKept(s, x);
    forall i, j | 0 <= i < |s.pc| && 0 <= j < |s.pc| && i != j
      ensures PairOk(Next(s, x), i, j)
    {
      PairKept(s, x, i, j);
    }
  }

  // ---- every run ----

  function Exec(s: State, schedule: seq<nat>): (t: State)
    requires WellFormed(s) && forall k :: 0 <= k < |schedule| ==> schedule[k] < |s.pc|
    ensures WellFormed(t) && |t.pc| == |s.pc|
    decreases |schedule|
  {
    if schedule == [] then s else
      var last := |schedule| - 1;
      Next(Exec(s, schedule[..last]), schedule[last])
  }

  lemma {:induction false} ExecInv(s: State, schedule: seq<nat>)
    requires Inv(s) && forall k :: 0 <= k < |schedule| ==> schedule[k] < |s.pc|
    ensures Inv(Exec(s, schedule))
    decreases |schedule|
  {
    hide Inv, Next;
    WellFormedOf(s);
    if schedule != [] {
      var last := |schedule| - 1;
      ExecInv(s, schedule[..last]);
      NextInv(Exec(s, schedule[..last]), schedule[last]);
    }
  }

  lemma WellFormedOf(s: State)
    requires Inv(s)
    ensures WellFormed(s)
  {
  }

  ghost predicate Reachable(s: State) {
    exists s0: State, schedule: seq<nat> ::
      Initial(s0) && (forall k :: 0 <= k < |schedule| ==> schedule[k] < |s0.pc|) && s == Exec(s0, schedule)
  }

  lemma ReachableInv(s: State)
    requires Reachable(s)
    ensures Inv(s)
  {
    var s0: State, schedule: seq<nat> :|
      Initial(s0) && (forall k :: 0 <= k < |schedule| ==> schedule[k] < |s0.pc|) && s == Exec(s0, schedule);
    InitialInv(s0);
    ExecInv(s0, schedule);
  }

  /** At most one thread is between `lock` and `unlock`. */
  lemma MutualExclusion(s: State, i: nat, j: nat)
    requires Reachable(s) && i < |s.pc| && j < |s.pc| && s.pc[i].Critical? && s.pc[j].Critical?
    ensures i == j
  {
    ReachableInv(s);
    assert i != j ==> PairOk(s, i, j) && PairOk(s, j, i);
  }

  /** First come, first served: when thread j enters, every visit that had finished choosing before j began to
      choose is over. */
  lemma FirstComeFirstServed(s: State, i: nat, j: nat, v: Visit)
    requires Reachable(s) && i < |s.pc| && j < |s.pc| && j < |s.ahead| && s.pc[j].Critical?
    requires v in s.ahead[j] && v.thread == i && i < |s.round|
    ensures v.round < s.round[i] || !Waiting(s.pc[i])
  {
    ReachableInv(s);
    assert AheadOk(s, i, j) && v == Visit(i, v.round);
    assert i != j ==> PairOk(s, j, i);
  }

  /** The thread waits for another that has the right to go first, or that is choosing. */
  predicate Blocked(s: State, i: nat)
    requires WellFormed(s) && i < |s.pc|
  {
    match s.pc[i]
    case WaitChoosing(j) => j < |s.pc| && s.choosing[j]
    case WaitNonzero(j) => s.number[j] > 0 && Less(s, j, i)
    case WaitLess(j) => s.number[j] > 0 && Less(s, j, i)
    case WaitEqual(j) => s.number[j] > 0 && Less(s, j, i)
    case _ => false
  }

  /** Following who waits for whom leads to somebody who waits for nobody. */
  lemma {:induction false} Unblocked(s: State, i: nat) returns (k: nat)
    requires Inv(s) && i < |s.pc| && !s.pc[i].Idle?
    ensures k < |s.pc| && !s.pc[k].Idle? && !Blocked(s, k)
    decreases s.number[i], i
  {
    if !Blocked(s, i) {
      k := i;
    } else {
      var j := s.pc[i].j;
      if s.pc[i].WaitChoosing? {
        k := j;   // whoever is choosing waits for nobody
      } else {
        k := Unblocked(s, j);
      }
    }
  }

  function Least(j: nat, n: nat): nat {
    if j < n then j else n
  }

  /** How far a thread is on its way through the lock, among n threads. Going round the inner waiting loop is no
      progress. */
  function Progress(pc: Pc, n: nat): nat {
    match pc
    case SetChoosing => 0
    case Scan(j, _) => 1 + Least(j, n)
    case SetNumber(_) => n + 2
    case ClearChoosing => n + 3
    case WaitChoosing(j) => n + 4 + 2 * Least(j, n)
    case WaitNonzero(j) => n + 5 + 2 * Least(j, n)
    case WaitLess(j) => n + 5 + 2 * Least(j, n)
    case WaitEqual(j) => n + 5 + 2 * Least(j, n)
    case Critical => 3 * n + 5
    case Idle => 3 * n + 6
  }

  /** The state after thread k alone has made m accesses. */
  function Alone(s: State, k: nat, m: nat): (t: State)
    requires WellFormed(s) && k < |s.pc|
    ensures WellFormed(t) && |t.pc| == |s.pc|
  {
    if m == 0 then s else Next(Alone(s, k, m - 1), k)
  }

  predicate Trying(pc: Pc) {
    !pc.Idle? && !pc.Critical?
  }

  /** A thread that is not blocked gets on, from a waiting loop by passing its comparisons; when it is trying, it is
      still trying then, or in. */
  lemma Passes(s: State, k: nat) returns (m: nat)
    requires Inv(s) && k < |s.pc| && !s.pc[k].Idle? && !Blocked(s, k)
    ensures 0 < m <= 3 && Progress(Alone(s, k, m).pc[k], |s.pc|) > Progress(s.pc[k], |s.pc|)
    ensures Trying(s.pc[k]) ==> Trying(Alone(s, k, m).pc[k]) || Alone(s, k, m).pc[k].Critical?
    ensures s.pc[k].Critical? ==> Alone(s, k, m).pc[k].Idle?
  {
    hide PairsOk, AheadsOk, Waiters;
    var s1 := Next(s, k);
    var s2 := Next(s1, k);
    assert Alone(s, k, 0) == s && Alone(s, k, 1) == s1 && Alone(s, k, 2) == s2 && Alone(s, k, 3) == Next(s2, k);
    m := if s.pc[k].WaitLess? then 2 else if s.pc[k].WaitNonzero? && s.number[s.pc[k].j] > 0 then 3 else 1;
    hide FlagsOk;
  }

  /** The algorithm never deadlocks: while some thread is in it, some thread is that gets on by itself. */
  lemma SomebodyMoves(s: State, i: nat) returns (k: nat, m: nat)
    requires Reachable(s) && i < |s.pc| && !s.pc[i].Idle?
    ensures WellFormed(s) && k < |s.pc| && !s.pc[k].Idle?
    ensures 0 < m <= 3 && Progress(Alone(s, k, m).pc[k], |s.pc|) > Progress(s.pc[k], |s.pc|)
  {
    ReachableInv(s);
    k := Unblocked(s, i);
    m := Passes(s, k);
  }

  // ---- getting in and out ----

  function Left(s: State): nat {
    Sum(LeftOfAll(s.pc))
  }

  function LeftOf(pc: Pc, n: nat): nat {
    if Progress(pc, n) < 3 * n + 6 then 3 * n + 6 - Progress(pc, n) else 0
  }

  lemma {:induction false} AloneKeeps(s: State, k: nat, m: nat)
    requires Inv(s) && k < |s.pc|
    ensures Inv(Alone(s, k, m)) && forall j :: 0 <= j < |s.pc| && j != k ==> Alone(s, k, m).pc[j] == s.pc[j]
    decreases m
  {
    if m > 0 {
      AloneKeeps(s, k, m - 1);
      NextInv(Alone(s, k, m - 1), k);
    }
    hide Inv;
  }

  lemma ProgressBound(pc: Pc, n: nat)
    ensures Progress(pc, n) <= 3 * n + 6
  {
  }

  function LeftOfAll(pcs: seq<Pc>): seq<nat> {
    seq(|pcs|, i requires 0 <= i < |pcs| => LeftOf(pcs[i], |pcs|))
  }

  lemma LeftFalls(s: State, k: nat, m: nat)
    requires Inv(s) && k < |s.pc| && Progress(Alone(s, k, m).pc[k], |s.pc|) > Progress(s.pc[k], |s.pc|)
    ensures Left(Alone(s, k, m)) < Left(s)
  {
    var n := |s.pc|;
    var r := Alone(s, k, m);
    AloneKeeps(s, k, m);
    ProgressBound(r.pc[k], n);
    assert LeftOf(r.pc[k], n) < LeftOf(s.pc[k], n) by { hide Inv, Alone, Progress; }
    hide Inv, Progress, Alone, LeftOf;
    SumUpdate(LeftOfAll(s.pc), k, LeftOf(r.pc[k], n));
    assert LeftOfAll(s.pc)[k := LeftOf(r.pc[k], n)] == LeftOfAll(r.pc);
  }

  predicate Fits(s: State, run: seq<nat>) {
    forall q :: 0 <= q < |run| ==> run[q] < |s.pc|
  }

  lemma {:induction false} ExecThen(s: State, first: seq<nat>, more: seq<nat>)
    requires WellFormed(s) && Fits(s, first) && Fits(s, more)
    ensures Fits(s, first + more) && Exec(s, first + more) == Exec(Exec(s, first), more)
    decreases |more|
  {
    hide Next;
    if more == [] {
      assert first + more == first;
    } else {
      assert (first + more)[..|first + more| - 1] == first + more[..|more| - 1];
      ExecThen(s, first, more[..|more| - 1]);
    }
  }

  lemma {:induction false} AloneIsRun(s: State, k: nat, m: nat)
    requires WellFormed(s) && k < |s.pc|
    ensures Fits(s, seq(m, _ => k)) && Exec(s, seq(m, _ => k)) == Alone(s, k, m)
    decreases m
  {
    hide Next;
    if m > 0 {
      AloneIsRun(s, k, m - 1);
      assert seq(m, _ => k)[..m - 1] == seq(m - 1, _ => k);
    }
  }

  /** Every thread that is trying can get in: some schedule, in which no idle thread moves, brings it there. */
  lemma {:induction false} Enters(s: State, i: nat) returns (run: seq<nat>)
    requires Inv(s) && WellFormed(s) && i < |s.pc| && Trying(s.pc[i])
    ensures Fits(s, run) && Exec(s, run).pc[i].Critical?
    ensures forall k :: 0 <= k < |s.pc| && s.pc[k].Idle? ==> Exec(s, run).pc[k].Idle?
    decreases Left(s)
  {
    var k := Unblocked(s, i);
    var m := Passes(s, k);
    AloneKeeps(s, k, m);
    LeftFalls(s, k, m);
    AloneIsRun(s, k, m);
    hide Inv, Next, Alone, Left, Progress;
    var s1 := Alone(s, k, m);
    run := seq(m, _ => k);
    if !s1.pc[i].Critical? {
      var more := Enters(s1, i);
      ExecThen(s, run, more);
      run := run + more;
    }
  }

  lemma EntryPossible(s: State, i: nat) returns (run: seq<nat>)
    requires Reachable(s) && i < |s.pc| && Trying(s.pc[i])
    ensures WellFormed(s) && Fits(s, run) && Exec(s, run).pc[i].Critical?
    ensures forall k :: 0 <= k < |s.pc| && s.pc[k].Idle? ==> Exec(s, run).pc[k].Idle?
  {
    ReachableInv(s);
    run := Enters(s, i);
  }

  // ---- the program ----

  /** The shared arrays and one program counter for every thread. */
  class Machine {
    var choosing: array<bool>
    var number: array<nat>
    var pc: array<Pc>
    ghost var round: seq<nat>
    ghost var ahead: seq<set<Visit>>

    ghost predicate Valid()
      reads this, choosing, number, pc
    {
      WellFormed(Abs())
    }

    ghost function Abs(): State
      reads this, choosing, number, pc
    {
      State(choosing[..], number[..], pc[..], round, ahead)
    }

    constructor (n: nat)
      ensures Valid() && Initial(Abs()) && pc.Length == n
      ensures fresh(choosing) && fresh(number) && fresh(pc)
    {
      choosing := new bool[n](_ => false);
      number := new nat[n](_ => 0);
      pc := new Pc[n](_ => Idle);
      round := seq(n, _ => 0);
      ahead := seq(n, _ => {});
    }

    /** Thread i performs its next access. */
    method Step(i: nat)
      requires Valid() && i < pc.Length
      modifies this`round, this`ahead, choosing, number, pc
      ensures Valid() && Abs() == Next(old(Abs()), i)
    {
      ghost var was := Abs();
      match pc[i] {
        case Idle => pc[i] := SetChoosing; round := round[i := round[i] + 1];
        case SetChoosing => choosing[i] := true; pc[i] := Scan(0, 0); ahead := ahead[i := Waiters(was)];
        case Scan(j, max) =>
          if j >= number.Length { pc[i] := SetNumber(max); }
          else if number[j] > max { pc[i] := Scan(j + 1, number[j]); }
          else { pc[i] := Scan(j + 1, max); }
        case SetNumber(max) => number[i] := max + 1; pc[i] := ClearChoosing;
        case ClearChoosing => choosing[i] := false; pc[i] := WaitChoosing(0);
        case WaitChoosing(j) =>
          if j >= choosing.Length { pc[i] := Critical; } else if !choosing[j] { pc[i] := WaitNonzero(j); }
        case WaitNonzero(j) => if number[j] > 0 { pc[i] := WaitLess(j); } else { pc[i] := WaitChoosing(j + 1); }
        case WaitLess(j) => if number[j] < number[i] { pc[i] := WaitNonzero(j); } else { pc[i] := WaitEqual(j); }
        case WaitEqual(j) =>
          if number[j] == number[i] && j < i { pc[i] := WaitNonzero(j); } else { pc[i] := WaitChoosing(j + 1); }
        case Critical => number[i] := 0; pc[i] := Idle;
      }
      assert Abs() == Next(was, i);
    }

    /** Runs the threads in any order; the invariant, and with it the two theorems, survives. */
    method Run(schedule: seq<nat>)
      requires Valid() && Inv(Abs()) && forall k :: 0 <= k < |schedule| ==> schedule[k] < pc.Length
      modifies this`round, this`ahead, choosing, number, pc
      ensures Valid() && Inv(Abs()) && Abs() == Exec(old(Abs()), schedule)
    {
      for k := 0 to |schedule|
        invariant Valid() && choosing == old(choosing) && number == old(number) && pc == old(pc)
        invariant Inv(Abs()) && Abs() == Exec(old(Abs()), schedule[..k])
      {
        NextInv(Abs(), schedule[k]);
        assert schedule[..k + 1][..k] == schedule[..k];
        Step(schedule[k]);
      }
      assert schedule[..|schedule|] == schedule;
    }
  }
}
