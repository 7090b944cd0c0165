/** The MCS queue lock (spinlocks/mcs_spinlock.c), for any number of threads. One step is one access to `tail`,
    `next` or `locked`; every thread has the one node it keeps on its stack, named by the thread. */
module McsLock {
  import opened Counting


  datatype Ptr = Null | At(node: nat)

  /** ClearNext .. Unset: `lock`. TestNext .. Grant: `unlock`; CasTail after the node looked like the last,
      AwaitNext after it turned out not to be. */
  datatype Pc =
    | Idle | ClearNext | SetLocked | Exchange | Link(pred: nat) | Spin | Unset | Critical
    | TestNext | CasTail | AwaitNext | Pass | Grant(n: nat)

  /** `queue` records the threads in the order of their exchanges, up to the moment they pass the lock on. */
  datatype State = State(tail: Ptr, next: seq<Ptr>, locked: seq<bool>, pc: seq<Pc>, queue: seq<nat>)

  predicate WellFormed(s: State) {
    |s.next| == |s.locked| == |s.pc|
  }

  function Pop(q: seq<nat>): seq<nat> {
    if q == [] then [] else q[1..]
  }

  function Next(s: State, i: nat): (t: State)
    requires WellFormed(s) && i < |s.pc|
    ensures WellFormed(t) && |t.pc| == |s.pc|
  {
    match s.pc[i]
    case Idle => s.(pc := s.pc[i := ClearNext])
    case ClearNext => s.(next := s.next[i := Null], pc := s.pc[i := SetLocked])
    case SetLocked => s.(locked := s.locked[i := true], pc := s.pc[i := Exchange])
    case Exchange =>
      s.(tail := At(i), queue := s.queue + [i], pc := s.pc[i := if s.tail.At? then Link(s.tail.node) else Unset])
    case Link(pred) => if pred < |s.pc| then s.(next := s.next[pred := At(i)], pc := s.pc[i := Spin]) else s
    case Spin => if s.locked[i] then s else s.(pc := s.pc[i := Unset])
    case Unset => s.(locked := s.locked[i := false], pc := s.pc[i := Critical])
    case Critical => s.(pc := s.pc[i := TestNext])
    case TestNext => s.(pc := s.pc[i := if s.next[i].Null? then CasTail else Pass])
    case CasTail =>
      if s.tail == At(i) then s.(tail := Null, queue := Pop(s.queue), pc := s.pc[i := Idle])
      else s.(pc := s.pc[i := AwaitNext])
    case AwaitNext => if s.next[i].Null? then s else s.(pc := s.pc[i := Pass])
    case Pass => s.(pc := s.pc[i := if s.next[i].At? then Grant(s.next[i].node) else AwaitNext])
    case Grant(n) => if n < |s.pc| then s.(locked := s.locked[n := false], queue := Pop(s.queue), pc := s.pc[i := Idle])
        else s
  }

  predicate Initial(s: State) {
    && WellFormed(s) && s.tail == Null && s.queue == []
    && forall i :: 0 <= i < |s.pc| ==> s.pc[i] == Idle
  }

  // ---- the invariant ----

  predicate Queued(pc: Pc) {
    !pc.Idle? && !pc.ClearNext? && !pc.SetLocked? && !pc.Exchange?
  }

  /** At the head of the queue: holding the lock, or about to notice. */
  predicate First(pc: Pc, locked: bool, next: Ptr) {
    && Queued(pc) && !pc.Link? && (pc.Spin? ==> !locked) && (pc.Pass? ==> next.At?) && (pc.Grant? ==> next == At(pc.n))
  }

  /** The thread at place k of the queue. */
  ghost predicate PlaceOk(s: State, k: nat)
    requires WellFormed(s) && k < |s.queue| && s.queue[k] < |s.pc|
  {
    var i := s.queue[k];
    && Queued(s.pc[i])
    && (k == 0 ==> First(s.pc[i], s.locked[i], s.next[i]) && (s.pc[i].AwaitNext? ==> |s.queue| > 1))
    && (k > 0 ==> s.locked[i] && (s.pc[i] == Link(s.queue[k - 1]) || s.pc[i] == Spin))
    && (k + 1 == |s.queue| ==> s.next[i] == Null)
    && (k + 1 < |s.queue| && s.queue[k + 1] < |s.pc| ==>
        s.next[i] == (if s.pc[s.queue[k + 1]].Link? then Null else At(s.queue[k + 1])))
  }

  ghost predicate PlacesOk(s: State)
    requires WellFormed(s) && QueueOk(s)
  {
    forall k :: 0 <= k < |s.queue| ==> PlaceOk(s, k)
  }

  predicate QueueOk(s: State)
    requires WellFormed(s)
  {
    && s.tail == (if s.queue == [] then Null else At(s.queue[|s.queue| - 1]))
    && (forall k :: 0 <= k < |s.queue| ==> s.queue[k] < |s.pc|)
    && (forall j, k :: 0 <= j < k < |s.queue| ==> s.queue[j] != s.queue[k])
  }

  /** Thread i is in the queue when it has to be, and ready to enter it. */
  predicate ThreadOk(s: State, i: nat)
    requires WellFormed(s) && i < |s.pc|
  {
    && (Queued(s.pc[i]) <==> i in s.queue)
    && (s.pc[i].SetLocked? || s.pc[i].Exchange? ==> s.next[i] == Null)
    && (s.pc[i].Exchange? ==> s.locked[i])
  }

  ghost predicate Inv(s: State) {
    && WellFormed(s) && QueueOk(s) && PlacesOk(s)
    && (forall i :: 0 <= i < |s.pc| ==> ThreadOk(s, i))
  }

  lemma InitialInv(s: State)
    requires Initial(s)
    ensures Inv(s)
  {
  }

  /** Whoever is past its wait, or giving the lock away, is at the head of the queue. */
  lemma AtHead(s: State, i: nat)
    requires Inv(s) && i < |s.pc| && Queued(s.pc[i]) && !s.pc[i].Link? && (s.pc[i].Spin? ==> !s.locked[i])
    ensures s.queue != [] && s.queue[0] == i && PlaceOk(s, 0)
  {
    assert ThreadOk(s, i);
    var k :| 0 <= k < |s.queue| && s.queue[k] == i;
    assert PlaceOk(s, k);
  }

  /** Where a thread that is about to link itself stands. */
  lemma Linking(s: State, i: nat) returns (k: nat)
    requires Inv(s) && i < |s.pc| && s.pc[i].Link?
    ensures 0 < k < |s.queue| && s.queue[k] == i && s.queue[k - 1] == s.pc[i].pred < |s.pc|
  {
    assert ThreadOk(s, i);
    k :| 0 <= k < |s.queue| && s.queue[k] == i;
    assert PlaceOk(s, k);
  }

  predicate Leaves(s: State, i: nat)
    requires WellFormed(s) && i < |s.pc|
  {
    (s.pc[i].CasTail? && s.tail == At(i)) || s.pc[i].Grant?
  }

  /** What the thread at the head leaves behind. */
  lemma LeaveFacts(s: State, i: nat)
    requires Inv(s) && i < |s.pc| && Leaves(s, i)
    ensures s.queue != [] && s.queue == [i] + s.queue[1..] && i !in s.queue[1..] && Next(s, i).queue == s.queue[1..]
    ensures if s.pc[i].CasTail? then s.queue == [i] else |s.queue| > 1 && s.queue[1] == s.pc[i].n < |s.pc|
  {
    AtHead(s, i);
    hide PlacesOk, ThreadOk;
  }

  lemma QueueKept(s: State, i: nat)
    requires Inv(s) && i < |s.pc|
    ensures QueueOk(Next(s, i))
  {
    assert ThreadOk(s, i);
    if Leaves(s, i) {
      LeaveFacts(s, i);
    }
    hide PlacesOk, ThreadOk;
  }

  lemma ThreadKept(s: State, i: nat, j: nat)
    requires Inv(s) && i < |s.pc| && j < |s.pc|
    ensures ThreadOk(Next(s, i), j)
  {
    assert ThreadOk(s, i) && ThreadOk(s, j);
    if Leaves(s, i) {
      LeaveFacts(s, i);
    } else if s.pc[i].Link? {
      var k := Linking(s, i);
      assert ThreadOk(s, s.pc[i].pred);
    }
    hide PlacesOk, QueueOk;
  }

  /** The thread's own accesses, as far as they concern nobody else. */
  predicate Private(pc: Pc) {
    !pc.Exchange? && !pc.Link? && !pc.CasTail? && !pc.Grant?
  }

  lemma PrivatePlace(s: State, i: nat, k: nat)
    requires Inv(s) && i < |s.pc| && (Private(s.pc[i]) || (s.pc[i].CasTail? && s.tail != At(i))) && k < |s.queue|
    requires QueueOk(Next(s, i))
    ensures PlaceOk(Next(s, i), k)
  {
    assert PlaceOk(s, k) && ThreadOk(s, i);
    if Queued(s.pc[i]) && (s.pc[i].Spin? ==> !s.locked[i]) { AtHead(s, i); }
    if s.queue[k] == i && s.pc[i].CasTail? { assert |s.queue| > 1; }
    hide PlacesOk, ThreadOk;
  }

  lemma ExchangePlace(s: State, i: nat, k: nat)
    requires Inv(s) && i < |s.pc| && s.pc[i].Exchange? && k < |s.queue| + 1 && QueueOk(Next(s, i))
    ensures PlaceOk(Next(s, i), k)
  {
    if k < |s.queue| { assert PlaceOk(s, k); }
    assert ThreadOk(s, i);
    hide PlacesOk, ThreadOk;
  }

  lemma LinkPlace(s: State, i: nat, k: nat)
    requires Inv(s) && i < |s.pc| && s.pc[i].Link? && k < |s.queue| && QueueOk(Next(s, i))
    ensures PlaceOk(Next(s, i), k)
  {
    assert PlaceOk(s, k);
    var m := Linking(s, i);
    assert PlaceOk(s, m - 1) && PlaceOk(s, m);
    hide PlacesOk, ThreadOk;
  }

  lemma LeavePlace(s: State, i: nat, k: nat)
    requires Inv(s) && i < |s.pc| && Leaves(s, i) && k + 1 < |s.queue| && QueueOk(Next(s, i))
    ensures k < |Next(s, i).queue| && PlaceOk(Next(s, i), k)
  {
    LeaveFacts(s, i);
    AtHead(s, i);
    assert PlaceOk(s, k + 1);
    var t := Next(s, i);
    assert t.queue[k] == s.queue[k + 1];
    assert k + 2 < |s.queue| ==> t.queue[k + 1] == s.queue[k + 2];
    assert k > 0 ==> t.queue[k - 1] == s.queue[k];
    hide PlacesOk, ThreadOk;
  }

  lemma NextInv(s: State, i: nat)
    requires Inv(s) && i < |s.pc|
    ensures Inv(Next(s, i))
  {
    var t := Next(s, i);
    QueueKept(s, i);
    forall j | 0 <= j < |t.pc|
      ensures ThreadOk(t, j)
    {
      ThreadKept(s, i, j);
    }
    forall k | 0 <= k < |t.queue|
      ensures PlaceOk(t, k)
    {
      if Leaves(s, i) {
        LeaveFacts(s, i);
        LeavePlace(s, i, k);
      } else if s.pc[i].Exchange? {
        ExchangePlace(s, i, k);
      } else if s.pc[i].Link? {
        LinkPlace(s, i, k);
      } else {
        PrivatePlace(s, i, k);
      }
    }
    hide PlaceOk, ThreadOk, QueueOk, Next;
  }

  // ---- every run ----

  function Exec(s: State, schedule: seq<nat>): (t: State)
    requires WellFormed(s)
    ensures WellFormed(t) && |t.pc| == |s.pc|
    decreases |schedule|
  {
    if schedule == [] then s else
      var last := |schedule| - 1;
      var before := Exec(s, schedule[..last]);
      if schedule[last] < |s.pc| then Next(before, schedule[last]) else before
  }

  lemma {:induction false} ExecInv(s: State, schedule: seq<nat>)
    requires Inv(s)
    ensures Inv(Exec(s, schedule))
    decreases |schedule|
  {
    hide QueueOk, PlacesOk, ThreadOk, Next;
    if schedule != [] {
      var last := |schedule| - 1;
      ExecInv(s, schedule[..last]);
      if schedule[last] < |s.pc| {
        NextInv(Exec(s, schedule[..last]), schedule[last]);
      }
    }
  }

  ghost predicate Reachable(s: State) {
    exists s0: State, schedule: seq<nat> :: Initial(s0) && s == Exec(s0, schedule)
  }

  lemma ReachableInv(s: State)
    requires Reachable(s)
    ensures Inv(s)
  {
    var s0: State, schedule: seq<nat> :| Initial(s0) && s == Exec(s0, schedule);
    InitialInv(s0);
    ExecInv(s0, schedule);
  }

  /** Only the head of the queue is between `lock` and `unlock`, so at most one thread is. */
  lemma OneHolder(s: State, i: nat)
    requires Reachable(s) && i < |s.pc| && s.pc[i].Critical?
    ensures s.queue != [] && s.queue[0] == i
    ensures forall j :: 0 <= j < |s.pc| && s.pc[j].Critical? ==> j == i
  {
    ReachableInv(s);
    AtHead(s, i);
    forall j | 0 <= j < |s.pc| && s.pc[j].Critical?
      ensures j == i
    {
      AtHead(s, j);
    }
  }

  /** Threads queue up with their exchange on `tail` and leave from the head: the lock is handed on in the
      order of the exchanges. */
  lemma FirstInFirstOut(s: State, i: nat)
    requires Reachable(s) && i < |s.pc| && WellFormed(s)
    ensures var t := Next(s, i);
            || t.queue == s.queue
            || (s.pc[i].Exchange? && t.queue == s.queue + [i])
            || (Leaves(s, i) && s.queue == [i] + t.queue
                && (t.queue != [] ==> t.queue[0] < |t.pc| && t.pc[t.queue[0]].Spin? && !t.locked[t.queue[0]]))
  {
    ReachableInv(s);
    NextInv(s, i);
    if Leaves(s, i) {
      LeaveFacts(s, i);
      if |s.queue| > 1 {
        assert PlaceOk(s, 1) && PlaceOk(s, 0) && s.queue[1] != s.queue[0];
      }
    }
    hide PlacesOk, QueueOk, ThreadOk;
  }

  /** The late link: when the compare-and-swap on `tail` fails, a successor has exchanged itself in behind the
      node, linked or about to be. */
  lemma FailedCasHasSuccessor(s: State, i: nat)
    requires Reachable(s) && i < |s.pc| && (s.pc[i].CasTail? || s.pc[i].AwaitNext?)
    ensures s.queue != [] && s.queue[0] == i && i < |s.next|
    ensures s.pc[i].CasTail? ==> (s.tail != At(i) <==> |s.queue| > 1)
    ensures s.pc[i].AwaitNext? ==> |s.queue| > 1
    ensures |s.queue| > 1 ==>
              && s.queue[1] < |s.pc|
              && (s.next[i] == At(s.queue[1]) || (s.next[i] == Null && s.pc[s.queue[1]] == Link(i)))
  {
    ReachableInv(s);
    AtHead(s, i);
    if |s.queue| > 1 {
      assert PlaceOk(s, 1);
    }
  }

  /** No deadlock: when some thread is not idle, some thread that is not idle can move. */
  lemma SomebodyMoves(s: State, i: nat) returns (k: nat)
    requires Reachable(s) && WellFormed(s) && i < |s.pc| && !s.pc[i].Idle?
    ensures k < |s.pc| && !s.pc[k].Idle? && Next(s, k).pc[k] != s.pc[k]
  {
    ReachableInv(s);
    assert ThreadOk(s, i);
    if !Queued(s.pc[i]) {
      k := i;
    } else {
      k := s.queue[0];
      assert PlaceOk(s, 0);
      if s.pc[k].AwaitNext? && s.next[k].Null? {
        k := s.queue[1];
        assert PlaceOk(s, 1);
      } else if s.pc[k].Grant? {
        assert |s.queue| > 1;
      }
    }
  }

  // ---- getting in and out ----

  lemma ReachableNext(s: State, i: nat)
    requires Reachable(s) && i < |s.pc|
    ensures WellFormed(s) && Reachable(Next(s, i)) && |Next(s, i).pc| == |s.pc|
  {
    ReachableInv(s);
    assert WellFormed(s);
    hide Initial, Next, Inv;
    var s0: State, schedule: seq<nat> :| Initial(s0) && s == Exec(s0, schedule);
    SameThreads(s0, schedule);
    assert (schedule + [i])[..|schedule + [i]| - 1] == schedule;
    assert Next(s, i) == Exec(s0, schedule + [i]);
  }

  lemma {:induction false} SameThreads(s: State, schedule: seq<nat>)
    requires WellFormed(s)
    ensures |Exec(s, schedule).pc| == |s.pc| && WellFormed(Exec(s, schedule))
    decreases |schedule|
  {
    hide Next, WellFormed;
    if schedule != [] { SameThreads(s, schedule[..|schedule| - 1]); }
  }

  /** The state after thread k alone has made m accesses. */
  function Alone(s: State, k: nat, m: nat): State
    decreases m
  {
    if m == 0 then s else
      var before := Alone(s, k, m - 1);
      if WellFormed(before) && k < |before.pc| then Next(before, k) else before
  }

  predicate Trying(pc: Pc) {
    pc.ClearNext? || pc.SetLocked? || pc.Exchange? || pc.Link? || pc.Spin? || pc.Unset?
  }

  /** The accesses a thread still makes until it is idle, at most. */
  function Rank(pc: Pc): nat {
    match pc
    case Idle => 0
    case ClearNext => 12
    case SetLocked => 11
    case Exchange => 10
    case Link(_) => 9
    case Spin => 8
    case Unset => 7
    case Critical => 6
    case TestNext => 5
    case CasTail => 4
    case AwaitNext => 3
    case Pass => 2
    case Grant(_) => 1
  }

  lemma RankFalls(s: State, k: nat)
    requires Inv(s) && k < |s.pc| && !s.pc[k].Idle? && Next(s, k).pc[k] != s.pc[k]
    ensures Rank(Next(s, k).pc[k]) < Rank(s.pc[k])
  {
    assert ThreadOk(s, k);
    if s.pc[k].Pass? { AtPlace(s, k); }
    hide QueueOk, PlacesOk;
  }

  /** A thread about to pass the lock on has a successor. */
  lemma AtPlace(s: State, k: nat)
    requires Inv(s) && k < |s.pc| && s.pc[k].Pass?
    ensures s.next[k].At?
  {
    assert ThreadOk(s, k);
    var j :| 0 <= j < |s.queue| && s.queue[j] == k;
    assert PlaceOk(s, j);
  }

  /** A thread that finds nobody else is in after five accesses, and out after three more. */
  lemma EntersAlone(s: State, i: nat)
    requires Reachable(s) && i < |s.pc| && forall k :: 0 <= k < |s.pc| ==> s.pc[k].Idle?
    ensures Alone(s, i, 5).pc == s.pc[i := Critical] && Alone(s, i, 8).pc == s.pc && Alone(s, i, 8).tail == Null
  {
    ReachableInv(s);
    assert |s.queue| > 0 ==> PlaceOk(s, 0);
    assert WellFormed(s) && s.tail == Null;
    hide Inv, Reachable;
    var s1 := Next(s, i);
    var s2 := Next(s1, i);
    var s3 := Next(s2, i);
    var s4 := Next(s3, i);
    var s5 := Next(s4, i);
    var s6 := Next(s5, i);
    var s7 := Next(s6, i);
    assert Alone(s, i, 0) == s && Alone(s, i, 1) == s1 && Alone(s, i, 2) == s2 && Alone(s, i, 3) == s3;
    assert Alone(s, i, 4) == s4 && Alone(s, i, 5) == s5 && Alone(s, i, 6) == s6 && Alone(s, i, 7) == s7;
    assert Alone(s, i, 8) == Next(s7, i);
  }

  function Total(s: State): nat {
    Sum(seq(|s.pc|, i requires 0 <= i < |s.pc| => Rank(s.pc[i])))
  }

  lemma StepFalls(s: State, k: nat)
    requires Inv(s) && k < |s.pc| && !s.pc[k].Idle? && Next(s, k).pc[k] != s.pc[k]
    ensures Total(Next(s, k)) < Total(s) && Next(s, k).pc == s.pc[k := Next(s, k).pc[k]]
    ensures Trying(s.pc[k]) ==> Trying(Next(s, k).pc[k]) || Next(s, k).pc[k].Critical?
  {
    var v := seq(|s.pc|, i requires 0 <= i < |s.pc| => Rank(s.pc[i]));
    var r := Next(s, k);
    SumUpdate(v, k, Rank(r.pc[k]));
    assert r.pc == s.pc[k := r.pc[k]];
    assert v[k := Rank(r.pc[k])] == seq(|r.pc|, i requires 0 <= i < |r.pc| => Rank(r.pc[i]));
    RankFalls(s, k);
  }

  /** Every thread that is trying can get in: some schedule, in which no idle thread moves, brings it there. */
  lemma {:induction false} EntryPossible(s: State, i: nat) returns (r: State, schedule: seq<nat>)
    requires Reachable(s) && i < |s.pc| && Trying(s.pc[i])
    ensures r == Exec(s, schedule) && |r.pc| == |s.pc| && r.pc[i].Critical?
    ensures forall k :: 0 <= k < |s.pc| && s.pc[k].Idle? ==> r.pc[k].Idle?
    decreases Total(s)
  {
    ReachableInv(s);
    assert WellFormed(s);
    var k := SomebodyMoves(s, i);
    StepFalls(s, k);
    ReachableNext(s, k);
    hide Reachable, Inv, Total, Next, WellFormed;
    var s1 := Next(s, k);
    if s1.pc[i].Critical? {
      r, schedule := s1, [];
      assert Exec(s1, []) == s1;
    } else {
      r, schedule := EntryPossible(s1, i);
    }
    ExecOne(s, k, schedule);
    schedule := [k] + schedule;
  }

  lemma {:induction false} ExecOne(s: State, k: nat, schedule: seq<nat>)
    requires WellFormed(s) && k < |s.pc|
    ensures Exec(s, [k] + schedule) == Exec(Next(s, k), schedule)
    decreases |schedule|
  {
    hide Next;
    var all := [k] + schedule;
    if schedule == [] {
      assert all[..0] == [] && Exec(s, []) == s;
    } else {
      ExecOne(s, k, schedule[..|schedule| - 1]);
      assert all[..|all| - 1] == [k] + schedule[..|schedule| - 1];
    }
  }

  // ---- the program ----

  class Machine {
    var tail: Ptr
    var next: array<Ptr>
    var locked: array<bool>
    var pc: array<Pc>
    ghost var queue: seq<nat>

    ghost predicate Valid()
      reads this, next, locked, pc
    {
      WellFormed(Abs())
    }

    ghost function Abs(): State
      reads this, next, locked, pc
    {
      State(tail, next[..], locked[..], pc[..], queue)
    }

    constructor (n: nat)
      ensures Valid() && Initial(Abs()) && pc.Length == n && fresh(next) && fresh(locked) && fresh(pc)
    {
      tail, queue := Null, [];
      next := new Ptr[n](_ => Null);
      locked := new bool[n](_ => false);
      pc := new Pc[n](_ => Idle);
    }

    /** Thread i performs its next access. */
    method Step(i: nat)
      requires Valid() && i < pc.Length
      modifies this`tail, this`queue, next, locked, pc
      ensures Valid() && Abs() == Next(old(Abs()), i)
    {
      match pc[i] {
        case Idle => pc[i] := ClearNext;
        case ClearNext => next[i] := Null; pc[i] := SetLocked;
        case SetLocked => locked[i] := true; pc[i] := Exchange;
        case Exchange =>
          var predecessor := tail;
          tail := At(i);
          queue := queue + [i];
          pc[i] := if predecessor.At? then Link(predecessor.node) else Unset;
        case Link(pred) => if pred < next.Length { next[pred] := At(i); pc[i] := Spin; }
        case Spin => if !locked[i] { pc[i] := Unset; }
        case Unset => locked[i] := false; pc[i] := Critical;
        case Critical => pc[i] := TestNext;
        case TestNext => pc[i] := if next[i].Null? then CasTail else Pass;
        case CasTail =>
          if tail == At(i) { tail, queue := Null, Pop(queue); pc[i] := Idle; } else { pc[i] := AwaitNext; }
        case AwaitNext => if !next[i].Null? { pc[i] := Pass; }
        case Pass => pc[i] := if next[i].At? then Grant(next[i].node) else AwaitNext;
        case Grant(n) => if n < locked.Length { locked[n] := false; queue := Pop(queue); pc[i] := Idle; }
      }
    }

    /** Runs the threads in any order; the invariant survives. */
    method Run(schedule: seq<nat>)
      requires Valid() && Inv(Abs())
      modifies this`tail, this`queue, next, locked, pc
      ensures Valid() && Inv(Abs()) && Abs() == Exec(old(Abs()), schedule)
    {
      for k := 0 to |schedule|
        invariant Valid() && next == old(next) && locked == old(locked) && pc == old(pc)
        invariant Inv(Abs()) && Abs() == Exec(old(Abs()), schedule[..k])
      {
        assert schedule[..k + 1][..k] == schedule[..k];
        if schedule[k] < pc.Length {
          NextInv(Abs(), schedule[k]);
          Step(schedule[k]);
        }
      }
      assert schedule[..|schedule|] == schedule;
    }
  }
}
