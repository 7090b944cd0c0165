/** The CLH queue lock (spinlocks/clh_spinlock.c), for any number of threads. One step is one access to `tail`
    or `locked`; `prev` and a thread's own node pointer are private. A thread leaves with its predecessor's
    node, so nodes change hands. */
module ClhLock {
  import opened Counting


  datatype Pc = Idle | Exchange | Spin | Critical

  /** The node a thread will use, or uses, and the node it has found in front of it. */
  datatype Thread = Thread(pc: Pc, node: nat, prev: nat)

  datatype Owner = Spare | Of(thread: nat)

  /** `queue` records the threads in the order of their exchanges, `spare` the node that nobody is going to
      use, and `owner` who has each node. */
  datatype State = State(tail: nat, locked: seq<bool>, threads: seq<Thread>, queue: seq<nat>, spare: nat,
                         owner: seq<Owner>)

  predicate WellFormed(s: State) {
    && |s.locked| == |s.owner|
    && forall i :: 0 <= i < |s.threads| ==> s.threads[i].node < |s.locked| && s.threads[i].prev < |s.locked|
  }

  function Pop(q: seq<nat>): seq<nat> {
    if q == [] then [] else q[1..]
  }

  /** Thread i takes its predecessor's node, and releases its own. */
  function Release(s: State, i: nat): State
    requires WellFormed(s) && i < |s.threads|
  {
    var th := s.threads[i];
    s.(locked := s.locked[th.node := false], threads := s.threads[i := Thread(Idle, th.prev, th.prev)],
       queue := Pop(s.queue), spare := th.node, owner := s.owner[th.prev := Of(i)][th.node := Spare])
  }

  function Next(s: State, i: nat): (t: State)
    requires WellFormed(s) && i < |s.threads|
    ensures |t.threads| == |s.threads| && |t.locked| == |s.locked|
  {
    var th := s.threads[i];
    match th.pc
    case Idle => s.(locked := s.locked[th.node := true], threads := s.threads[i := th.(pc := Exchange)])
    case Exchange =>
      if s.tail >= |s.locked| then s
      else s.(tail := th.node, threads := s.threads[i := th.(pc := Spin, prev := s.tail)], queue := s.queue + [i])
    case Spin => if s.locked[th.prev] then s else s.(threads := s.threads[i := th.(pc := Critical)])
    case Critical => Release(s, i)
  }

  /** n threads with a node each, and one more that `tail` points to. */
  predicate Initial(s: State) {
    && WellFormed(s) && |s.locked| == |s.threads| + 1
    && s.tail == s.spare == |s.threads| && s.queue == []
    && (forall x :: 0 <= x < |s.locked| ==> !s.locked[x])
    && (forall i :: 0 <= i < |s.threads| ==> s.threads[i] == Thread(Idle, i, i))
    && s.owner == seq(|s.threads|, i requires 0 <= i < |s.threads| => Of(i)) + [Spare]
  }

  // ---- the invariant ----

  predicate Queued(pc: Pc) {
    pc.Spin? || pc.Critical?
  }

  /** The node in front of place k of the queue. */
  function Front(s: State, k: nat): nat
    requires k <= |s.queue| && forall j :: 0 <= j < k ==> s.queue[j] < |s.threads|
  {
    if k == 0 then s.spare else s.threads[s.queue[k - 1]].node
  }

  ghost predicate QueueOk(s: State) {
    && (forall k :: 0 <= k < |s.queue| ==> s.queue[k] < |s.threads|)
    && (forall j, k :: 0 <= j < k < |s.queue| ==> s.queue[j] != s.queue[k])
    && s.tail == Front(s, |s.queue|)
  }

  /** The thread at place k has the node of the one before it in front of it, and waits unless it is first. */
  ghost predicate PlaceOk(s: State, k: nat)
    requires QueueOk(s) && k < |s.queue|
  {
    var th := s.threads[s.queue[k]];
    Queued(th.pc) && th.prev == Front(s, k) && (k > 0 ==> th.pc.Spin?)
  }

  predicate ThreadOk(s: State, i: nat)
    requires WellFormed(s) && i < |s.threads|
  {
    && s.owner[s.threads[i].node] == Of(i)
    && (Queued(s.threads[i].pc) <==> i in s.queue)
    && (s.locked[s.threads[i].node] <==> !s.threads[i].pc.Idle?)
  }

  /** Every node is spare or the node of one thread. */
  predicate NodeOk(s: State, x: nat)
    requires WellFormed(s) && x < |s.owner|
  {
    match s.owner[x]
    case Spare => x == s.spare && !s.locked[x]
    case Of(i) => i < |s.threads| && s.threads[i].node == x
  }

  ghost predicate PlacesOk(s: State)
    requires QueueOk(s)
  {
    forall k :: 0 <= k < |s.queue| ==> PlaceOk(s, k)
  }

  ghost predicate ThreadsOk(s: State)
    requires WellFormed(s)
  {
    forall i :: 0 <= i < |s.threads| ==> ThreadOk(s, i)
  }

  ghost predicate NodesOk(s: State)
    requires WellFormed(s)
  {
    && s.spare < |s.owner| && s.owner[s.spare] == Spare
    && (forall x :: 0 <= x < |s.owner| ==> NodeOk(s, x))
  }

  ghost predicate Inv(s: State) {
    WellFormed(s) && QueueOk(s) && PlacesOk(s) && ThreadsOk(s) && NodesOk(s)
  }

  lemma InitialInv(s: State)
    requires Initial(s)
    ensures Inv(s)
  {
  }

  /** A thread that finds its predecessor's node unlocked, or holds the lock, is first. */
  lemma AtHead(s: State, i: nat)
    requires Inv(s) && i < |s.threads|
    requires s.threads[i].pc.Critical? || (s.threads[i].pc.Spin? && !s.locked[s.threads[i].prev])
    ensures s.queue != [] && s.queue[0] == i && s.threads[i].prev == s.spare && s.queue == [i] + s.queue[1..]
    ensures forall k :: 0 < k < |s.queue| ==> s.queue[k] != i
  {
    assert ThreadOk(s, i);
    var k :| 0 <= k < |s.queue| && s.queue[k] == i;
    assert PlaceOk(s, k);
    var before := if k > 0 then k - 1 else 0;
    assert PlaceOk(s, before) && ThreadOk(s, s.queue[before]);
  }

  /** What is special about the thread that moves. */
  lemma Actor(s: State, i: nat)
    requires Inv(s) && i < |s.threads|
    ensures ThreadOk(s, i) && NodeOk(s, s.threads[i].node) && NodeOk(s, s.spare)
    ensures s.threads[i].pc.Critical? || (s.threads[i].pc.Spin? && !s.locked[s.threads[i].prev]) ==>
              s.queue != [] && s.queue[0] == i && s.threads[i].prev == s.spare && s.queue == [i] + s.queue[1..]
    ensures s.threads[i].pc.Critical? ==> forall k :: 0 < k < |s.queue| ==> s.queue[k] != i
    ensures s.threads[i].node < |s.owner| && s.spare < |s.owner| && s.threads[i].node != s.spare && s.tail < |s.locked|
  {
    if s.threads[i].pc.Critical? || (s.threads[i].pc.Spin? && !s.locked[s.threads[i].prev]) { AtHead(s, i); }
    assert ThreadOk(s, i);
  }

  lemma ThreadsKept(s: State, i: nat)
    requires Inv(s) && i < |s.threads|
    ensures WellFormed(Next(s, i)) && ThreadsOk(Next(s, i))
  {
    var t := Next(s, i);
    Actor(s, i);
    forall j | 0 <= j < |t.threads|
      ensures ThreadOk(t, j)
    {
      assert ThreadOk(s, j);
    }
    hide PlacesOk, NodesOk;
  }

  lemma NodesKept(s: State, i: nat)
    requires Inv(s) && i < |s.threads| && WellFormed(Next(s, i))
    ensures NodesOk(Next(s, i))
  {
    var t := Next(s, i);
    Actor(s, i);
    forall x | 0 <= x < |t.owner|
      ensures NodeOk(t, x)
    {
      assert NodeOk(s, x);
    }
    hide PlacesOk, ThreadsOk, QueueOk;
  }

  lemma EnterPlaces(s: State, i: nat)
    requires Inv(s) && i < |s.threads| && !s.threads[i].pc.Critical?
    ensures QueueOk(Next(s, i)) && PlacesOk(Next(s, i))
  {
    var t := Next(s, i);
    Actor(s, i);
    hide NodesOk, ThreadsOk;
    assert forall k :: 0 <= k <= |s.queue| ==> Front(t, k) == Front(s, k);
    assert QueueOk(t);
    forall k | 0 <= k < |t.queue|
      ensures PlaceOk(t, k)
    {
      if k < |s.queue| { assert PlaceOk(s, k); }
    }
  }

  lemma ReleasePlaces(s: State, i: nat)
    requires Inv(s) && i < |s.threads| && s.threads[i].pc.Critical?
    ensures QueueOk(Next(s, i)) && PlacesOk(Next(s, i))
  {
    var t := Next(s, i);
    Actor(s, i);
    hide NodesOk, ThreadsOk;
    assert t.queue == s.queue[1..];
    assert forall k :: 0 <= k < |t.queue| ==> t.queue[k] == s.queue[k + 1];
    forall k | 0 <= k <= |t.queue|
      ensures Front(t, k) == Front(s, k + 1)
    {
      if k > 0 { assert t.queue[k - 1] == s.queue[k] != i; }
    }
    assert QueueOk(t);
    forall k | 0 <= k < |t.queue|
      ensures PlaceOk(t, k)
    {
      assert PlaceOk(s, k + 1) && t.queue[k] == s.queue[k + 1] != i;
    }
  }

  lemma NextInv(s: State, i: nat)
    requires Inv(s) && i < |s.threads|
    ensures Inv(Next(s, i))
  {
    ThreadsKept(s, i);
    NodesKept(s, i);
    if s.threads[i].pc.Critical? { ReleasePlaces(s, i); } else { EnterPlaces(s, i); }
    hide Next, WellFormed, QueueOk, PlacesOk, ThreadsOk, NodesOk;
  }

  // ---- every run ----

  function Exec(s: State, schedule: seq<nat>): State
    decreases |schedule|
  {
    if schedule == [] then s else
      var last := |schedule| - 1;
      var before := Exec(s, schedule[..last]);
      if WellFormed(before) && schedule[last] < |before.threads| then Next(before, schedule[last]) else before
  }

  lemma {:induction false} ExecInv(s: State, schedule: seq<nat>)
    requires Inv(s)
    ensures Inv(Exec(s, schedule)) && |Exec(s, schedule).threads| == |s.threads|
            && |Exec(s, schedule).locked| == |s.locked|
    decreases |schedule|
  {
    hide QueueOk, PlacesOk, ThreadsOk, NodesOk, Next;
    if schedule != [] {
      var last := |schedule| - 1;
      ExecInv(s, schedule[..last]);
      var before := Exec(s, schedule[..last]);
      if schedule[last] < |before.threads| {
        NextInv(before, schedule[last]);
      }
    }
  }

  ghost predicate Reachable(s: State) {
    exists s0: State, schedule: seq<nat> :: Initial(s0) && s == Exec(s0, schedule)
  }

  lemma ReachableInv(s: State)
    requires Reachable(s)
    ensures Inv(s) && |s.locked| == |s.threads| + 1
  {
    var s0: State, schedule: seq<nat> :| Initial(s0) && s == Exec(s0, schedule);
    InitialInv(s0);
    ExecInv(s0, schedule);
  }

  /** Only the head of the queue holds the lock, so at most one thread does. */
  lemma OneHolder(s: State, i: nat)
    requires Reachable(s) && i < |s.threads| && s.threads[i].pc.Critical?
    ensures s.queue != [] && s.queue[0] == i
    ensures forall j :: 0 <= j < |s.threads| && s.threads[j].pc.Critical? ==> j == i
  {
    ReachableInv(s);
    AtHead(s, i);
    forall j | 0 <= j < |s.threads| && s.threads[j].pc.Critical?
      ensures j == i
    {
      AtHead(s, j);
    }
  }

  /** Threads queue up with their exchange and leave from the head; the next one finds its predecessor's node
      unlocked although another thread may be using it soon. */
  lemma FirstInFirstOut(s: State, i: nat)
    requires Reachable(s) && i < |s.threads| && WellFormed(s)
    ensures var t := Next(s, i);
            || t.queue == s.queue
            || (s.threads[i].pc.Exchange? && t.queue == s.queue + [i])
            || (s.threads[i].pc.Critical? && s.queue == [i] + t.queue)
  {
    ReachableInv(s);
    Actor(s, i);
    hide Inv;
  }

  /** The N + 1 nodes stay divided among the N threads, one each, and one spare; the spare node is unlocked, is
      what the first in the queue looks at, and the tail when there is none. */
  lemma NodesDivided(s: State)
    requires Reachable(s)
    ensures |s.locked| == |s.threads| + 1 == |s.owner|
    ensures forall i :: 0 <= i < |s.threads| ==> s.threads[i].node < |s.owner| && s.owner[s.threads[i].node] == Of(i)
    ensures forall x :: 0 <= x < |s.owner| ==> if s.owner[x].Spare? then x == s.spare && !s.locked[x] else
              s.owner[x].thread < |s.threads| && s.threads[s.owner[x].thread].node == x
    ensures s.queue == [] ==> s.tail == s.spare
    ensures s.queue != [] ==> s.queue[0] < |s.threads| && s.threads[s.queue[0]].prev == s.spare
  {
    ReachableInv(s);
    forall i | 0 <= i < |s.threads|
      ensures s.threads[i].node < |s.owner| && s.owner[s.threads[i].node] == Of(i)
    {
      assert ThreadOk(s, i);
    }
    forall x | 0 <= x < |s.owner|
      ensures if s.owner[x].Spare? then x == s.spare && !s.locked[x] else
                s.owner[x].thread < |s.threads| && s.threads[s.owner[x].thread].node == x
    {
      assert NodeOk(s, x);
    }
    if s.queue != [] {
      assert PlaceOk(s, 0);
    }
  }

  /** No deadlock: the first in the queue does not wait. */
  lemma SomebodyMoves(s: State, i: nat) returns (k: nat)
    requires Reachable(s) && WellFormed(s) && i < |s.threads| && !s.threads[i].pc.Idle?
    ensures k < |s.threads| && !s.threads[k].pc.Idle? && Next(s, k).threads[k].pc != s.threads[k].pc
  {
    ReachableInv(s);
    Actor(s, i);
    if s.threads[i].pc.Exchange? {
      k := i;
    } else {
      assert ThreadOk(s, i);
      k := s.queue[0];
      assert PlaceOk(s, 0) && NodeOk(s, s.spare);
    }
  }

  // ---- getting in and out ----

  lemma ReachableNext(s: State, i: nat)
    requires Reachable(s) && i < |s.threads|
    ensures WellFormed(s) && Reachable(Next(s, i)) && |Next(s, i).threads| == |s.threads|
  {
    ReachableInv(s);
    assert WellFormed(s);
    hide Initial, Next, Inv;
    var s0: State, schedule: seq<nat> :| Initial(s0) && s == Exec(s0, schedule);
    SameThreads(s0, schedule);
    assert (schedule + [i])[..|schedule + [i]| - 1] == schedule;
    assert Next(s, i) == Exec(s0, schedule + [i]);
  }

  lemma {:induction false} SameThreads(s: State, schedule: seq<nat>)
    requires Inv(s)
    ensures |Exec(s, schedule).threads| == |s.threads| && Inv(Exec(s, schedule))
    decreases |schedule|
  {
    hide Next, Inv;
    ExecInv(s, schedule);
  }

  /** The state after thread k alone has made m accesses. */
  function Alone(s: State, k: nat, m: nat): State
    decreases m
  {
    if m == 0 then s else
      var before := Alone(s, k, m - 1);
      if WellFormed(before) && k < |before.threads| then Next(before, k) else before
  }

  predicate Trying(pc: Pc) {
    pc.Exchange? || pc.Spin?
  }

  /** The accesses a thread still makes until it is idle. */
  function Rank(pc: Pc): nat {
    match pc
    case Idle => 0
    case Exchange => 3
    case Spin => 2
    case Critical => 1
  }

  lemma RankFalls(s: State, k: nat)
    requires Inv(s) && k < |s.threads| && !s.threads[k].pc.Idle? && Next(s, k).threads[k].pc != s.threads[k].pc
    ensures Rank(Next(s, k).threads[k].pc) < Rank(s.threads[k].pc)
  {
  }

  /** A thread that finds nobody else is in after three accesses, and out after one more. */
  lemma EntersAlone(s: State, i: nat)
    requires Reachable(s) && i < |s.threads| && forall k :: 0 <= k < |s.threads| ==> s.threads[k].pc.Idle?
    ensures var r := Alone(s, i, 3);
            && |r.threads| == |s.threads| && r.threads == s.threads[i := r.threads[i]] && r.threads[i].pc.Critical?
            && Alone(s, i, 4).threads == s.threads[i := Alone(s, i, 4).threads[i]] && Alone(s, i, 4).threads[i].pc.Idle?
  {
    ReachableInv(s);
    Actor(s, i);
    assert |s.queue| > 0 ==> PlaceOk(s, 0);
    assert s.tail == s.spare && WellFormed(s);
    hide Inv, Reachable;
    var s1 := Next(s, i);
    var s2 := Next(s1, i);
    var s3 := Next(s2, i);
    assert WellFormed(s1) && WellFormed(s2) && WellFormed(s3);
    assert Alone(s, i, 0) == s && Alone(s, i, 1) == s1 && Alone(s, i, 2) == s2 && Alone(s, i, 3) == s3;
    assert Alone(s, i, 4) == Next(s3, i);
  }

  function Total(s: State): nat {
    Sum(seq(|s.threads|, i requires 0 <= i < |s.threads| => Rank(s.threads[i].pc)))
  }

  lemma StepFalls(s: State, k: nat)
    requires Inv(s) && k < |s.threads| && !s.threads[k].pc.Idle? && Next(s, k).threads[k].pc != s.threads[k].pc
    ensures Total(Next(s, k)) < Total(s) && Next(s, k).threads == s.threads[k := Next(s, k).threads[k]]
    ensures Trying(s.threads[k].pc) ==> Trying(Next(s, k).threads[k].pc) || Next(s, k).threads[k].pc.Critical?
  {
    var v := seq(|s.threads|, i requires 0 <= i < |s.threads| => Rank(s.threads[i].pc));
    var r := Next(s, k);
    SumUpdate(v, k, Rank(r.threads[k].pc));
    assert r.threads == s.threads[k := r.threads[k]];
    assert v[k := Rank(r.threads[k].pc)] == seq(|r.threads|, i requires 0 <= i < |r.threads| => Rank(r.threads[i].pc));
    RankFalls(s, k);
  }

  /** Every thread that is trying can get in: some schedule, in which no idle thread moves, brings it there. */
  lemma {:induction false} EntryPossible(s: State, i: nat) returns (r: State, schedule: seq<nat>)
    requires Reachable(s) && i < |s.threads| && Trying(s.threads[i].pc)
    ensures r == Exec(s, schedule) && |r.threads| == |s.threads| && r.threads[i].pc.Critical?
    ensures forall k :: 0 <= k < |s.threads| && s.threads[k].pc.Idle? ==> r.threads[k].pc.Idle?
    decreases Total(s)
  {
    ReachableInv(s);
    assert WellFormed(s);
    var k := SomebodyMoves(s, i);
    StepFalls(s, k);
    ReachableNext(s, k);
    hide Reachable, Inv, Total, Next, WellFormed;
    var s1 := Next(s, k);
    if s1.threads[i].pc.Critical? {
      r, schedule := s1, [];
      assert Exec(s1, []) == s1;
    } else {
      r, schedule := EntryPossible(s1, i);
    }
    ExecOne(s, k, schedule);
    schedule := [k] + schedule;
  }

  lemma {:induction false} ExecOne(s: State, k: nat, schedule: seq<nat>)
    requires WellFormed(s) && k < |s.threads|
    ensures Exec(s, [k] + schedule) == Exec(Next(s, k), schedule)
    decreases |schedule|
  {
    hide Next;
    var all := [k] + schedule;
    if schedule == [] {
      assert all[..0] == [] && Exec(s, []) == s;
    } else {
      ExecOne(s, k, schedule[..|schedule| - 1]);
      assert all[..|all| - 1] == [k] + schedule[..|schedule| - 1];
    }
  }

  // ---- the program ----

  class Machine {
    var tail: nat
    var locked: array<bool>
    var threads: array<Thread>
    ghost var queue: seq<nat>
    ghost var spare: nat
    ghost var owner: seq<Owner>

    ghost function Abs(): State
      reads this, locked, threads
    {
      State(tail, locked[..], threads[..], queue, spare, owner)
    }

    ghost predicate Valid()
      reads this, locked, threads
    {
      WellFormed(Abs())
    }

    constructor (n: nat)
      ensures Valid() && Initial(Abs()) && threads.Length == n && fresh(locked) && fresh(threads)
    {
      tail, queue, spare := n, [], n;
      locked := new bool[n + 1](_ => false);
      threads := new Thread[n](i requires 0 <= i < n => Thread(Idle, i, i));
      owner := seq(n, i requires 0 <= i < n => Of(i)) + [Spare];
    }

    /** Thread i performs its next access. */
    method Step(i: nat)
      requires Valid() && i < threads.Length
      modifies this`tail, this`queue, this`spare, this`owner, locked, threads
      ensures locked == old(locked) && threads == old(threads) && Abs() == Next(old(Abs()), i)
    {
      var th := threads[i];
      match th.pc {
        case Idle =>
          locked[th.node] := true;
          threads[i] := th.(pc := Exchange);
        case Exchange =>
          if tail < locked.Length {
            var predecessor := tail;
            tail, queue := th.node, queue + [i];
            threads[i] := th.(pc := Spin, prev := predecessor);
          }
        case Spin =>
          if !locked[th.prev] { threads[i] := th.(pc := Critical); }
        case Critical =>
          locked[th.node] := false;
          threads[i] := Thread(Idle, th.prev, th.prev);
          queue, spare, owner := Pop(queue), th.node, owner[th.prev := Of(i)][th.node := Spare];
      }
    }
  }
}
