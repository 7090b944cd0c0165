/** What threads of the tagged stack get done: undisturbed pops and pushes, whole rounds, and rounds to the end. */
module StackRuns {
  import opened TaggedStack

  function Now(s: State, t: nat): State {
    if InRange(s, t) then Next(s, t) else s
  }

  /** The state after thread t alone has made m accesses. */
  function Alone(s: State, t: nat, m: nat): State
    decreases m
  {
    if m == 0 then s else Alone(Now(s, t), t, m - 1)
  }

  lemma {:induction false} AloneThen(s: State, t: nat, m: nat, more: nat)
    ensures Alone(s, t, m + more) == Alone(Alone(s, t, m), t, more)
    decreases m
  {
    hide Now;
    if m > 0 { AloneThen(Now(s, t), t, m - 1, more); }
  }

  lemma {:induction false} AloneIsRun(s: State, t: nat, m: nat)
    ensures Alone(s, t, m) == Exec(s, seq(m, _ => t))
    decreases m
  {
    hide Next, InRange;
    if m > 0 {
      AloneIsRun(s, t, m - 1);
      AloneThen(s, t, m - 1, 1);
      assert Alone(Alone(s, t, m - 1), t, 1) == Now(Alone(s, t, m - 1), t);
      assert seq(m, _ => t)[..m - 1] == seq(m - 1, _ => t);
    }
  }

  lemma ThreeTurns(s: State, t: nat)
    ensures Alone(s, t, 1) == Now(s, t) && Alone(s, t, 2) == Now(Now(s, t), t)
    ensures Alone(s, t, 3) == Now(Now(Now(s, t), t), t)
  {
    hide Now;
    var s1, s2 := Now(s, t), Now(Now(s, t), t);
    assert Alone(s, t, 1) == Alone(s1, t, 0);
    assert Alone(s, t, 2) == Alone(s1, t, 1) == Alone(s2, t, 0);
    assert Alone(s, t, 3) == Alone(s1, t, 2) == Alone(s2, t, 1) == Alone(Now(s2, t), t, 0);
  }

  predicate SameButFor(s: State, r: State, t: nat) {
    |r.threads| == |s.threads| && forall u :: 0 <= u < |s.threads| && u != t ==> r.threads[u] == s.threads[u]
  }

  function Other(w: Which): Which {
    if w.Stack? then FreeList else Stack
  }

  lemma PopTurns(s: State, t: nat, h: Head)
    requires t < |s.threads| && s.threads[t].pc.PopLoad? && |s.place| == |s.next|
    requires h == HeadOf(s, s.threads[t].pc.w) && h.ptr.At? && h.ptr.node < |s.next|
    ensures var w := s.threads[t].pc.w;
            Now(Now(s, t), t) == Put(s, t, PopCas(w, h, s.next[h.ptr.node]))
  {
    var w := s.threads[t].pc.w;
    assert Now(s, t) == Put(s, t, PopNext(w, h));
  }

  /** Three accesses by itself take the first node of a list that has one. */
  lemma PopAlone(s: State, t: nat)
    requires Inv(s) && t < |s.threads| && s.threads[t].pc.PopLoad? && ListOf(s, s.threads[t].pc.w) != []
    ensures var w := s.threads[t].pc.w;
            var r := Alone(s, t, 3);
            && Inv(r) && SameButFor(s, r, t) && r.next == s.next
            && ListOf(s, w) == [r.threads[t].node] + ListOf(r, w) && ListOf(r, Other(w)) == ListOf(s, Other(w))
            && r.threads[t] == Thread(AfterPop(w), r.threads[t].node, s.threads[t].todo)
  {
    var w := s.threads[t].pc.w;
    var h := HeadOf(s, w);
    HeadIsFirst(s, w);
    ListsFact(s);
    AloneInv(s, t, 3);
    ThreeTurns(s, t);
    hide Inv, Alone, ListsOk, PlacesOk;
    PopTurns(s, t, h);
    var s2 := Put(s, t, PopCas(w, h, s.next[h.ptr.node]));
    assert InRange(s2, t) && Now(s2, t) == PopStep(s2, t);
    assert [ListOf(s, w)[0]] + ListOf(s, w)[1..] == ListOf(s, w);
    hide Now;
  }

  /** Three accesses by itself put the node in hand at the front of the list. */
  lemma PushAlone(s: State, t: nat)
    requires Inv(s) && t < |s.threads| && s.threads[t].pc.PushLoad?
    ensures var w := s.threads[t].pc.w;
            var r := Alone(s, t, 3);
            && Inv(r) && SameButFor(s, r, t) && |r.next| == |s.next|
            && ListOf(r, w) == [s.threads[t].node] + ListOf(s, w) && ListOf(r, Other(w)) == ListOf(s, Other(w))
            && r.threads[t] == AfterPush(s.threads[t], w)
  {
    var w := s.threads[t].pc.w;
    var h := HeadOf(s, w);
    ActorFacts(s, t);
    ListsFact(s);
    var s1 := Put(s, t, PushNext(w, h));
    var s2 := Put(s.(next := s.next[s.threads[t].node := h.ptr]), t, PushCas(w, h));
    assert Now(s, t) == s1 by { hide Inv; }
    assert Now(s1, t) == s2 by { hide Inv; }
    AloneInv(s, t, 3);
    ThreeTurns(s, t);
    hide Inv, Alone;
  }

  lemma {:induction false} AloneInv(s: State, t: nat, m: nat)
    requires Inv(s)
    ensures Inv(Alone(s, t, m)) && |Alone(s, t, m).threads| == |s.threads|
    decreases m
  {
    if m > 0 {
      if InRange(s, t) { NextInv(s, t); }
      hide Inv, Next, InRange;
      AloneInv(Now(s, t), t, m - 1);
    }
  }

  /** A free list without nodes makes the thread allocate one. */
  lemma AllocAlone(s: State, t: nat)
    requires Inv(s) && t < |s.threads| && s.threads[t].pc == PopLoad(FreeList) && s.free == []
    ensures var r := Alone(s, t, 2);
            && Inv(r) && SameButFor(s, r, t) && r.stack == s.stack && r.free == s.free && |r.next| == |s.next| + 1
            && r.threads[t] == Thread(PushLoad(Stack), |s.next|, s.threads[t].todo)
  {
    HeadIsFirst(s, FreeList);
    ListsFact(s);
    AloneInv(s, t, 2);
    ThreeTurns(s, t);
    hide Inv, Alone, ListsOk, PlacesOk;
    assert Now(s, t) == Put(s, t, Malloc);
  }

  /** A push and a pop by itself, on the stack: the node comes back. */
  lemma PushPopAlone(s: State, t: nat)
    requires Inv(s) && t < |s.threads| && s.threads[t].pc == PushLoad(Stack)
    ensures var r := Alone(s, t, 6);
            && Inv(r) && SameButFor(s, r, t) && r.stack == s.stack && r.free == s.free && |r.next| == |s.next|
            && r.threads[t] == s.threads[t].(pc := PushLoad(FreeList))
  {
    PushAlone(s, t);
    hide Inv, Alone;
    var s1 := Alone(s, t, 3);
    PopAlone(s1, t);
    AloneThen(s, t, 3, 3);
    var s2 := Alone(s1, t, 3);
    assert s1.stack == [s2.threads[t].node] + s2.stack;
    assert s2.stack == s1.stack[1..] && s.stack == s1.stack[1..];
  }

  /** A node for the round, from the free list or new. */
  lemma NodeAlone(s: State, t: nat) returns (m: nat)
    requires Inv(s) && t < |s.threads| && s.threads[t].pc == PopLoad(FreeList)
    ensures var r := Alone(s, t, m);
            var x := if s.free != [] then s.free[0] else |s.next|;
            && Inv(r) && SameButFor(s, r, t) && r.stack == s.stack
            && r.free == (if s.free != [] then s.free[1..] else [])
            && |r.next| == |s.next| + (if s.free != [] then 0 else 1)
            && r.threads[t] == Thread(PushLoad(Stack), x, s.threads[t].todo)
  {
    if s.free != [] {
      PopAlone(s, t);
      m := 3;
    } else {
      AllocAlone(s, t);
      m := 2;
    }
    hide Inv, Alone;
  }

  lemma SameThen(s: State, s1: State, s2: State, t: nat)
    requires SameButFor(s, s1, t) && SameButFor(s1, s2, t)
    ensures SameButFor(s, s2, t)
  {
  }

  /** The rest of a round: the node is pushed on the stack and popped, and is spare then. */
  lemma ReturnAlone(s: State, t: nat)
    requires Inv(s) && t < |s.threads| && s.threads[t].pc == PushLoad(Stack)
    ensures var r := Alone(s, t, 9);
            && Inv(r) && SameButFor(s, r, t) && r.stack == s.stack && |r.next| == |s.next|
            && r.free == [s.threads[t].node] + s.free
            && r.threads[t] == NextRound(s.threads[t])
  {
    PushPopAlone(s, t);
    hide Inv, Alone;
    var s1 := Alone(s, t, 6);
    assert t < |s1.threads|;
    PushAlone(s1, t);
    AloneThen(s, t, 6, 3);
    SameThen(s, s1, Alone(s1, t, 3), t);
    hide SameButFor;
    SameRound(s.threads[t], PushLoad(FreeList));
    hide NextRound;
  }

  lemma SameRound(th: Thread, pc: Pc)
    ensures NextRound(th.(pc := pc)) == NextRound(th)
  {
  }

  /** A round by itself: the node that is pushed on the stack, a spare one or a new one, is the one that is popped, and
      is spare afterwards. The stack is as before. */
  lemma RoundAlone(s: State, t: nat) returns (m: nat)
    requires Inv(s) && t < |s.threads| && s.threads[t].pc == PopLoad(FreeList)
    ensures var r := Alone(s, t, m);
            var x := if s.free != [] then s.free[0] else |s.next|;
            && Inv(r) && SameButFor(s, r, t) && r.stack == s.stack
            && r.free == (if s.free != [] then s.free else [x])
            && |r.next| == |s.next| + (if s.free != [] then 0 else 1)
            && r.threads[t] == NextRound(s.threads[t].(node := x))
  {
    hide Inv, Alone, SameButFor, NextRound;
    var k := NodeAlone(s, t);
    var s1 := Alone(s, t, k);
    StillThere(s, s1, t);
    ReturnAlone(s1, t);
    AloneThen(s, t, k, 9);
    m := k + 9;
    var r := Alone(s1, t, 9);
    SameThen(s, s1, r, t);
    SameRound(s1.threads[t], PopLoad(FreeList));
    assert s.free != [] ==> [s.free[0]] + s.free[1..] == s.free;
  }

  lemma StillThere(s: State, r: State, t: nat)
    requires SameButFor(s, r, t)
    ensures |r.threads| == |s.threads|
  {
  }

  /** How many accesses the round still takes, at most, when nobody interferes: an exchange fails at most once, for a
      head that was loaded before. */
  function Phase(s: State, pc: Pc): nat {
    match pc
    case PopLoad(w) => 6 + (if w.Stack? then 7 else 21)
    case PopNext(w, h) => (if h == HeadOf(s, w) then 3 else 5) + (if w.Stack? then 7 else 21)
    case PopCas(w, h, _) => (if h == HeadOf(s, w) then 2 else 4) + (if w.Stack? then 7 else 21)
    case PushLoad(w) => 6 + (if w.Stack? then 14 else 0)
    case PushNext(w, h) => (if h == HeadOf(s, w) then 3 else 5) + (if w.Stack? then 14 else 0)
    case PushCas(w, h) => (if h == HeadOf(s, w) then 2 else 4) + (if w.Stack? then 14 else 0)
    case Malloc => 21
    case Missing => 1
    case Done => 0
  }

  function Rank(s: State, t: nat): nat
    requires t < |s.threads|
  {
    s.threads[t].todo * 28 + Phase(s, s.threads[t].pc)
  }

  lemma RankFalls(s: State, t: nat)
    requires Inv(s) && t < |s.threads| && !s.threads[t].pc.Done?
    ensures t < |Now(s, t).threads| && Rank(Now(s, t), t) < Rank(s, t)
  {
    CanMove(s, t);
    hide Inv, InRange, PopStep, PushStep;
    var pc := s.threads[t].pc;
    if pc.PopLoad? || pc.PopNext? || pc.PopCas? {
      PopFalls(s, t);
    } else if Holding(pc) {
      PushFalls(s, t);
    }
  }

  lemma CanMove(s: State, t: nat)
    requires Inv(s) && t < |s.threads|
    ensures InRange(s, t)
    ensures HandOk(s, t) && |s.place| == |s.next| && ListsOk(s)
  {
    assert ThreadOk(s, t) && HandOk(s, t);
    hide ListsOk, CountsOk, Chain;
  }

  lemma PopFalls(s: State, t: nat)
    requires InRange(s, t) && (s.threads[t].pc.PopLoad? || s.threads[t].pc.PopNext? || s.threads[t].pc.PopCas?)
    ensures t < |PopStep(s, t).threads| && Rank(PopStep(s, t), t) < Rank(s, t)
  {
  }

  lemma PushFalls(s: State, t: nat)
    requires InRange(s, t) && Holding(s.threads[t].pc) && s.threads[t].node < |s.place|
    ensures t < |PushStep(s, t).threads| && Rank(PushStep(s, t), t) < Rank(s, t)
  {
  }

  /** From every reachable state, each thread alone gets through all of its rounds, in at most as many accesses as
      `Rank` says. */
  lemma {:induction false} FinishesAlone(s: State, t: nat) returns (m: nat)
    requires Inv(s) && t < |s.threads|
    ensures m <= Rank(s, t) && t < |Alone(s, t, m).threads| && Alone(s, t, m).threads[t].pc.Done?
    decreases Rank(s, t)
  {
    hide Inv, Now, Rank;
    if s.threads[t].pc.Done? {
      m := 0;
    } else {
      RankFalls(s, t);
      AloneInv(s, t, 1);
      ThreeTurns(s, t);
      m := FinishesAlone(Now(s, t), t);
      m := m + 1;
    }
  }
}
