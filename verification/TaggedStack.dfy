/** The stack with a tagged head and a free list of the same kind (hardware/stack_cas_tagged.c), for any number
    of threads; the tags never repeat. One step is one access to a head or to a `next` field, or the
    allocation of a node. */
module TaggedStack {
  import opened Counting

  datatype Ptr = Null | At(node: nat)

  datatype Head = Head(ptr: Ptr, tag: nat)

  /** The two lists of the program. */
  datatype Which = Stack | FreeList

  /** PopLoad, PopNext, PopCas: `pop` from the list. PushLoad, PushNext, PushCas: `push` of the node in hand.
      Malloc: the free list was empty. Missing: the stack was. */
  datatype Pc =
    | PopLoad(w: Which) | PopNext(w: Which, h: Head) | PopCas(w: Which, h: Head, nxt: Ptr)
    | PushLoad(w: Which) | PushNext(w: Which, h: Head) | PushCas(w: Which, h: Head)
    | Malloc | Missing | Done

  datatype Thread = Thread(pc: Pc, node: nat, todo: nat)

  /** Where a node is. */
  datatype Place = OnStack | OnFreeList | Hand(thread: nat)

  /** `stack` and `free` are the lists as sequences, as pushes and pops should change them, and `place` says
      where each node is; the program only has heads and `next` fields. */
  datatype State = State(top: Head, spare: Head, next: seq<Ptr>, threads: seq<Thread>,
                         stack: seq<nat>, free: seq<nat>, place: seq<Place>)

  function HeadOf(s: State, w: Which): Head {
    if w.Stack? then s.top else s.spare
  }

  function ListOf(s: State, w: Which): seq<nat> {
    if w.Stack? then s.stack else s.free
  }

  function PlaceOf(w: Which): Place {
    if w.Stack? then OnStack else OnFreeList
  }

  predicate InRange(s: State, t: nat) {
    && t < |s.threads| && |s.place| == |s.next|
    && match s.threads[t].pc
       case PopNext(_, h) => h.ptr.At? && h.ptr.node < |s.next|
       case PopCas(_, h, _) => h.ptr.At? && h.ptr.node < |s.next|
       case PushNext(_, _) => s.threads[t].node < |s.next|
       case PushCas(_, _) => s.threads[t].node < |s.next|
       case _ => true
  }

  /** The list with a new head and content, and the place of one node. */
  function WithList(s: State, w: Which, h: Head, list: seq<nat>, x: nat, p: Place): State
    requires x < |s.place|
  {
    if w.Stack? then s.(top := h, stack := list, place := s.place[x := p])
    else s.(spare := h, free := list, place := s.place[x := p])
  }

  function Put(s: State, t: nat, pc: Pc): State
    requires t < |s.threads|
  {
    s.(threads := s.threads[t := s.threads[t].(pc := pc)])
  }

  /** `pop` with the head just seen. */
  function SeenByPop(w: Which, h: Head): Pc {
    if h.ptr.At? then PopNext(w, h) else if w.FreeList? then Malloc else Missing
  }

  /** After a pop: a spare node goes on the stack, a node of the stack becomes spare. */
  function AfterPop(w: Which): Pc {
    if w.FreeList? then PushLoad(Stack) else PushLoad(FreeList)
  }

  function NextRound(th: Thread): Thread {
    if th.todo > 0 then th.(pc := PopLoad(FreeList), todo := th.todo - 1) else th.(pc := Done)
  }

  function AfterPush(th: Thread, w: Which): Thread {
    if w.Stack? then th.(pc := PopLoad(Stack)) else NextRound(th)
  }

  function PopStep(s: State, t: nat): State
    requires InRange(s, t)
  {
    match s.threads[t].pc
    case PopLoad(w) => Put(s, t, SeenByPop(w, HeadOf(s, w)))
    case PopNext(w, h) => Put(s, t, PopCas(w, h, s.next[h.ptr.node]))
    case PopCas(w, h, nxt) =>
      if HeadOf(s, w) != h then Put(s, t, SeenByPop(w, HeadOf(s, w)))
      else
        var x := h.ptr.node;
        WithList(s, w, Head(nxt, h.tag + 1), if ListOf(s, w) == [] then [] else ListOf(s, w)[1..], x, Hand(t))
        .(threads := s.threads[t := s.threads[t].(pc := AfterPop(w), node := x)])
    case _ => s
  }

  function PushStep(s: State, t: nat): State
    requires InRange(s, t)
  {
    var th := s.threads[t];
    match th.pc
    case PushLoad(w) => Put(s, t, PushNext(w, HeadOf(s, w)))
    case PushNext(w, h) => Put(s.(next := s.next[th.node := h.ptr]), t, PushCas(w, h))
    case PushCas(w, h) =>
      if HeadOf(s, w) != h then Put(s, t, PushNext(w, HeadOf(s, w)))
      else
        WithList(s, w, Head(At(th.node), h.tag + 1), [th.node] + ListOf(s, w), th.node, PlaceOf(w))
        .(threads := s.threads[t := AfterPush(th, w)])
    case _ => s
  }

  function Next(s: State, t: nat): (r: State)
    requires InRange(s, t)
    ensures |r.threads| == |s.threads|
  {
    var th := s.threads[t];
    match th.pc
    case PopLoad(_) => PopStep(s, t)
    case PopNext(_, _) => PopStep(s, t)
    case PopCas(_, _, _) => PopStep(s, t)
    case PushLoad(_) => PushStep(s, t)
    case PushNext(_, _) => PushStep(s, t)
    case PushCas(_, _) => PushStep(s, t)
    case Malloc =>
      s.(next := s.next + [Null], place := s.place + [Hand(t)],
         threads := s.threads[t := th.(pc := PushLoad(Stack), node := |s.next|)])
    case Missing => s.(threads := s.threads[t := NextRound(th)])
    case Done => s
  }

  predicate Initial(s: State) {
    && s.top == Head(Null, 0) && s.spare == Head(Null, 0) && s.next == [] && s.place == []
    && s.stack == [] && s.free == []
    && forall t :: 0 <= t < |s.threads| ==> s.threads[t].pc == PopLoad(FreeList) || s.threads[t].pc == Done
  }

  // ---- the invariant ----

  function PtrAt(q: seq<nat>, k: nat): Ptr {
    if k < |q| then At(q[k]) else Null
  }

  /** The chain of `next` fields from p on is the sequence q. */
  ghost predicate Chain(next: seq<Ptr>, p: Ptr, q: seq<nat>) {
    && p == PtrAt(q, 0)
    && (forall k :: 0 <= k < |q| ==> q[k] < |next|)
    && (forall k :: 0 <= k < |q| ==> next[q[k]] == PtrAt(q, k + 1))
    && (forall j, k :: 0 <= j < k < |q| ==> q[j] != q[k])
  }

  predicate Holding(pc: Pc) {
    pc.PushLoad? || pc.PushNext? || pc.PushCas?
  }

  predicate PlaceOk(s: State, x: nat)
    requires x < |s.place|
  {
    && (s.place[x].OnStack? <==> x in s.stack)
    && (s.place[x].OnFreeList? <==> x in s.free)
    && (s.place[x].Hand? ==>
          var t := s.place[x].thread; t < |s.threads| && Holding(s.threads[t].pc) && s.threads[t].node == x)
  }

  predicate HandOk(s: State, t: nat)
    requires t < |s.threads|
  {
    Holding(s.threads[t].pc) ==> s.threads[t].node < |s.place| && s.place[s.threads[t].node] == Hand(t)
  }

  ghost predicate PlacesOk(s: State) {
    && |s.place| == |s.next|
    && (forall x :: 0 <= x < |s.place| ==> PlaceOk(s, x))
    && (forall t :: 0 <= t < |s.threads| ==> HandOk(s, t))
  }

  /** The same tag means that nothing has happened to the list. */
  ghost predicate HeadOk(s: State, w: Which, h: Head) {
    h.tag <= HeadOf(s, w).tag && (h.tag == HeadOf(s, w).tag ==> h == HeadOf(s, w))
  }

  ghost predicate ThreadOk(s: State, t: nat)
    requires t < |s.threads|
  {
    match s.threads[t].pc
    case PopNext(w, h) => HeadOk(s, w, h) && h.ptr.At? && h.ptr.node < |s.next|
    case PopCas(w, h, nxt) =>
      && HeadOk(s, w, h) && h.ptr.At? && h.ptr.node < |s.next|
      && (h == HeadOf(s, w) ==> nxt == s.next[h.ptr.node])
    case PushNext(w, h) => HeadOk(s, w, h)
    case PushCas(w, h) => HeadOk(s, w, h) && s.threads[t].node < |s.next| && s.next[s.threads[t].node] == h.ptr
    case Missing => false
    case _ => true
  }

  ghost predicate ThreadsOk(s: State) {
    forall t :: 0 <= t < |s.threads| ==> ThreadOk(s, t)
  }

  ghost predicate ListsOk(s: State) {
    Chain(s.next, s.top.ptr, s.stack) && Chain(s.next, s.spare.ptr, s.free)
  }

  /** Has pushed, and is about to pop. */
  predicate Owed(pc: Pc) {
    (pc.PopLoad? || pc.PopNext? || pc.PopCas?) && pc.w.Stack?
  }

  /** Asks the free list, or has finished. */
  predicate Empty(pc: Pc) {
    ((pc.PopLoad? || pc.PopNext? || pc.PopCas?) && pc.w.FreeList?) || pc.Malloc? || pc.Missing? || pc.Done?
  }

  function Owing(ts: seq<Thread>): nat {
    if ts == [] then 0 else Owing(ts[..|ts| - 1]) + One(Owed(ts[|ts| - 1].pc))
  }

  function Holders(ts: seq<Thread>): nat {
    if ts == [] then 0 else Holders(ts[..|ts| - 1]) + One(Holding(ts[|ts| - 1].pc))
  }

  function Allocating(ts: seq<Thread>): nat {
    if ts == [] then 0 else Allocating(ts[..|ts| - 1]) + One(ts[|ts| - 1].pc.Malloc?)
  }

  ghost predicate CountsOk(s: State) {
    && |s.stack| == Owing(s.threads)
    && |s.next| == |s.stack| + |s.free| + Holders(s.threads)
    && |s.next| + Allocating(s.threads) <= |s.threads|
  }

  ghost predicate Inv(s: State) {
    ListsOk(s) && PlacesOk(s) && ThreadsOk(s) && CountsOk(s)
  }

  // ---- counting ----

  lemma {:induction false} CountUpdate(ts: seq<Thread>, t: nat, th: Thread)
    requires t < |ts|
    ensures Owing(ts[t := th]) + One(Owed(ts[t].pc)) == Owing(ts) + One(Owed(th.pc))
    ensures Holders(ts[t := th]) + One(Holding(ts[t].pc)) == Holders(ts) + One(Holding(th.pc))
    ensures Allocating(ts[t := th]) + One(ts[t].pc.Malloc?) == Allocating(ts) + One(th.pc.Malloc?)
    decreases |ts|
  {
    var n := |ts| - 1;
    var us := ts[t := th];
    hide Owed, Holding;
    if t < n {
      CountUpdate(ts[..n], t, th);
      assert us[..n] == ts[..n][t := th];
    } else {
      assert us[..n] == ts[..n];
    }
  }

  lemma {:induction false} CountTotal(ts: seq<Thread>)
    ensures Owing(ts) + Holders(ts) + Allocating(ts) <= |ts|
    decreases |ts|
  {
    if ts != [] {
      CountTotal(ts[..|ts| - 1]);
    }
  }

  /** When the free list is empty, the thread that sees it does not hold a node, nor is one on the stack for it. */
  lemma {:induction false} CountLess(ts: seq<Thread>, t: nat)
    requires t < |ts| && Empty(ts[t].pc) && !ts[t].pc.Malloc?
    ensures Owing(ts) + Holders(ts) + Allocating(ts) < |ts|
    decreases |ts|
  {
    if t < |ts| - 1 {
      CountLess(ts[..|ts| - 1], t);
    } else {
      CountTotal(ts[..|ts| - 1]);
    }
  }

  lemma {:induction false} CountOwed(ts: seq<Thread>, t: nat)
    requires t < |ts| && Owed(ts[t].pc)
    ensures Owing(ts) > 0
    decreases |ts|
  {
    if t < |ts| - 1 {
      CountOwed(ts[..|ts| - 1], t);
    }
  }

  lemma {:induction false} CountNone(ts: seq<Thread>)
    requires forall t :: 0 <= t < |ts| ==> ts[t].pc == PopLoad(FreeList) || ts[t].pc == Done
    ensures Owing(ts) == Holders(ts) == Allocating(ts) == 0
    decreases |ts|
  {
    if ts != [] {
      CountNone(ts[..|ts| - 1]);
    }
  }

  lemma InitialInv(s: State)
    requires Initial(s)
    ensures Inv(s)
  {
    CountNone(s.threads);
  }

  lemma HeadIsFirst(s: State, w: Which)
    requires ListsOk(s)
    ensures HeadOf(s, w).ptr == PtrAt(ListOf(s, w), 0)
    ensures forall k :: 0 <= k < |ListOf(s, w)| ==> ListOf(s, w)[k] < |s.next|
    ensures ListOf(s, w) != [] ==> s.next[ListOf(s, w)[0]] == PtrAt(ListOf(s, w), 1)
  {
  }

  lemma NotMissing(s: State, t: nat)
    requires Inv(s) && t < |s.threads| && Owed(s.threads[t].pc)
    ensures s.top.ptr.At? && s.stack != []
  {
    CountOwed(s.threads, t);
  }

  /** The counts after a step that changes thread t to th. */
  lemma CountStep(s: State, t: nat, th: Thread, stack: nat, free: nat, nodes: nat)
    requires CountsOk(s) && t < |s.threads|
    requires stack + One(Owed(s.threads[t].pc)) == |s.stack| + One(Owed(th.pc))
    requires nodes + |s.stack| + |s.free| + One(Holding(s.threads[t].pc))
             == |s.next| + stack + free + One(Holding(th.pc))
    requires nodes + One(th.pc.Malloc?) <= |s.next| + One(s.threads[t].pc.Malloc?)
             || (nodes == |s.next| == |s.stack| + Holders(s.threads) && Empty(s.threads[t].pc) && th.pc.Malloc?
                 && !s.threads[t].pc.Malloc?)
    ensures stack == Owing(s.threads[t := th]) && nodes == stack + free + Holders(s.threads[t := th])
    ensures nodes + Allocating(s.threads[t := th]) <= |s.threads|
  {
    hide Owed, Holding, Empty, Owing, Holders, Allocating;
    CountUpdate(s.threads, t, th);
    if Empty(s.threads[t].pc) && !s.threads[t].pc.Malloc? {
      CountLess(s.threads, t);
    }
  }

  lemma CountsPop(s: State, t: nat)
    requires Inv(s) && t < |s.threads| && InRange(s, t)
    requires var pc := s.threads[t].pc; pc.PopLoad? || pc.PopNext? || pc.PopCas?
    ensures CountsOk(PopStep(s, t))
  {
    var r := PopStep(s, t);
    assert ThreadOk(s, t);
    HeadIsFirst(s, s.threads[t].pc.w);
    if Owed(s.threads[t].pc) { NotMissing(s, t); }
    hide PlacesOk, ThreadsOk, ListsOk, Owing, Holders, Allocating;
    assert r.threads == s.threads[t := r.threads[t]];
    CountStep(s, t, r.threads[t], |r.stack|, |r.free|, |r.next|);
  }

  lemma CountsPush(s: State, t: nat)
    requires Inv(s) && t < |s.threads| && InRange(s, t)
    requires var pc := s.threads[t].pc; pc.PushLoad? || pc.PushNext? || pc.PushCas?
    ensures CountsOk(PushStep(s, t))
  {
    var r := PushStep(s, t);
    hide PlacesOk, ThreadsOk, ListsOk, Owing, Holders, Allocating;
    assert r.threads == s.threads[t := r.threads[t]];
    CountStep(s, t, r.threads[t], |r.stack|, |r.free|, |r.next|);
  }

  lemma CountsKept(s: State, t: nat)
    requires Inv(s) && t < |s.threads| && InRange(s, t)
    ensures CountsOk(Next(s, t))
  {
    assert ThreadOk(s, t);
    hide Inv, PopStep, PushStep;
    var pc := s.threads[t].pc;
    if pc.PopLoad? || pc.PopNext? || pc.PopCas? {
      CountsPop(s, t);
    } else if pc.PushLoad? || pc.PushNext? || pc.PushCas? {
      CountsPush(s, t);
    } else if pc.Malloc? {
      var r := Next(s, t);
      CountsOf(s);
      hide CountsOk, Owing, Holders, Allocating;
      CountStep(s, t, r.threads[t], |r.stack|, |r.free|, |r.next|);
      assert r.threads == s.threads[t := r.threads[t]];
      CountsAre(r);
    } else {
      CountsOf(s);
    }
  }

  lemma CountsOf(s: State)
    requires Inv(s)
    ensures CountsOk(s)
  {
  }

  lemma CountsAre(s: State)
    requires |s.stack| == Owing(s.threads) && |s.next| == |s.stack| + |s.free| + Holders(s.threads)
    requires |s.next| + Allocating(s.threads) <= |s.threads|
    ensures CountsOk(s)
  {
  }

  // ---- lists, places, threads ----

  lemma ChainPop(next: seq<Ptr>, p: Ptr, q: seq<nat>)
    requires Chain(next, p, q) && q != []
    ensures Chain(next, next[q[0]], q[1..]) && q[0] !in q[1..]
  {
    hide PtrAt;
    assert forall k :: 0 <= k < |q| - 1 ==> q[1..][k] == q[k + 1];
    assert forall k :: 0 <= k <= |q| - 1 ==> PtrAt(q[1..], k) == PtrAt(q, k + 1) by { ShiftPtr(q); }
    forall k | 0 <= k < |q[1..]|
      ensures next[q[1..][k]] == PtrAt(q[1..], k + 1)
    {
      assert next[q[k + 1]] == PtrAt(q, k + 2);
    }
  }

  lemma ShiftPtr(q: seq<nat>)
    requires q != []
    ensures forall k :: 0 <= k <= |q| - 1 ==> PtrAt(q[1..], k) == PtrAt(q, k + 1)
  {
  }

  lemma ChainPush(next: seq<Ptr>, p: Ptr, q: seq<nat>, x: nat)
    requires Chain(next, p, q) && x < |next| && x !in q && next[x] == p
    ensures Chain(next, At(x), [x] + q)
  {
    var r := [x] + q;
    assert forall k :: 0 < k < |r| ==> r[k] == q[k - 1];
    forall k | 0 <= k < |r|
      ensures next[r[k]] == PtrAt(r, k + 1)
    {
      if k > 0 { assert next[q[k - 1]] == PtrAt(q, k); }
    }
  }

  /** Writing the link of a node that is not in the list, or allocating one, leaves the list alone. */
  lemma ChainFrame(next: seq<Ptr>, next': seq<Ptr>, p: Ptr, q: seq<nat>)
    requires Chain(next, p, q) && |next| <= |next'| && forall x :: x in q ==> next'[x] == next[x]
    ensures Chain(next', p, q)
  {
    forall k | 0 <= k < |q|
      ensures next'[q[k]] == PtrAt(q, k + 1)
    {
      assert q[k] in q;
    }
  }

  lemma InHand(s: State, t: nat)
    requires PlacesOk(s) && t < |s.threads| && Holding(s.threads[t].pc)
    ensures s.threads[t].node < |s.next| && s.threads[t].node !in s.stack && s.threads[t].node !in s.free
  {
    assert HandOk(s, t) && PlaceOk(s, s.threads[t].node);
  }

  /** What a successful pop takes is the first node of the list. */
  lemma PopTakesFirst(s: State, t: nat)
    requires Inv(s) && t < |s.threads| && s.threads[t].pc.PopCas?
    ensures var PopCas(w, h, nxt) := s.threads[t].pc;
            HeadOf(s, w) == h ==>
              && ListOf(s, w) != [] && h.ptr == At(ListOf(s, w)[0])
              && Chain(s.next, nxt, ListOf(s, w)[1..]) && ListOf(s, w)[0] !in ListOf(s, w)[1..]
  {
    var PopCas(w, h, nxt) := s.threads[t].pc;
    assert ThreadOk(s, t);
    if HeadOf(s, w) == h {
      ChainPop(s.next, h.ptr, ListOf(s, w));
    }
  }

  lemma ListsKept(s: State, t: nat)
    requires Inv(s) && t < |s.threads| && InRange(s, t)
    ensures ListsOk(Next(s, t))
  {
    var r := Next(s, t);
    var th := s.threads[t];
    assert ThreadOk(s, t);
    if th.pc.PopCas? {
      PopTakesFirst(s, t);
    } else if Holding(th.pc) {
      InHand(s, t);
      if th.pc.PushCas? && HeadOf(s, th.pc.w) == th.pc.h {
        ChainPush(s.next, th.pc.h.ptr, ListOf(s, th.pc.w), th.node);
      }
    }
    hide Inv, Chain;
    ListsFact(s);
    if th.pc.PushNext? || th.pc.Malloc? {
      ListRange(s);
      ChainFrame(s.next, r.next, s.top.ptr, s.stack);
      ChainFrame(s.next, r.next, s.spare.ptr, s.free);
    }
  }

  lemma ListRange(s: State)
    requires ListsOk(s)
    ensures forall x :: x in s.stack || x in s.free ==> x < |s.next|
  {
  }

  lemma ListsFact(s: State)
    requires Inv(s)
    ensures ListsOk(s) && PlacesOk(s)
  {
  }

  lemma FirstOf(q: seq<nat>)
    requires q != [] && q[0] !in q[1..]
    ensures forall x :: x in q[1..] <==> x in q && x != q[0]
  {
    assert q == [q[0]] + q[1..];
  }

  /** What the acting thread holds, takes or puts back, and that it is where it should be. */
  lemma ActorFacts(s: State, t: nat)
    requires Inv(s) && t < |s.threads| && InRange(s, t)
    ensures ThreadOk(s, t) && HandOk(s, t)
    ensures Holding(s.threads[t].pc) ==> s.threads[t].node < |s.place| && PlaceOk(s, s.threads[t].node)
    ensures var pc := s.threads[t].pc; pc.PopCas? && HeadOf(s, pc.w) == pc.h ==>
              && ListOf(s, pc.w) != [] && pc.h.ptr == At(ListOf(s, pc.w)[0]) && pc.h.ptr.node < |s.place|
              && PlaceOk(s, pc.h.ptr.node)
              && forall x :: x in ListOf(s, pc.w)[1..] <==> x in ListOf(s, pc.w) && x != ListOf(s, pc.w)[0]
  {
    var pc := s.threads[t].pc;
    if pc.PopCas? && HeadOf(s, pc.w) == pc.h {
      PopTakesFirst(s, t);
      FirstOf(ListOf(s, pc.w));
    }
    hide ListsOk, CountsOk, Chain;
  }

  lemma PlaceKeptPop(s: State, t: nat, x: nat)
    requires Inv(s) && t < |s.threads| && InRange(s, t) && x < |PopStep(s, t).place|
    requires var pc := s.threads[t].pc; pc.PopLoad? || pc.PopNext? || pc.PopCas?
    ensures PlaceOk(PopStep(s, t), x)
  {
    ActorFacts(s, t);
    assert x < |s.place| ==> PlaceOk(s, x);
    hide Inv;
  }

  lemma PlaceKept(s: State, t: nat, x: nat)
    requires Inv(s) && t < |s.threads| && InRange(s, t) && x < |Next(s, t).place|
    ensures PlaceOk(Next(s, t), x)
  {
    var pc := s.threads[t].pc;
    if pc.PopLoad? || pc.PopNext? || pc.PopCas? {
      hide Inv, PopStep, PlaceOk;
      PlaceKeptPop(s, t, x);
    } else {
      hide PopStep;
      ActorFacts(s, t);
      assert x < |s.place| ==> PlaceOk(s, x);
      if pc.Malloc? {
        FreshNode(s);
      }
      hide Inv;
    }
  }

  lemma FreshNode(s: State)
    requires Inv(s)
    ensures |s.place| == |s.next| && |s.next| !in s.stack && |s.next| !in s.free
  {
  }

  lemma HandKept(s: State, t: nat, u: nat)
    requires Inv(s) && t < |s.threads| && InRange(s, t) && u < |s.threads|
    ensures HandOk(Next(s, t), u)
  {
    ActorFacts(s, t);
    assert HandOk(s, u);
    assert Holding(s.threads[u].pc) ==> PlaceOk(s, s.threads[u].node);
    hide Inv;
  }

  lemma PlacesKept(s: State, t: nat)
    requires Inv(s) && t < |s.threads| && InRange(s, t)
    ensures PlacesOk(Next(s, t))
  {
    var r := Next(s, t);
    assert |r.place| == |r.next| by { ListsFact(s); hide Inv; }
    forall x | 0 <= x < |r.place|
      ensures PlaceOk(r, x)
    {
      PlaceKept(s, t, x);
    }
    forall u | 0 <= u < |r.threads|
      ensures HandOk(r, u)
    {
      HandKept(s, t, u);
    }
    hide Inv, Next, PlaceOk, HandOk;
  }

  /** A step leaves heads alone or gives them the next tag; it writes no link but that of the thread's node. */
  lemma StepEffect(s: State, t: nat)
    requires InRange(s, t)
    ensures var r := Next(s, t);
            && (r.top == s.top || r.top.tag == s.top.tag + 1)
            && (r.spare == s.spare || r.spare.tag == s.spare.tag + 1)
            && |s.next| <= |r.next|
            && (forall x :: 0 <= x < |s.next| && x != s.threads[t].node ==> r.next[x] == s.next[x])
            && (!s.threads[t].pc.PushNext? ==> forall x :: 0 <= x < |s.next| ==> r.next[x] == s.next[x])
            && (forall u :: 0 <= u < |s.threads| && u != t ==> r.threads[u] == s.threads[u])
  {
  }

  lemma OtherKept(s: State, t: nat, u: nat)
    requires Inv(s) && t < |s.threads| && u < |s.threads| && u != t && InRange(s, t)
    ensures ThreadOk(Next(s, t), u)
  {
    assert ThreadOk(s, u);
    NotHis(s, t, u);
    StepEffect(s, t);
    hide Inv, Next, InRange;
  }

  /** The node whose link thread t is about to write is not in the hands of u, nor the one that u will take if the
      head is still as u has seen it. */
  lemma NotHis(s: State, t: nat, u: nat)
    requires Inv(s) && t < |s.threads| && u < |s.threads| && u != t && InRange(s, t)
    ensures s.threads[t].pc.PushNext? ==>
              && (s.threads[u].pc.PushCas? ==> s.threads[u].node != s.threads[t].node)
              && (s.threads[u].pc.PopCas? && s.threads[u].pc.h == HeadOf(s, s.threads[u].pc.w)
                  && s.threads[u].pc.h.ptr.At?
                  ==> s.threads[u].pc.h.ptr.node != s.threads[t].node)
  {
    if s.threads[t].pc.PushNext? {
      assert HandOk(s, t) && HandOk(s, u);
      InHand(s, t);
      if s.threads[u].pc.PopCas? { HeadIsFirst(s, s.threads[u].pc.w); }
    }
    hide Inv, InRange;
  }

  lemma OwnKeptPop(s: State, t: nat)
    requires Inv(s) && t < |s.threads| && InRange(s, t)
    requires var pc := s.threads[t].pc; pc.PopLoad? || pc.PopNext? || pc.PopCas?
    ensures ThreadOk(PopStep(s, t), t)
  {
    assert ThreadOk(s, t);
    if Owed(s.threads[t].pc) { NotMissing(s, t); }
    HeadIsFirst(s, s.threads[t].pc.w);
    hide Inv;
  }

  lemma OwnKept(s: State, t: nat)
    requires Inv(s) && t < |s.threads| && InRange(s, t)
    ensures ThreadOk(Next(s, t), t)
  {
    assert ThreadOk(s, t);
    hide Inv, PopStep;
    var pc := s.threads[t].pc;
    if pc.PopLoad? || pc.PopNext? || pc.PopCas? {
      OwnKeptPop(s, t);
    }
  }

  lemma ThreadKept(s: State, t: nat, u: nat)
    requires Inv(s) && t < |s.threads| && u < |s.threads| && InRange(s, t)
    ensures ThreadOk(Next(s, t), u)
  {
    if u == t { OwnKept(s, t); } else { OtherKept(s, t, u); }
  }

  lemma NextInv(s: State, t: nat)
    requires Inv(s) && t < |s.threads| && InRange(s, t)
    ensures Inv(Next(s, t))
  {
    ListsKept(s, t);
    PlacesKept(s, t);
    CountsKept(s, t);
    forall u | 0 <= u < |s.threads|
      ensures ThreadOk(Next(s, t), u)
    {
      ThreadKept(s, t, u);
    }
    hide Next, ListsOk, PlacesOk, CountsOk, ThreadOk;
  }

  // ---- every run ----

  function Exec(s: State, schedule: seq<nat>): State
    decreases |schedule|
  {
    if schedule == [] then s else
      var before := Exec(s, schedule[..|schedule| - 1]);
      var t := schedule[|schedule| - 1];
      if InRange(before, t) then Next(before, t) else before
  }

  lemma {:induction false} ExecInv(s: State, schedule: seq<nat>)
    requires Inv(s)
    ensures Inv(Exec(s, schedule))
    decreases |schedule|
  {
    hide Inv, Next;
    if schedule != [] {
      ExecInv(s, schedule[..|schedule| - 1]);
      var before := Exec(s, schedule[..|schedule| - 1]);
      var t := schedule[|schedule| - 1];
      if InRange(before, t) {
        NextInv(before, t);
      }
    }
  }

  ghost predicate Reachable(s: State) {
    exists s0: State, schedule: seq<nat> :: Initial(s0) && s == Exec(s0, schedule)
  }

  lemma ReachableInv(s: State)
    requires Reachable(s)
    ensures Inv(s)
  {
    hide Inv, Initial;
    var s0: State, schedule: seq<nat> :| Initial(s0) && s == Exec(s0, schedule);
    InitialInv(s0);
    ExecInv(s0, schedule);
  }

  /** The heads and the `next` fields always spell out the two sequences. */
  lemma ChainsAreSequences(s: State)
    requires Reachable(s)
    ensures Chain(s.next, s.top.ptr, s.stack) && Chain(s.next, s.spare.ptr, s.free)
  {
    ReachableInv(s);
  }

  /** Linearizability of `pop`: a successful compare-and-swap takes the first element, whatever nodes have come
      and gone since the head was loaded; it says "empty" only when the list is. */
  lemma PopIsAtomic(s: State, t: nat)
    requires Reachable(s) && t < |s.threads| && InRange(s, t) && (s.threads[t].pc.PopLoad? || s.threads[t].pc.PopCas?)
    ensures var w := s.threads[t].pc.w;
            var r := Next(s, t);
            if s.threads[t].pc.PopCas? && HeadOf(s, w) == s.threads[t].pc.h then
              && ListOf(s, w) == [r.threads[t].node] + ListOf(r, w) && r.threads[t].pc == AfterPop(w)
              && Chain(r.next, HeadOf(r, w).ptr, ListOf(r, w))
            else
              && ListOf(r, w) == ListOf(s, w)
              && (r.threads[t].pc.Malloc? || r.threads[t].pc.Missing? ==> ListOf(s, w) == [])
  {
    ReachableInv(s);
    ListsKept(s, t);
    HeadIsFirst(s, s.threads[t].pc.w);
    if s.threads[t].pc.PopCas? {
      PopTakesFirst(s, t);
    }
    hide Inv, Chain;
  }

  /** Linearizability of `push`. */
  lemma PushIsAtomic(s: State, t: nat)
    requires Reachable(s) && t < |s.threads| && InRange(s, t) && s.threads[t].pc.PushCas?
    ensures var w := s.threads[t].pc.w;
            var r := Next(s, t);
            && ListOf(r, w)
                 == (if HeadOf(s, w) == s.threads[t].pc.h then [s.threads[t].node] + ListOf(s, w) else ListOf(s, w))
            && Chain(r.next, HeadOf(r, w).ptr, ListOf(r, w))
  {
    ReachableInv(s);
    ListsKept(s, t);
    hide Inv, Chain;
  }

  /** Every node is on the stack, or on the free list, or in the hands of one thread, never in two places. */
  lemma NodesPartitioned(s: State, x: nat)
    requires Reachable(s) && x < |s.next|
    ensures x < |s.place|
    ensures s.place[x].OnStack? <==> x in s.stack
    ensures s.place[x].OnFreeList? <==> x in s.free
    ensures forall t :: 0 <= t < |s.threads| && Holding(s.threads[t].pc) ==>
            (s.threads[t].node == x <==> s.place[x] == Hand(t))
    ensures s.place[x].Hand? ==> s.place[x].thread < |s.threads| && Holding(s.threads[s.place[x].thread].pc)
  {
    ReachableInv(s);
    assert PlaceOk(s, x);
    forall t | 0 <= t < |s.threads| && Holding(s.threads[t].pc)
      ensures s.threads[t].node == x <==> s.place[x] == Hand(t)
    {
      assert HandOk(s, t);
    }
  }

  /** A thread's own pop after its push never finds the stack empty. */
  lemma OwnPopFinds(s: State, t: nat)
    requires Reachable(s) && t < |s.threads|
    ensures !s.threads[t].pc.Missing? && (Owed(s.threads[t].pc) ==> s.stack != [])
  {
    ReachableInv(s);
    assert ThreadOk(s, t);
    if Owed(s.threads[t].pc) {
      NotMissing(s, t);
    }
  }

  /** No more nodes are ever allocated than there are threads. */
  lemma FewNodes(s: State)
    requires Reachable(s)
    ensures |s.next| <= |s.threads|
  {
    ReachableInv(s);
  }

  // ---- the program ----

  /** The two heads, the nodes, and the threads. */
  class Machine {
    var top: Head
    var spare: Head
    var next: seq<Ptr>
    var threads: array<Thread>
    ghost var stack: seq<nat>
    ghost var free: seq<nat>
    ghost var place: seq<Place>

    ghost function Abs(): State
      reads this, threads
    {
      State(top, spare, next, threads[..], stack, free, place)
    }

    constructor (n: nat, rounds: nat)
      ensures Initial(Abs()) && threads.Length == n && fresh(threads)
    {
      top, spare, next := Head(Null, 0), Head(Null, 0), [];
      threads := new Thread[n](_ => Thread(PopLoad(FreeList), 0, rounds));
      stack, free, place := [], [], [];
    }

    method Load(w: Which) returns (h: Head)
      ensures h == HeadOf(Abs(), w)
    {
      h := if w.Stack? then top else spare;
    }

    /** The double-word compare-and-exchange; `seen` is what the head was. */
    method CompareExchange(w: Which, old_head: Head, new_head: Head) returns (ok: bool, seen: Head)
      modifies this`top, this`spare
      ensures seen == old(HeadOf(Abs(), w)) && ok == (seen == old_head)
      ensures HeadOf(Abs(), w) == if ok then new_head else seen
      ensures if w.Stack? then spare == old(spare) else top == old(top)
    {
      seen := Load(w);
      ok := seen == old_head;
      if ok {
        if w.Stack? { top := new_head; } else { spare := new_head; }
      }
    }

    /** One access of `pop` by thread t. */
    method Pop(t: nat)
      requires t < threads.Length && InRange(Abs(), t)
      requires var pc := threads[t].pc; pc.PopLoad? || pc.PopNext? || pc.PopCas?
      modifies this, threads
      ensures threads == old(threads) && Abs() == PopStep(old(Abs()), t)
    {
      match threads[t].pc {
        case PopLoad(w) =>
          var h := Load(w);
          threads[t] := threads[t].(pc := SeenByPop(w, h));
        case PopNext(w, h) =>
          threads[t] := threads[t].(pc := PopCas(w, h, next[h.ptr.node]));
        case PopCas(w, h, nxt) =>
          var x := h.ptr.node;
          var ok, seen := CompareExchange(w, h, Head(nxt, h.tag + 1));
          if ok {
            threads[t] := threads[t].(pc := AfterPop(w), node := x);
            place := place[x := Hand(t)];
            if w.Stack? { stack := if stack == [] then [] else stack[1..]; }
                else { free := if free == [] then [] else free[1..]; }
          } else {
            threads[t] := threads[t].(pc := SeenByPop(w, seen));
          }
      }
    }

    /** One access of `push` by thread t. */
    method Push(t: nat)
      requires t < threads.Length && InRange(Abs(), t)
      requires var pc := threads[t].pc; pc.PushLoad? || pc.PushNext? || pc.PushCas?
      modifies this, threads
      ensures threads == old(threads) && Abs() == PushStep(old(Abs()), t)
    {
      var e := threads[t].node;
      match threads[t].pc {
        case PushLoad(w) =>
          var h := Load(w);
          threads[t] := threads[t].(pc := PushNext(w, h));
        case PushNext(w, h) =>
          next := next[e := h.ptr];
          threads[t] := threads[t].(pc := PushCas(w, h));
        case PushCas(w, h) =>
          var ok, seen := CompareExchange(w, h, Head(At(e), h.tag + 1));
          if ok {
            threads[t] := AfterPush(threads[t], w);
            place := place[e := PlaceOf(w)];
            if w.Stack? { stack := [e] + stack; } else { free := [e] + free; }
          } else {
            threads[t] := threads[t].(pc := PushNext(w, seen));
          }
      }
    }

    /** The next access of thread t, the allocation of a node included. */
    method Step(t: nat)
      requires InRange(Abs(), t)
      modifies this, threads
      ensures threads == old(threads) && Abs() == Next(old(Abs()), t)
    {
      var th := threads[t];
      hide PopStep, PushStep;
      if th.pc.PopLoad? || th.pc.PopNext? || th.pc.PopCas? {
        Pop(t);
      } else if th.pc.PushLoad? || th.pc.PushNext? || th.pc.PushCas? {
        Push(t);
      } else if th.pc.Malloc? {
        threads[t] := th.(pc := PushLoad(Stack), node := |next|);
        next := next + [Null];
        place := place + [Hand(t)];
      } else if th.pc.Missing? {
        threads[t] := NextRound(th);
      }
    }
  }
}
