/** Deadlock freedom of the Neilsen-Mizuno algorithm, whose goroutines keep the mutex of their node while they
    wait for a channel. It holds if and only if the initial tree is a star, as it is in the program. In a star
    the waiting nodes form one queue, which the token follows. */
module NeilsenMizunoStar {
  import opened Counting
  import opened NeilsenMizuno

  /** Every edge of the tree ends at node c. */
  predicate Star(tree: seq<nat>, c: nat) {
    c < |tree| && forall x :: 0 < x < |tree| ==> x == c || tree[x] == c
  }

  // ---- the queue ----

  /** Node y waits behind x: x has its request. At the centre, requests in the receiver are not yet queued. */
  predicate Behind(s: State, c: nat, x: nat, y: nat) {
    && x < |s.nodes| && y < |s.nodes| && s.nodes[y].main.Waiting?
    && if x == c then s.nodes[x].deferred == Some(y) else Has(s.nodes[x], y)
  }

  /** The request of y is at the centre, and not yet queued. */
  predicate Arriving(s: State, c: nat, y: nat) {
    c < |s.nodes| && Carries(s.nodes[c]) && s.nodes[c].receiver.m.originator == y
  }

  predicate Distinct(q: seq<nat>) {
    forall j, k :: 0 <= j < k < |q| ==> q[j] != q[k]
  }

  ghost predicate Linked(s: State, c: nat, q: seq<nat>) {
    forall k :: 0 < k < |q| ==> Behind(s, c, q[k - 1], q[k])
  }

  ghost predicate Complete(s: State, c: nat, q: seq<nat>) {
    forall y :: 0 <= y < |s.nodes| && s.nodes[y].main.Waiting? ==> y in q || Arriving(s, c, y)
  }

  /** The queue starts with the owner of the token and ends where the centre points to, or with the centre. */
  ghost predicate QueueOk(s: State, c: nat, q: seq<nat>) {
    && q != [] && q[0] == s.token && c < |s.nodes| && Distinct(q)
    && s.nodes[c].parent == (if q[|q| - 1] == c then None else Some(q[|q| - 1]))
    && (forall k :: 0 <= k < |q| ==> q[k] < |s.nodes|)
    && Linked(s, c, q) && Complete(s, c, q)
    && (Carries(s.nodes[c]) ==> s.nodes[c].receiver.m.originator == s.nodes[c].receiver.m.source)
  }

  function Tail(q: seq<nat>): seq<nat> {
    if q == [] then [] else q[1..]
  }

  /** The queue after one action: it grows at the end when the centre sees to a request, and gives up its head
      when the token moves. */
  function Queue(s: State, c: nat, q: seq<nat>, a: Action): seq<nat>
    requires Enabled(s, a)
  {
    var n := s.nodes[a.i];
    match a
    case Lock(_) => q
    case Unlock(_) => q
    case Ask(i) => if i == c then q + [c] else q
    case Receive(i) => if i == c && n.parent == None && !n.holding then q + [n.receiver.m.originator] else q
    case Forward(_) => q + [n.receiver.m.originator]
    case Pass(i) => Tail(if i == c then q + [n.receiver.m.originator] else q)
    case Grant(_) => Tail(q)
  }

  lemma InitialQueue(s: State, c: nat)
    requires Initial(s) && Star(s.tree, c)
    ensures QueueOk(s, c, [0])
  {
    if c > 0 {
      var p := s.tree[c];
      var grandparent := s.tree[p];
    }
  }

  /** The invariant for two neighbours. */
  lemma EdgeFact(s: State, u: nat, v: nat)
    requires Inv(s) && u < |s.nodes| && v < |s.nodes| && Adjacent(s.tree, u, v)
    ensures u != v && EdgeCount(s.nodes[u], s.nodes[v], u, v) == 1
  {
  }

  /** A leaf has no neighbour but the centre, so it never has anything to send on. */
  lemma LeafFacts(s: State, c: nat, x: nat)
    requires Inv(s) && Star(s.tree, c) && x < |s.nodes| && x != c
    ensures s.nodes[x].parent.Some? ==>
            s.nodes[x].parent == Some(c) && s.nodes[c].parent != Some(x) && !From(s.nodes[c], x)
    ensures Carries(s.nodes[x]) ==> s.nodes[x].parent == None && s.nodes[c].parent != Some(x)
    ensures !s.nodes[x].receiver.Forwarding?
  {
    assert NodeOk(s.nodes[x]);
    if s.nodes[x].parent.Some? {
      EdgeFact(s, x, c);
    }
    if Carries(s.nodes[x]) {
      assert Adjacent(s.tree, x, s.nodes[x].receiver.m.source);
      EdgeFact(s, x, c);
    }
  }

  /** What the centre has received is not from itself. */
  lemma CentreFacts(s: State, c: nat)
    requires Inv(s) && Star(s.tree, c) && c < |s.nodes|
    ensures Carries(s.nodes[c]) ==> s.nodes[c].receiver.m.source < |s.nodes| && s.nodes[c].receiver.m.source != c
    ensures s.nodes[c].parent.Some? ==> s.nodes[c].parent.value < |s.nodes| && s.nodes[c].parent.value != c
  {
  }

  lemma TokenFact(s: State, i: nat)
    requires Inv(s) && i < |s.nodes|
    ensures HasToken(s.nodes[i]) <==> i == s.token
    ensures NodeOk(s.nodes[i])
  {
  }

  /** Members of the queue other than its head wait, with their request at their predecessor. */
  lemma Place(s: State, c: nat, q: seq<nat>, k: nat)
    requires Inv(s) && QueueOk(s, c, q) && 0 < k < |q|
    ensures q[k - 1] < |s.nodes| && q[k] < |s.nodes| && s.nodes[q[k]].main.Waiting?
    ensures s.nodes[q[k]].at == q[k - 1] && !Arriving(s, c, q[k])
  {
    assert Behind(s, c, q[k - 1], q[k]);
    RequestFact(s, q[k - 1], q[k]);
    RequestFact(s, c, q[k]);
  }

  lemma NotQueued(s: State, c: nat, q: seq<nat>, x: nat)
    requires Inv(s) && QueueOk(s, c, q) && x < |s.nodes| && !HasToken(s.nodes[x])
    requires !s.nodes[x].main.Waiting? || Arriving(s, c, x)
    ensures x !in q
  {
    TokenFact(s, x);
    if x in q {
      var k :| 0 <= k < |q| && q[k] == x;
      if k > 0 { Place(s, c, q, k); }
    }
  }

  /** Whose request the owner of the token has, unless it is just arriving at the centre, is the second. */
  lemma Second(s: State, c: nat, q: seq<nat>, o: nat)
    requires Inv(s) && QueueOk(s, c, q) && s.token < |s.nodes| && Has(s.nodes[s.token], o)
    requires s.token == c ==> s.nodes[c].deferred == Some(o)
    ensures |q| > 1 && q[1] == o
  {
    RequestFact(s, s.token, o);
    RequestFact(s, c, o);
    TokenFact(s, o);
    assert !Arriving(s, c, o);
    assert o in q;
    var k :| 0 <= k < |q| && q[k] == o;
    Place(s, c, q, k);
  }

  // ---- the queue is kept ----

  /** What the queue depends on, at one node. */
  predicate SameNode(n: Node, m: Node) {
    && m.parent == n.parent && m.deferred == n.deferred && m.main.Waiting? == n.main.Waiting?
    && Carries(m) == Carries(n) && (Carries(n) ==> m.receiver.m == n.receiver.m)
  }

  /** Whoever waits behind x still does when x keeps what it has. */
  lemma BehindSame(s: State, t: State, c: nat, x: nat, y: nat)
    requires Behind(s, c, x, y) && |t.nodes| == |s.nodes| && t.nodes[y].main.Waiting?
    requires t.nodes[x].deferred == s.nodes[x].deferred && (x == c || t.nodes[x].receiver == s.nodes[x].receiver)
    ensures Behind(t, c, x, y)
  {
  }

  lemma QuietEffect(s: State, a: Action)
    requires Enabled(s, a)
    requires a.Lock? || a.Unlock? || (a.Receive? && (s.nodes[a.i].parent.Some? || s.nodes[a.i].holding))
    ensures Next(s, a).token == s.token && forall x :: 0 <= x < |s.nodes| ==> SameNode(s.nodes[x], Next(s, a).nodes[x])
  {
  }

  lemma QuietQueue(s: State, t: State, c: nat, q: seq<nat>)
    requires QueueOk(s, c, q) && |t.nodes| == |s.nodes| && t.token == s.token
    requires forall x :: 0 <= x < |s.nodes| ==> SameNode(s.nodes[x], t.nodes[x])
    ensures QueueOk(t, c, q)
  {
    forall k | 0 < k < |q|
      ensures Behind(t, c, q[k - 1], q[k])
    {
      assert Behind(s, c, q[k - 1], q[k]);
    }
    forall y | 0 <= y < |t.nodes| && t.nodes[y].main.Waiting?
      ensures y in q || Arriving(t, c, y)
    {
      assert s.nodes[y].main.Waiting? && (y in q || Arriving(s, c, y));
    }
  }

  lemma AskEffect(s: State, i: nat)
    requires Enabled(s, Ask(i))
    ensures var t := Next(s, Ask(i));
            var p := s.nodes[i].parent.value;
            && t.token == s.token && p < |s.nodes| && p != i && s.nodes[p].receiver.Listening?
            && t.nodes[i].main.Waiting? && t.nodes[i].parent == None && t.nodes[i].deferred == s.nodes[i].deferred
            && t.nodes[i].receiver == s.nodes[i].receiver
            && t.nodes[p] == s.nodes[p].(receiver := Got(Message(i, i)))
            && forall x :: 0 <= x < |s.nodes| && x != i && x != p ==> t.nodes[x] == s.nodes[x]
  {
  }

  /** The end of the queue is where the centre's requests go. */
  lemma EndFact(s: State, c: nat, q: seq<nat>)
    requires QueueOk(s, c, q)
    ensures c < |s.nodes| && s.nodes[c].parent.Some? ==> q[|q| - 1] == s.nodes[c].parent.value && q[|q| - 1] != c
  {
  }

  /** The last of the queue gets a successor. */
  lemma Appended(s: State, t: State, c: nat, q: seq<nat>, o: nat)
    requires QueueOk(s, c, q) && |t.nodes| == |s.nodes| && t.token == s.token && o < |s.nodes| && o !in q
    requires t.nodes[c].parent == if o == c then None else Some(o)
    requires Carries(t.nodes[c]) ==> t.nodes[c].receiver.m.originator == t.nodes[c].receiver.m.source
    requires Behind(t, c, q[|q| - 1], o)
    requires forall x :: 0 <= x < |s.nodes| ==> t.nodes[x].deferred == s.nodes[x].deferred
    requires forall x :: 0 <= x < |s.nodes| && x != c && x != q[|q| - 1] ==> t.nodes[x].receiver == s.nodes[x].receiver
    requires forall x :: 0 <= x < |s.nodes| && x != o ==> t.nodes[x].main.Waiting? == s.nodes[x].main.Waiting?
    requires forall y :: y != o && Arriving(s, c, y) ==> Arriving(t, c, y)
    ensures QueueOk(t, c, q + [o])
  {
    var q' := q + [o];
    forall k | 0 < k < |q'|
      ensures Behind(t, c, q'[k - 1], q'[k])
    {
      hide Complete, Arriving;
      if k < |q| {
        assert Behind(s, c, q[k - 1], q[k]);
        hide Behind;
        BehindSame(s, t, c, q[k - 1], q[k]);
      }
    }
    assert Complete(t, c, q') by {
      hide Linked, Behind, Arriving;
      forall y | 0 <= y < |t.nodes| && t.nodes[y].main.Waiting?
        ensures y in q' || Arriving(t, c, y)
      {
        assert y != o ==> y in q || Arriving(s, c, y);
      }
    }
    hide Behind, Arriving, Complete;
  }

  lemma CentreAsks(s: State, c: nat, q: seq<nat>)
    requires Inv(s) && Star(s.tree, c) && QueueOk(s, c, q) && Enabled(s, Ask(c))
    ensures QueueOk(Next(s, Ask(c)), c, q + [c])
  {
    TokenFact(s, c);
    NotQueued(s, c, q, c);
    AskEffect(s, c);
    EndFact(s, c, q);
    assert Carries(s.nodes[c]) ==> s.nodes[c].receiver.m.originator == s.nodes[c].receiver.m.source;
    hide Inv, Next, Enabled, NodeOk, Star, QueueOk;
    Appended(s, Next(s, Ask(c)), c, q, c);
  }

  lemma LeafAsks(s: State, c: nat, q: seq<nat>, i: nat)
    requires Inv(s) && Star(s.tree, c) && QueueOk(s, c, q) && Enabled(s, Ask(i)) && i != c
    ensures QueueOk(Next(s, Ask(i)), c, q)
  {
    var t := Next(s, Ask(i));
    TokenFact(s, i);
    NotQueued(s, c, q, i);
    AskEffect(s, i);
    LeafFacts(s, c, i);
    hide Inv, Next, Enabled, NodeOk, Star;
    forall k | 0 < k < |q|
      ensures Behind(t, c, q[k - 1], q[k])
    {
      assert Behind(s, c, q[k - 1], q[k]);
    }
    forall y | 0 <= y < |t.nodes| && t.nodes[y].main.Waiting?
      ensures y in q || Arriving(t, c, y)
    {
      assert y != i ==> y in q || Arriving(s, c, y);
    }
  }

  lemma DeferEffect(s: State, i: nat)
    requires Enabled(s, Receive(i)) && s.nodes[i].parent == None && !s.nodes[i].holding
    ensures var t := Next(s, Receive(i));
            var m := s.nodes[i].receiver.m;
            && t.token == s.token && s.nodes[i].receiver.Got?
            && t.nodes[i] == s.nodes[i].(deferred := Some(m.originator), parent := Some(m.source),
                                         receiver := Listening)
            && forall x :: 0 <= x < |s.nodes| && x != i ==> t.nodes[x] == s.nodes[x]
  {
  }

  lemma CentreDefers(s: State, c: nat, q: seq<nat>)
    requires Inv(s) && Star(s.tree, c) && QueueOk(s, c, q) && Enabled(s, Receive(c))
    requires s.nodes[c].parent == None && !s.nodes[c].holding
    ensures QueueOk(Next(s, Receive(c)), c, q + [s.nodes[c].receiver.m.originator])
  {
    var t, o := Next(s, Receive(c)), s.nodes[c].receiver.m.originator;
    TokenFact(s, c);
    RequestFact(s, c, o);
    CentreFacts(s, c);
    TokenFact(s, o);
    NotQueued(s, c, q, o);
    DeferEffect(s, c);
    hide Inv, Next, Star;
    assert |q| == 1;
    forall y | 0 <= y < |t.nodes| && t.nodes[y].main.Waiting?
      ensures y == o
    {
      assert y in q || Arriving(s, c, y);
    }
  }

  lemma LeafDefers(s: State, c: nat, q: seq<nat>, i: nat)
    requires Inv(s) && QueueOk(s, c, q) && Enabled(s, Receive(i)) && i != c
    requires s.nodes[i].parent == None && !s.nodes[i].holding
    ensures QueueOk(Next(s, Receive(i)), c, q)
  {
    var t := Next(s, Receive(i));
    TokenFact(s, i);
    DeferEffect(s, i);
    hide Inv, Next, Enabled, NodeOk;
    forall k | 0 < k < |q|
      ensures Behind(t, c, q[k - 1], q[k])
    {
      assert Behind(s, c, q[k - 1], q[k]);
    }
    forall y | 0 <= y < |t.nodes| && t.nodes[y].main.Waiting?
      ensures y in q || Arriving(t, c, y)
    {
      assert y in q || Arriving(s, c, y);
    }
  }

  lemma ReceiveQueue(s: State, c: nat, q: seq<nat>, i: nat)
    requires Inv(s) && Star(s.tree, c) && QueueOk(s, c, q) && Enabled(s, Receive(i))
    ensures QueueOk(Next(s, Receive(i)), c, Queue(s, c, q, Receive(i)))
  {
    hide Inv, QueueOk;
    if s.nodes[i].parent.Some? || s.nodes[i].holding {
      QuietEffect(s, Receive(i));
      QuietQueue(s, Next(s, Receive(i)), c, q);
    } else if i == c {
      CentreDefers(s, c, q);
    } else {
      LeafDefers(s, c, q, i);
    }
  }

  lemma ForwardQueue(s: State, c: nat, q: seq<nat>, i: nat)
    requires Inv(s) && Star(s.tree, c) && QueueOk(s, c, q) && Enabled(s, Forward(i))
    ensures QueueOk(Next(s, Forward(i)), c, q + [s.nodes[i].receiver.m.originator])
  {
    var o := s.nodes[i].receiver.m.originator;
    assert s.nodes[i].receiver.Forwarding? && s.nodes[s.nodes[i].parent.value].receiver.Listening?;
    assert c < |s.nodes|;
    if i != c { LeafFacts(s, c, i); }
    RequestFact(s, i, o);
    CentreFacts(s, c);
    TokenFact(s, o);
    NotQueued(s, c, q, o);
    ForwardEffect(s, i);
    EndFact(s, c, q);
    assert o == s.nodes[c].receiver.m.source;
    hide Inv, Next, Enabled, Star, NodeOk, QueueOk;
    Appended(s, Next(s, Forward(i)), c, q, o);
  }

  lemma ServeEffect(s: State, a: Action)
    requires Enabled(s, a) && (a.Grant? || a.Pass?)
    ensures var t := Next(s, a);
            var o := t.token;
            && o < |s.nodes| && o != a.i && Has(s.nodes[a.i], o) && (a.Grant? ==> s.nodes[a.i].deferred == Some(o))
            && (a.Grant? ==>
                t.nodes[a.i].parent == s.nodes[a.i].parent && t.nodes[a.i].receiver == s.nodes[a.i].receiver)
            && (s.nodes[a.i].main.Waiting? || !t.nodes[a.i].main.Waiting?)
            && t.nodes[o] == s.nodes[o].(main := Critical)
            && forall x :: 0 <= x < |s.nodes| && x != a.i && x != o ==> t.nodes[x] == s.nodes[x]
  {
  }

  lemma HeadLinked(s: State, t: State, c: nat, q: seq<nat>)
    requires |q| > 1 && Linked(s, c, q) && |t.nodes| == |s.nodes| && Distinct(q) && forall k :: 0 <= k < |q| ==>
             q[k] < |s.nodes|
    requires forall x :: 0 <= x < |s.nodes| && x != q[0] && x != q[1] ==> t.nodes[x] == s.nodes[x]
    requires t.nodes[q[1]] == s.nodes[q[1]].(main := Critical)
    ensures Linked(t, c, q[1..])
  {
    forall k | 0 < k < |q[1..]|
      ensures Behind(t, c, q[1..][k - 1], q[1..][k])
    {
      assert Behind(s, c, q[k], q[k + 1]) && q[k + 1] != q[0] && q[k + 1] != q[1] && q[k] != q[0];
    }
  }

  lemma HeadComplete(s: State, t: State, c: nat, q: seq<nat>)
    requires |q| > 1 && Complete(s, c, q) && |t.nodes| == |s.nodes| && q[0] < |s.nodes| && !t.nodes[q[0]].main.Waiting?
    requires forall y :: 0 <= y < |s.nodes| && t.nodes[y].main.Waiting? ==> s.nodes[y].main.Waiting?
    requires forall y :: Arriving(s, c, y) ==> Arriving(t, c, y)
    ensures Complete(t, c, q[1..])
  {
    forall y | 0 <= y < |t.nodes| && t.nodes[y].main.Waiting?
      ensures y in q[1..] || Arriving(t, c, y)
    {
      assert y in q || Arriving(s, c, y);
    }
  }

  /** The head of the queue is gone, and the second has its place. */
  lemma Removed(s: State, t: State, c: nat, q: seq<nat>)
    requires QueueOk(s, c, q) && |t.nodes| == |s.nodes| && |q| > 1 && t.token == q[1]
    requires !t.nodes[q[0]].main.Waiting? && t.nodes[q[1]] == s.nodes[q[1]].(main := Critical)
    requires forall x :: 0 <= x < |s.nodes| && x != q[0] && x != q[1] ==> t.nodes[x] == s.nodes[x]
    requires q[0] == c ==> t.nodes[c].parent == s.nodes[c].parent && t.nodes[c].receiver == s.nodes[c].receiver
    ensures QueueOk(t, c, q[1..])
  {
    HeadLinked(s, t, c, q);
    HeadComplete(s, t, c, q);
    hide Linked, Complete;
  }

  /** The token leaves a node that has the request of the second in the queue. */
  lemma HeadLeaves(s: State, c: nat, q: seq<nat>, a: Action)
    requires Inv(s) && QueueOk(s, c, q) && Enabled(s, a) && (a.Grant? || (a.Pass? && a.i != c))
    ensures |q| > 1 && QueueOk(Next(s, a), c, q[1..])
  {
    TokenFact(s, a.i);
    ServeEffect(s, a);
    assert q[0] == s.token;
    hide QueueOk, Next, Enabled, NodeOk, Inv;
    Second(s, c, q, Next(s, a).token);
    Removed(s, Next(s, a), c, q);
  }

  lemma CentrePasses(s: State, c: nat, q: seq<nat>)
    requires Inv(s) && Star(s.tree, c) && QueueOk(s, c, q) && Enabled(s, Pass(c))
    ensures QueueOk(Next(s, Pass(c)), c, Queue(s, c, q, Pass(c)))
  {
    TokenFact(s, c);
    CentreFacts(s, c);
    hide Inv;
    assert |q| == 1 && Queue(s, c, q, Pass(c)) == [s.nodes[c].receiver.m.originator];
    forall y | 0 <= y < |s.nodes| && s.nodes[y].main.Waiting?
      ensures Arriving(s, c, y)
    {
      assert y in q || Arriving(s, c, y);
    }
  }

  lemma QueueKept(s: State, c: nat, q: seq<nat>, a: Action)
    requires Inv(s) && Star(s.tree, c) && QueueOk(s, c, q) && Enabled(s, a)
    ensures QueueOk(Next(s, a), c, Queue(s, c, q, a))
  {
    hide Inv, QueueOk, Next, Enabled;
    match a {
      case Lock(_) => QuietEffect(s, a); QuietQueue(s, Next(s, a), c, q);
      case Unlock(_) => QuietEffect(s, a); QuietQueue(s, Next(s, a), c, q);
      case Ask(i) => if i == c { CentreAsks(s, c, q); } else { LeafAsks(s, c, q, i); }
      case Receive(i) => ReceiveQueue(s, c, q, i);
      case Forward(i) => ForwardQueue(s, c, q, i);
      case Pass(i) => if i == c { CentrePasses(s, c, q); } else { HeadLeaves(s, c, q, a); }
      case Grant(i) => HeadLeaves(s, c, q, a);
    }
  }

  // ---- every run ----

  function QueueOf(s: State, c: nat, run: seq<Action>): seq<nat>
    decreases |run|
  {
    if run == [] then [0] else
      var before := Exec(s, run[..|run| - 1]);
      var q := QueueOf(s, c, run[..|run| - 1]);
      if Enabled(before, run[|run| - 1]) then Queue(before, c, q, run[|run| - 1]) else q
  }

  /** In a star the waiting nodes are always in one queue, behind the owner of the token, but for the one whose
      request is just arriving at the centre. */
  lemma {:induction false} ExecQueue(s: State, c: nat, run: seq<Action>)
    requires Initial(s) && Star(s.tree, c)
    ensures Inv(Exec(s, run)) && QueueOk(Exec(s, run), c, QueueOf(s, c, run))
    decreases |run|
  {
    ExecInv(s, run) by { InitialInv(s); }
    if run == [] {
      InitialQueue(s, c);
    } else {
      var shorter := run[..|run| - 1];
      ExecQueue(s, c, shorter);
      hide Inv, Initial, QueueOk, Star, Enabled, Next, Queue;
      if Enabled(Exec(s, shorter), run[|run| - 1]) {
        QueueKept(Exec(s, shorter), c, QueueOf(s, c, shorter), run[|run| - 1]);
      }
    }
  }

  ghost predicate Ahead(q: seq<nat>, x: nat, y: nat) {
    exists j, k :: 0 <= j < k < |q| && q[j] == x && q[k] == y
  }

  lemma AheadKept(s: State, c: nat, q: seq<nat>, a: Action, x: nat, y: nat)
    requires Enabled(s, a) && Ahead(q, x, y) && q[0] != x
    ensures Ahead(Queue(s, c, q, a), x, y)
  {
    var j, k :| 0 <= j < k < |q| && q[j] == x && q[k] == y;
    var q' := Queue(s, c, q, a);
    if a.Pass? || a.Grant? {
      assert q'[j - 1] == x && q'[k - 1] == y;
    } else {
      assert q'[j] == x && q'[k] == y;
    }
  }

  /** Node x has not the token at any moment of the continuation. */
  ghost predicate NeverOwns(s: State, run: seq<Action>, more: seq<Action>, x: nat) {
    forall m :: 0 <= m <= |more| ==> Exec(s, run + more[..m]).token != x
  }

  lemma NeverOwnsPrefix(s: State, run: seq<Action>, more: seq<Action>, n: nat, x: nat)
    requires NeverOwns(s, run, more, x) && n <= |more|
    ensures NeverOwns(s, run, more[..n], x) && Exec(s, run + more[..n]).token != x
  {
    forall m | 0 <= m <= n
      ensures Exec(s, run + more[..n][..m]).token != x
    {
      assert more[..n][..m] == more[..m];
    }
  }

  /** First in, first out: as long as node x has not had the token, no node behind it in the queue gets it. */
  lemma {:induction false} NoOvertaking(s: State, c: nat, run: seq<Action>, more: seq<Action>, x: nat, y: nat)
    requires Initial(s) && Star(s.tree, c) && Ahead(QueueOf(s, c, run), x, y) && NeverOwns(s, run, more, x)
    ensures Ahead(QueueOf(s, c, run + more), x, y)
    ensures Exec(s, run + more).token != y < |s.nodes| && Exec(s, run + more).nodes[y].main.Waiting?
    decreases |more|
  {
    hide Initial, Star, Inv, Enabled, Next, Ahead, Queue, NeverOwns;
    if more == [] {
      assert run + more == run;
    } else {
      var n := |more| - 1;
      NeverOwnsPrefix(s, run, more, n, x);
      NoOvertaking(s, c, run, more[..n], x, y);
      var all := run + more;
      assert all[..|all| - 1] == run + more[..n] && all[|all| - 1] == more[n];
      ExecQueue(s, c, run + more[..n]);
      if Enabled(Exec(s, run + more[..n]), more[n]) {
        AheadKept(Exec(s, run + more[..n]), c, QueueOf(s, c, run + more[..n]), more[n], x, y);
      }
    }
    ExecQueue(s, c, run + more);
    AheadWaits(Exec(s, run + more), c, QueueOf(s, c, run + more), x, y);
  }

  lemma AheadWaits(s: State, c: nat, q: seq<nat>, x: nat, y: nat)
    requires Inv(s) && QueueOk(s, c, q) && Ahead(q, x, y)
    ensures s.token != y < |s.nodes| && s.nodes[y].main.Waiting?
  {
    var j, k :| 0 <= j < k < |q| && q[j] == x && q[k] == y;
    assert Behind(s, c, q[k - 1], q[k]);
  }

  // ---- somebody can move ----

  predicate Unfinished(s: State, i: nat) {
    i < |s.nodes| && !(s.nodes[i].main.Ready? && s.nodes[i].todo == 0)
  }

  /** The leaf at the end of the queue listens, so the centre can send it what it has to send. */
  lemma EndListens(s: State, c: nat)
    requires Inv(s) && Star(s.tree, c) && c < |s.nodes| && s.nodes[c].parent.Some?
    ensures s.nodes[c].parent.value != c && IsListening(s, s.nodes[c].parent.value)
  {
    CentreFacts(s, c);
    LeafFacts(s, c, s.nodes[c].parent.value);
  }

  /** When a request is with the centre, and the centre has not the token, something can happen. */
  lemma CentreMoves(s: State, c: nat, q: seq<nat>) returns (a: Action)
    requires Inv(s) && Star(s.tree, c) && QueueOk(s, c, q) && Carries(s.nodes[c])
    requires !s.nodes[c].main.Waiting? && !HasToken(s.nodes[c])
    ensures Enabled(s, a)
  {
    TokenFact(s, c);
    if s.nodes[c].parent.Some? { EndListens(s, c); }
    hide Inv, QueueOk, Star;
    a := if s.nodes[c].main.Asking? then Ask(c) else if s.nodes[c].receiver.Forwarding? then Forward(c) else Receive(c);
  }

  /** The owner of the token can always move, unless it keeps the token and nobody has asked for it. */
  lemma OwnerMoves(s: State, c: nat, q: seq<nat>) returns (a: Action)
    requires Inv(s) && Star(s.tree, c) && QueueOk(s, c, q) && s.token < |s.nodes|
    ensures Enabled(s, a) || (s.nodes[s.token].holding && s.nodes[s.token].receiver.Listening? && |q| == 1)
  {
    var h := s.token;
    var n := s.nodes[h];
    TokenFact(s, h);
    if n.main.Granting? {
      RequestFact(s, h, n.deferred.value);
      a := Grant(h);
    } else if n.main.Critical? {
      if n.receiver.Forwarding? {
        if h != c { LeafFacts(s, c, h); }
        EndListens(s, c);
        a := Forward(h);
      } else {
        a := Unlock(h);
      }
    } else if n.receiver.Listening? {
      a := Lock(h);
      if |q| > 1 { Place(s, c, q, 1); }
    } else {
      RequestFact(s, h, n.receiver.m.originator);
      a := if n.receiver.Passing? then Pass(h) else Receive(h);
    }
  }

  /** In a star, while some node has rounds left, some action can happen. */
  lemma SomebodyMoves(s: State, c: nat, q: seq<nat>, i: nat) returns (a: Action)
    requires Inv(s) && Star(s.tree, c) && QueueOk(s, c, q) && Unfinished(s, i)
    ensures Enabled(s, a)
  {
    assert s.token < |s.nodes|;
    a := OwnerMoves(s, c, q);
    if !Enabled(s, a) {
      var n := s.nodes[i];
      TokenFact(s, i);
      TokenFact(s, c);
      var carried := Carries(s.nodes[c]);
      assert s.nodes[c].main.Waiting? ==> c in q || Arriving(s, c, c);
      assert n.main.Waiting? ==> i in q || Arriving(s, c, i);
      if s.nodes[c].main.Waiting? {
        CentreFacts(s, c);
      } else if carried {
        a := CentreMoves(s, c, q);
      } else if n.main.Asking? {
        if i == c { EndListens(s, c); } else { LeafFacts(s, c, i); }
        a := Ask(i);
      } else {
        if i != c { LeafFacts(s, c, i); }
        a := Lock(i);
      }
    }
  }

  // ---- a tree that is not a star can get stuck ----

  predicate Fresh(n: Node) {
    n.main.Ready? && n.todo > 0 && n.receiver.Listening? && !n.holding
  }

  /** Four nodes in a row, u - p - h - y, with the token in use at h; nobody else has anything to do. */
  predicate InARow(s: State, u: nat, p: nat, h: nat, y: nat) {
    && u < |s.nodes| && p < |s.nodes| && h < |s.nodes| && y < |s.nodes|
    && u != p && u != h && u != y && p != h && p != y && h != y
    && forall x {:trigger s.nodes[x]} :: 0 <= x < |s.nodes| && x != u && x != p && x != h && x != y ==>
         s.nodes[x].main.Ready? && s.nodes[x].todo == 0 && s.nodes[x].receiver.Listening?
  }

  /** First p asks h, which defers it. */
  lemma FirstAsks(s: State, u: nat, p: nat, h: nat, y: nat) returns (t: State)
    requires Reachable(s) && InARow(s, u, p, h, y)
    requires Fresh(s.nodes[u]) && Fresh(s.nodes[p]) && Fresh(s.nodes[y]) && s.nodes[h].main.Critical?
    requires s.nodes[h].parent == None && !s.nodes[h].holding && s.nodes[h].receiver.Listening?
    requires s.nodes[p].parent == Some(h)
    ensures Reachable(t) && InARow(t, u, p, h, y) && t.tree == s.tree
    ensures t.nodes[u] == s.nodes[u] && t.nodes[y] == s.nodes[y]
    ensures t.nodes[p].main.Waiting? && t.nodes[p].receiver.Listening?
    ensures t.nodes[h].main.Critical? && t.nodes[h].parent == Some(p) && t.nodes[h].receiver.Listening?
  {
    var s1 := Next(s, Lock(p));
    assert Enabled(s, Lock(p));
    ReachableNext(s, Lock(p));
    var s2 := Next(s1, Ask(p));
    ReachableNext(s1, Ask(p));
    t := Next(s2, Receive(h));
    ReachableNext(s2, Receive(h));
    hide Reachable;
  }

  /** Then u asks p, which waits for the token and does not look at the request. */
  lemma SecondAsks(s: State, u: nat, p: nat, h: nat, y: nat) returns (t: State)
    requires Reachable(s) && InARow(s, u, p, h, y)
    requires Fresh(s.nodes[u]) && Fresh(s.nodes[y]) && s.nodes[u].parent == Some(p)
    requires s.nodes[p].main.Waiting? && s.nodes[p].receiver.Listening?
    requires s.nodes[h].main.Critical? && s.nodes[h].parent == Some(p) && s.nodes[h].receiver.Listening?
    ensures Reachable(t) && InARow(t, u, p, h, y) && t.tree == s.tree
    ensures t.nodes[u].main.Waiting? && t.nodes[u].receiver.Listening? && t.nodes[y] == s.nodes[y]
            && t.nodes[h] == s.nodes[h]
    ensures t.nodes[p].main.Waiting? && t.nodes[p].receiver.Got?
  {
    var s1 := Next(s, Lock(u));
    assert Enabled(s, Lock(u));
    ReachableNext(s, Lock(u));
    t := Next(s1, Ask(u));
    ReachableNext(s1, Ask(u));
    hide Reachable;
  }

  /** Then y asks h, whose receiver keeps h's mutex while it waits to send the request on to p, which waits for
      the token, which h cannot give away without its mutex. */
  lemma ThirdAsks(s: State, u: nat, p: nat, h: nat, y: nat) returns (t: State)
    requires Reachable(s) && InARow(s, u, p, h, y)
    requires Fresh(s.nodes[y]) && s.nodes[y].parent == Some(h)
    requires s.nodes[u].main.Waiting? && s.nodes[u].receiver.Listening?
    requires s.nodes[p].main.Waiting? && s.nodes[p].receiver.Got?
    requires s.nodes[h].main.Critical? && s.nodes[h].parent == Some(p) && s.nodes[h].receiver.Listening?
    ensures Reachable(t) && t.tree == s.tree && h < |t.nodes| && t.nodes[h].main.Critical?
    ensures forall a :: !Enabled(t, a)
  {
    var s1 := Next(s, Lock(y));
    assert Enabled(s, Lock(y));
    ReachableNext(s, Lock(y));
    var s2 := Next(s1, Ask(y));
    ReachableNext(s1, Ask(y));
    t := Next(s2, Receive(h));
    ReachableNext(s2, Receive(h));
    hide Reachable;
    assert t.nodes[p].main.Waiting? && t.nodes[p].receiver.Got? && t.nodes[h].receiver.Forwarding?
           && t.nodes[h].main.Critical?;
    assert t.nodes[y].main.Waiting? && t.nodes[u].main.Waiting? && t.nodes[y].receiver.Listening?
           && t.nodes[u].receiver.Listening?;
    assert InARow(t, u, p, h, y);
    NothingEnabled(t, u, p, h, y);
  }

  lemma NothingEnabled(t: State, u: nat, p: nat, h: nat, y: nat)
    requires InARow(t, u, p, h, y)
    requires t.nodes[p].main.Waiting? && t.nodes[p].receiver.Got?
    requires t.nodes[h].main.Critical? && t.nodes[h].receiver.Forwarding? && t.nodes[h].parent == Some(p)
    requires t.nodes[y].main.Waiting? && t.nodes[y].receiver.Listening?
    requires t.nodes[u].main.Waiting? && t.nodes[u].receiver.Listening?
    ensures forall a :: !Enabled(t, a)
  {
  }

  /** The start: four nodes have one round, the others none. */
  function Opening(tree: seq<nat>, busy: set<nat>): (s: State)
    requires Tree(tree) && tree != []
    ensures Initial(s) && s.tree == tree
    ensures forall i :: 0 <= i < |tree| ==> s.nodes[i].todo == if i in busy then 1 else 0
  {
    State(tree, seq(|tree|, i requires 0 <= i < |tree| =>
                      Node(if i == 0 then None else Some(tree[i]), i == 0, None, Ready, Listening, if i in busy then 1
                           else 0, 0)), 0)
  }

  /** The row around node 0, which has the token from the start. */
  lemma StuckAtRoot(tree: seq<nat>, u: nat, p: nat, y: nat) returns (t: State)
    requires Tree(tree) && 0 < u < |tree| && 0 < p < |tree| && 0 < y < |tree| && p != y
    requires tree[u] == p && tree[p] == 0 && tree[y] == 0
    ensures Reachable(t) && t.tree == tree && Unfinished(t, 0) && forall a :: !Enabled(t, a)
  {
    var s := Opening(tree, {0, u, p, y});
    InitialReachable(s);
    var s1 := Next(s, Lock(0));
    ReachableNext(s, Lock(0));
    hide Reachable, Initial;
    assert InARow(s1, u, p, 0, y);
    var s2 := FirstAsks(s1, u, p, 0, y);
    var s3 := SecondAsks(s2, u, p, 0, y);
    t := ThirdAsks(s3, u, p, 0, y);
  }

  /** Node 1 gets the token from node 0. */
  lemma TokenToOne(s: State, u: nat, p: nat) returns (t: State)
    requires Initial(s) && InARow(s, u, p, 1, 0) && s.tree[1] == 0
    requires s.nodes[0].todo > 0 && s.nodes[1].todo > 0 && s.nodes[u].todo > 0 && s.nodes[p].todo > 0
    ensures Reachable(t) && t.tree == s.tree && |t.nodes| == |s.nodes| && t.nodes[u] == s.nodes[u]
            && t.nodes[p] == s.nodes[p]
    ensures InARow(t, u, p, 1, 0) && t.nodes[1].main.Critical? && t.nodes[1].parent == None && !t.nodes[1].holding
    ensures t.nodes[1].receiver.Listening? && Fresh(t.nodes[0]) && t.nodes[0].parent == Some(1)
  {
    InitialReachable(s);
    var s1 := Next(s, Lock(1));
    ReachableNext(s, Lock(1));
    var s2 := Next(s1, Ask(1));
    ReachableNext(s1, Ask(1));
    var s3 := Next(s2, Receive(0));
    ReachableNext(s2, Receive(0));
    t := Next(s3, Pass(0));
    ReachableNext(s3, Pass(0));
    hide Reachable, Initial;
  }

  /** The row around node 1, the only neighbour of node 0, which first passes it the token. */
  lemma StuckNextToRoot(tree: seq<nat>, u: nat, p: nat) returns (t: State)
    requires Tree(tree) && 1 < u < |tree| && 1 < p < |tree| && tree[u] == p && tree[p] == 1
    ensures Reachable(t) && t.tree == tree && Unfinished(t, 1) && forall a :: !Enabled(t, a)
  {
    var s := Opening(tree, {0, 1, u, p});
    assert tree[1] == 0 && InARow(s, u, p, 1, 0);
    var s1 := TokenToOne(s, u, p);
    hide Reachable;
    var s2 := FirstAsks(s1, u, p, 1, 0);
    var s3 := SecondAsks(s2, u, p, 1, 0);
    t := ThirdAsks(s3, u, p, 1, 0);
  }

  /** The least node that shows that the tree is no star around c. */
  lemma {:induction false} LeastOff(tree: seq<nat>, c: nat, w: nat) returns (x: nat)
    requires Tree(tree) && 0 < w < |tree| && w != c && tree[w] != c
    ensures 0 < x < |tree| && x != c && tree[x] != c && forall z :: 0 < z < x ==> z == c || tree[z] == c
    decreases w
  {
    x := w;
    if z :| 0 < z < w && z != c && tree[z] != c {
      x := LeastOff(tree, c, z);
    }
  }

  lemma StuckUnlessStar(tree: seq<nat>) returns (t: State, i: nat)
    requires Tree(tree) && tree != [] && forall c :: !Star(tree, c)
    ensures Reachable(t) && t.tree == tree && Unfinished(t, i) && forall a :: !Enabled(t, a)
  {
    assert !Star(tree, 0);
    var w :| 0 < w < |tree| && w != 0 && tree[w] != 0;
    var u := LeastOff(tree, 0, w);
    var p := tree[u];
    if y :| 0 < y < |tree| && y != p && tree[y] == 0 {
      i := 0;
      t := StuckAtRoot(tree, u, p, y);
    } else {
      assert !Star(tree, 1);
      assert tree[1] == 0;
      var v :| 0 < v < |tree| && v != 1 && tree[v] != 1;
      var x := LeastOff(tree, 1, v);
      i := 1;
      t := StuckNextToRoot(tree, x, tree[x]);
    }
  }

  /** Exactly the stars are free of deadlock. */
  lemma DeadlockFreeIffStar(tree: seq<nat>)
    requires Tree(tree) && tree != []
    ensures (exists c :: Star(tree, c)) <==>
            (forall s, i :: Reachable(s) && s.tree == tree && Unfinished(s, i) ==> exists a :: Enabled(s, a))
  {
    hide Enabled, Initial, Inv, QueueOk, Unfinished;
    if c :| Star(tree, c) {
      forall s, i | Reachable(s) && s.tree == tree && Unfinished(s, i)
        ensures exists a :: Enabled(s, a)
      {
        var s0: State, run: seq<Action> :| Initial(s0) && s == Exec(s0, run);
        ExecQueue(s0, c, run);
        var a := SomebodyMoves(s, c, QueueOf(s0, c, run), i);
      }
    } else {
      var t, i := StuckUnlessStar(tree);
    }
  }

  /** The program's tree, in which node 0 is the parent of all others, is a star. */
  lemma ProgramIsDeadlockFree(s: State, i: nat) returns (a: Action)
    requires Reachable(s) && (forall x :: 0 < x < |s.tree| ==> s.tree[x] == 0) && Unfinished(s, i)
    ensures Enabled(s, a)
  {
    ReachableInv(s);
    assert Star(s.tree, 0);
    hide Enabled, Initial, Inv, QueueOk, Unfinished;
    var s0: State, run: seq<Action> :| Initial(s0) && s == Exec(s0, run);
    ExecQueue(s0, 0, run);
    a := SomebodyMoves(s, 0, QueueOf(s0, 0, run), i);
  }
}
