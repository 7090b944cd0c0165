/** The Neilsen-Mizuno algorithm (channels/distributed/mutex_token_passing_neilsen_mizuno.go): a token, and
    pointers that are reversed along the edges of a fixed tree. A step is a rendezvous on an unbuffered
    channel or a section of a goroutine under the node's mutex. */
module NeilsenMizuno {
  import opened Counting

  datatype Option = None | Some(value: nat)

  datatype Message = Message(source: nat, originator: nat)

  /** Asking and Waiting are inside `lock` with the mutex held: before the request is sent, and before the
      token arrives. Granting is inside `unlock`, about to send the token to the deferred node. */
  datatype Main = Ready | Asking | Waiting | Critical | Granting

  /** Passing and Forwarding hold the mutex: about to send the token, or the request, on. */
  datatype Receiver = Listening | Got(m: Message) | Passing(m: Message) | Forwarding(m: Message)

  /** `at` records which node has the request of this node. */
  datatype Node = Node(parent: Option, holding: bool, deferred: Option, main: Main, receiver: Receiver, todo: nat,
                       at: nat)

  /** Node x > 0 starts with tree[x] < x as its parent, node 0 with the token. In the program the tree is a
      star. `token` records where the token is. */
  datatype State = State(tree: seq<nat>, nodes: seq<Node>, token: nat)

  datatype Action =
    | Lock(i: nat) | Ask(i: nat) | Receive(i: nat) | Pass(i: nat) | Forward(i: nat) | Unlock(i: nat) | Grant(i: nat)

  predicate Tree(tree: seq<nat>) {
    forall x :: 0 < x < |tree| ==> tree[x] < x
  }

  predicate MutexFree(n: Node) {
    && !n.main.Asking? && !n.main.Waiting? && !n.main.Granting?
    && !n.receiver.Passing? && !n.receiver.Forwarding?
  }

  predicate IsWaiting(s: State, i: nat) {
    i < |s.nodes| && s.nodes[i].main.Waiting?
  }

  predicate IsListening(s: State, i: nat) {
    i < |s.nodes| && s.nodes[i].receiver.Listening?
  }

  predicate Enabled(s: State, a: Action) {
    && a.i < |s.nodes|
    && var n := s.nodes[a.i];
       match a
       case Lock(_) => n.main.Ready? && n.todo > 0 && MutexFree(n)
       case Ask(i) => n.main.Asking? && n.parent.Some? && n.parent.value != i && IsListening(s, n.parent.value)
       case Receive(_) => n.receiver.Got? && MutexFree(n)
       case Pass(i) => n.receiver.Passing? && n.receiver.m.originator != i && IsWaiting(s, n.receiver.m.originator)
       case Forward(i) => n.receiver.Forwarding? && n.parent.Some? && n.parent.value != i
           && IsListening(s, n.parent.value)
       case Unlock(_) => n.main.Critical? && MutexFree(n)
       case Grant(i) => n.main.Granting? && n.deferred.Some? && n.deferred.value != i && IsWaiting(s, n.deferred.value)
  }

  // ---- the sections ----

  function TryLock(n: Node): Node {
    if n.holding then n.(holding := false, main := Critical) else n.(main := Asking)
  }

  /** The receiver has the mutex. */
  function Handle(n: Node): Node
    requires n.receiver.Got?
  {
    var m := n.receiver.m;
    if n.parent.Some? then n.(receiver := Forwarding(m))
    else if n.holding then n.(receiver := Passing(m))
    else n.(deferred := Some(m.originator), parent := Some(m.source), receiver := Listening)
  }

  function TryUnlock(n: Node): Node {
    var n' := n.(todo := if n.todo > 0 then n.todo - 1 else 0);
    if n.deferred.Some? then n'.(main := Granting) else n'.(holding := true, main := Ready)
  }

  function Asked(n: Node, p: nat): Node {
    n.(parent := None, main := Waiting, at := p)
  }

  function Passed(n: Node): Node
    requires n.receiver.Passing?
  {
    n.(holding := false, parent := Some(n.receiver.m.source), receiver := Listening)
  }

  function Forwarded(n: Node): Node
    requires n.receiver.Forwarding?
  {
    n.(parent := Some(n.receiver.m.source), receiver := Listening)
  }

  function Granted(n: Node): Node {
    n.(deferred := None, main := Ready)
  }

  function Next(s: State, a: Action): (t: State)
    requires Enabled(s, a)
    ensures |t.nodes| == |s.nodes| && t.tree == s.tree
  {
    var i := a.i;
    var n := s.nodes[i];
    match a
    case Lock(_) => s.(nodes := s.nodes[i := TryLock(n)])
    case Ask(_) =>
      var p := n.parent.value;
      s.(nodes := s.nodes[i := Asked(n, p)][p := s.nodes[p].(receiver := Got(Message(i, i)))])
    case Receive(_) => s.(nodes := s.nodes[i := Handle(n)])
    case Pass(_) =>
      var o := n.receiver.m.originator;
      s.(nodes := s.nodes[i := Passed(n)][o := s.nodes[o].(main := Critical)], token := o)
    case Forward(_) =>
      var p := n.parent.value;
      var o := n.receiver.m.originator;
      var t := s.nodes[i := Forwarded(n)][p := s.nodes[p].(receiver := Got(Message(i, o)))];
      s.(nodes := if o < |t| then t[o := t[o].(at := p)] else t)
    case Unlock(_) => s.(nodes := s.nodes[i := TryUnlock(n)])
    case Grant(_) =>
      var o := n.deferred.value;
      s.(nodes := s.nodes[i := Granted(n)][o := s.nodes[o].(main := Critical)], token := o)
  }

  predicate Initial(s: State) {
    && |s.tree| == |s.nodes| > 0 && Tree(s.tree) && s.token == 0
    && forall i {:trigger s.nodes[i]} :: 0 <= i < |s.nodes| ==>
         && s.nodes[i].holding == (i == 0)
         && s.nodes[i].parent == (if i == 0 then None else Some(s.tree[i]))
         && s.nodes[i].deferred == None && s.nodes[i].main == Ready && s.nodes[i].receiver == Listening
  }

  // ---- the tree ----

  predicate Adjacent(tree: seq<nat>, i: nat, j: nat) {
    (0 < i < |tree| && tree[i] == j) || (0 < j < |tree| && tree[j] == i)
  }

  predicate Carries(n: Node) {
    !n.receiver.Listening?
  }

  /** A request sent by node u is with the receiver of this node. */
  predicate From(n: Node, u: nat) {
    Carries(n) && n.receiver.m.source == u
  }

  /** In how many ways the edge between u and v is represented. */
  function EdgeCount(nu: Node, nv: Node, u: nat, v: nat): nat {
    One(nu.parent == Some(v)) + One(nv.parent == Some(u)) + One(From(nu, v)) + One(From(nv, u))
  }

  ghost predicate EdgesOnce(s: State)
    requires |s.tree| == |s.nodes|
  {
    forall u, v :: 0 <= u < |s.nodes| && 0 <= v < |s.nodes| && Adjacent(s.tree, u, v)
      ==> EdgeCount(s.nodes[u], s.nodes[v], u, v) == 1
  }

  ghost predicate AlongEdges(s: State) {
    forall i :: 0 <= i < |s.nodes| ==>
      && (s.nodes[i].parent.Some? ==> Adjacent(s.tree, i, s.nodes[i].parent.value))
      && (Carries(s.nodes[i]) ==> Adjacent(s.tree, i, s.nodes[i].receiver.m.source))
  }

  // ---- one node ----

  predicate HasToken(n: Node) {
    n.holding || n.main.Critical? || n.main.Granting?
  }

  predicate NodeOk(n: Node) {
    && (n.holding ==> n.parent == None && n.main.Ready?)
    && (n.receiver.Passing? ==> n.holding)
    && (n.receiver.Forwarding? ==> n.parent.Some? && !n.main.Asking? && !n.main.Waiting? && !n.main.Granting?)
    && (n.deferred.Some? ==> (n.main.Critical? || n.main.Granting?) && n.parent.Some?)
    && (n.main.Granting? ==> n.deferred.Some?)
    && (n.main.Critical? && n.deferred == None ==> n.parent == None)
    && (n.main.Waiting? ==> n.parent == None)
    && (n.main.Asking? ==> n.parent.Some?)
    && (n.main.Ready? && !n.holding ==> n.parent.Some?)
  }

  ghost predicate NodesOk(s: State) {
    forall i :: 0 <= i < |s.nodes| ==> NodeOk(s.nodes[i])
  }

  /** There is one token. */
  ghost predicate TokenOk(s: State) {
    && s.token < |s.nodes|
    && forall i :: 0 <= i < |s.nodes| ==> (HasToken(s.nodes[i]) <==> i == s.token)
  }

  // ---- requests ----

  /** Node j has the request of node o: with its receiver, or in its slot. */
  predicate Has(n: Node, o: nat) {
    (Carries(n) && n.receiver.m.originator == o) || n.deferred == Some(o)
  }

  ghost predicate RequestOk(s: State, j: nat, o: nat)
    requires j < |s.nodes|
  {
    Has(s.nodes[j], o) ==>
      && o < |s.nodes| && s.nodes[o].main.Waiting? && s.nodes[o].at == j
      && !(Carries(s.nodes[j]) && s.nodes[j].receiver.m.originator == o && s.nodes[j].deferred == Some(o))
  }

  ghost predicate SomewhereOk(s: State, o: nat)
    requires o < |s.nodes|
  {
    s.nodes[o].main.Waiting? ==> s.nodes[o].at < |s.nodes| && Has(s.nodes[s.nodes[o].at], o)
  }

  /** No request is in two places, every request found anywhere is that of a node waiting for the token, and
      the request of every waiting node is somewhere. */
  ghost predicate RequestsOk(s: State) {
    && (forall j: nat, o: nat :: j < |s.nodes| ==> RequestOk(s, j, o))
    && (forall o: nat :: o < |s.nodes| ==> SomewhereOk(s, o))
  }

  ghost predicate Inv(s: State) {
    && |s.tree| == |s.nodes| && Tree(s.tree)
    && NodesOk(s) && TokenOk(s) && AlongEdges(s) && EdgesOnce(s) && RequestsOk(s)
  }

  lemma InitialInv(s: State)
    requires Initial(s)
    ensures Inv(s)
  {
  }

  lemma NodesKept(s: State, a: Action)
    requires Inv(s) && Enabled(s, a)
    ensures NodesOk(Next(s, a))
  {
    hide EdgesOnce, AlongEdges, TokenOk, RequestsOk;
  }

  lemma TokenKept(s: State, a: Action)
    requires Inv(s) && Enabled(s, a)
    ensures TokenOk(Next(s, a))
  {
    hide EdgesOnce, AlongEdges, RequestsOk;
  }

  lemma AlongKept(s: State, a: Action)
    requires Inv(s) && Enabled(s, a)
    ensures AlongEdges(Next(s, a))
  {
    hide EdgesOnce, TokenOk, RequestsOk, NodesOk;
  }

  /** Nothing but pointers and messages matters for an edge. */
  lemma EdgeSame(nu: Node, nv: Node, mu: Node, mv: Node, u: nat, v: nat)
    requires mu.parent == nu.parent && mv.parent == nv.parent
    requires forall w: nat :: From(mu, w) == From(nu, w) && From(mv, w) == From(nv, w)
    ensures EdgeCount(mu, mv, u, v) == EdgeCount(nu, nv, u, v)
  {
  }

  lemma EdgeReceive(s: State, i: nat, u: nat, v: nat)
    requires Inv(s) && Enabled(s, Receive(i)) && u < |s.nodes| && v < |s.nodes| && Adjacent(s.tree, u, v)
    ensures EdgeCount(Next(s, Receive(i)).nodes[u], Next(s, Receive(i)).nodes[v], u, v) == 1
  {
    assert EdgeCount(s.nodes[u], s.nodes[v], u, v) == 1 && u != v;
    hide Inv;
  }

  lemma EdgePass(s: State, i: nat, u: nat, v: nat)
    requires Inv(s) && Enabled(s, Pass(i)) && u < |s.nodes| && v < |s.nodes| && Adjacent(s.tree, u, v)
    ensures EdgeCount(Next(s, Pass(i)).nodes[u], Next(s, Pass(i)).nodes[v], u, v) == 1
  {
    assert EdgeCount(s.nodes[u], s.nodes[v], u, v) == 1 && u != v;
    assert NodeOk(s.nodes[i]);
    hide Inv;
  }

  /** Sending over the edge (i, p) turns i's pointer into a message. */
  lemma EdgeSent(ns: seq<Node>, ms: seq<Node>, i: nat, p: nat, u: nat, v: nat)
    requires |ns| == |ms| && i < |ns| && p < |ns| && i != p && u < |ns| && v < |ns| && u != v
    requires EdgeCount(ns[u], ns[v], u, v) == 1 && EdgeCount(ns[i], ns[p], i, p) == 1
    requires ns[i].parent == Some(p) && ns[p].receiver.Listening?
    requires ms[p].parent == ns[p].parent && (forall w: nat :: From(ms[p], w) <==> w == i)
    requires forall x :: 0 <= x < |ns| && x != i && x != p ==>
               ms[x].parent == ns[x].parent && (forall w: nat :: From(ms[x], w) == From(ns[x], w))
    requires ms[i].parent != Some(p) && !From(ms[i], p)
    requires forall w: nat :: w != p ==>
               One(ms[i].parent == Some(w)) + One(From(ms[i], w)) == One(ns[i].parent == Some(w)) + One(From(ns[i], w))
    ensures EdgeCount(ms[u], ms[v], u, v) == 1
  {
    if u == i && v == p {
    } else if u == p && v == i {
    } else if u == i {
      assert v != p;
    } else if v == i {
      assert u != p;
    } else {
    }
  }

  lemma EdgeAsk(s: State, i: nat, u: nat, v: nat)
    requires Inv(s) && Enabled(s, Ask(i)) && u < |s.nodes| && v < |s.nodes| && Adjacent(s.tree, u, v)
    ensures EdgeCount(Next(s, Ask(i)).nodes[u], Next(s, Ask(i)).nodes[v], u, v) == 1
  {
    var p := s.nodes[i].parent.value;
    assert Adjacent(s.tree, i, p);
    assert EdgeCount(s.nodes[u], s.nodes[v], u, v) == 1 && u != v;
    assert EdgeCount(s.nodes[i], s.nodes[p], i, p) == 1;
    hide Inv, Adjacent;
    EdgeSent(s.nodes, Next(s, Ask(i)).nodes, i, p, u, v);
  }

  lemma EdgeForward(s: State, i: nat, u: nat, v: nat)
    requires Inv(s) && Enabled(s, Forward(i)) && u < |s.nodes| && v < |s.nodes| && Adjacent(s.tree, u, v)
    ensures EdgeCount(Next(s, Forward(i)).nodes[u], Next(s, Forward(i)).nodes[v], u, v) == 1
  {
    var p := s.nodes[i].parent.value;
    assert Adjacent(s.tree, i, p);
    assert EdgeCount(s.nodes[u], s.nodes[v], u, v) == 1 && u != v;
    assert EdgeCount(s.nodes[i], s.nodes[p], i, p) == 1;
    assert s.nodes[i].receiver.Forwarding? && s.nodes[p].receiver.Listening?;
    ForwardEffect(s, i);
    hide Inv, Adjacent, Next, Enabled;
    EdgeSent(s.nodes, Next(s, Forward(i)).nodes, i, p, u, v);
  }

  lemma EdgesKept(s: State, a: Action)
    requires Inv(s) && Enabled(s, a)
    ensures EdgesOnce(Next(s, a))
  {
    hide Inv, TokenOk, RequestsOk, AlongEdges, NodesOk;
    forall u, v | 0 <= u < |s.nodes| && 0 <= v < |s.nodes| && Adjacent(s.tree, u, v)
      ensures EdgeCount(Next(s, a).nodes[u], Next(s, a).nodes[v], u, v) == 1
    {
      match a {
        case Receive(i) => EdgeReceive(s, i, u, v);
        case Pass(i) => EdgePass(s, i, u, v);
        case Ask(i) => EdgeAsk(s, i, u, v);
        case Forward(i) => EdgeForward(s, i, u, v);
        case _ => EdgeQuiet(s, a, u, v);
      }
    }
  }

  lemma EdgeQuiet(s: State, a: Action, u: nat, v: nat)
    requires Inv(s) && Enabled(s, a) && u < |s.nodes| && v < |s.nodes| && Adjacent(s.tree, u, v)
    requires a.Lock? || a.Unlock? || a.Grant?
    ensures EdgeCount(Next(s, a).nodes[u], Next(s, a).nodes[v], u, v) == 1
  {
    assert EdgeCount(s.nodes[u], s.nodes[v], u, v) == 1;
    hide Inv;
    EdgeSame(s.nodes[u], s.nodes[v], Next(s, a).nodes[u], Next(s, a).nodes[v], u, v);
  }

  // ---- requests ----

  /** Who has whose request, before and after a step that moves the request of `o` from node i to node k. */
  lemma RequestKept(s: State, a: Action, j: nat, o: nat)
    requires Inv(s) && Enabled(s, a) && j < |s.nodes|
    ensures RequestOk(Next(s, a), j, o)
  {
    match a {
      case Lock(i) => RequestQuiet(s, a, j, o);
      case Unlock(i) => RequestQuiet(s, a, j, o);
      case Receive(i) => RequestReceive(s, i, j, o);
      case Ask(i) => RequestAsk(s, i, j, o);
      case Pass(i) => RequestServed(s, a, j, o);
      case Grant(i) => RequestServed(s, a, j, o);
      case Forward(i) => RequestForward(s, i, j, o);
    }
  }

  lemma RequestFact(s: State, j: nat, o: nat)
    requires Inv(s) && j < |s.nodes|
    ensures RequestOk(s, j, o) && NodeOk(s.nodes[j])
  {
    hide EdgesOnce, AlongEdges, TokenOk;
  }

  lemma RequestQuiet(s: State, a: Action, j: nat, o: nat)
    requires Inv(s) && Enabled(s, a) && j < |s.nodes| && (a.Lock? || a.Unlock?)
    ensures RequestOk(Next(s, a), j, o)
  {
    RequestFact(s, j, o);
    hide Inv, NodeOk;
  }

  lemma RequestReceive(s: State, i: nat, j: nat, o: nat)
    requires Inv(s) && Enabled(s, Receive(i)) && j < |s.nodes|
    ensures RequestOk(Next(s, Receive(i)), j, o)
  {
    RequestFact(s, j, o);
    RequestFact(s, i, o);
    hide Inv;
  }

  lemma RequestAsk(s: State, i: nat, j: nat, o: nat)
    requires Inv(s) && Enabled(s, Ask(i)) && j < |s.nodes|
    ensures RequestOk(Next(s, Ask(i)), j, o)
  {
    RequestFact(s, j, o);
    RequestFact(s, i, o);
    RequestFact(s, s.nodes[i].parent.value, o);
    hide Inv;
  }

  lemma RequestServed(s: State, a: Action, j: nat, o: nat)
    requires Inv(s) && Enabled(s, a) && j < |s.nodes| && (a.Pass? || a.Grant?)
    ensures RequestOk(Next(s, a), j, o)
  {
    var n := s.nodes[a.i];
    var served := if a.Pass? then n.receiver.m.originator else n.deferred.value;
    RequestFact(s, j, o);
    RequestFact(s, a.i, o);
    RequestFact(s, j, served);
    RequestFact(s, a.i, served);
    hide Inv;
  }

  /** A request goes on from node i to its parent; nothing else that matters for requests changes. */
  lemma ForwardEffect(s: State, i: nat)
    requires Enabled(s, Forward(i))
    ensures var t := Next(s, Forward(i));
            var p, r := s.nodes[i].parent.value, s.nodes[i].receiver.m.originator;
            && p < |s.nodes| && p != i
            && t.nodes[i].receiver.Listening? && t.nodes[p].receiver == Got(Message(i, r))
            && (r < |s.nodes| ==> t.nodes[r].at == p)
            && t.token == s.token && t.nodes[i].parent == Some(s.nodes[i].receiver.m.source)
            && (forall x :: 0 <= x < |s.nodes| && x != i ==> t.nodes[x].parent == s.nodes[x].parent)
            && (forall x :: 0 <= x < |s.nodes| ==>
                t.nodes[x].main == s.nodes[x].main && t.nodes[x].deferred == s.nodes[x].deferred)
            && (forall x :: 0 <= x < |s.nodes| && x != r ==> t.nodes[x].at == s.nodes[x].at)
            && (forall x :: 0 <= x < |s.nodes| && x != i && x != p ==> t.nodes[x].receiver == s.nodes[x].receiver)
  {
  }

  lemma RequestForward(s: State, i: nat, j: nat, o: nat)
    requires Inv(s) && Enabled(s, Forward(i)) && j < |s.nodes|
    ensures RequestOk(Next(s, Forward(i)), j, o)
  {
    var n := s.nodes[i];
    var p, r := n.parent.value, n.receiver.m.originator;
    assert n.receiver.Forwarding? && s.nodes[p].receiver.Listening?;
    ForwardEffect(s, i);
    RequestFact(s, j, o);
    RequestFact(s, i, r);
    RequestFact(s, p, r);
    RequestFact(s, j, r);
    hide Inv, NodeOk, Next, Enabled;
  }

  lemma SomewhereKept(s: State, a: Action, o: nat)
    requires Inv(s) && Enabled(s, a) && o < |s.nodes|
    ensures SomewhereOk(Next(s, a), o)
  {
    match a {
      case Lock(_) => SomewhereQuiet(s, a, o);
      case Unlock(_) => SomewhereQuiet(s, a, o);
      case Receive(_) => SomewhereQuiet(s, a, o);
      case Ask(i) => SomewhereAsked(s, i, o);
      case Forward(i) => SomewhereForwarded(s, i, o);
      case Pass(_) => SomewhereServed(s, a, o);
      case Grant(_) => SomewhereServed(s, a, o);
    }
  }

  lemma SomewhereFact(s: State, o: nat)
    requires Inv(s) && o < |s.nodes|
    ensures SomewhereOk(s, o) && NodeOk(s.nodes[o])
    ensures s.nodes[o].main.Waiting? ==> NodeOk(s.nodes[s.nodes[o].at])
  {
    hide EdgesOnce, AlongEdges, TokenOk, NodeOk;
  }

  lemma SomewhereQuiet(s: State, a: Action, o: nat)
    requires Inv(s) && Enabled(s, a) && o < |s.nodes| && (a.Lock? || a.Unlock? || a.Receive?)
    ensures SomewhereOk(Next(s, a), o)
  {
    SomewhereFact(s, o);
    SomewhereFact(s, a.i);
    hide Inv;
  }

  lemma SomewhereAsked(s: State, i: nat, o: nat)
    requires Inv(s) && Enabled(s, Ask(i)) && o < |s.nodes|
    ensures SomewhereOk(Next(s, Ask(i)), o)
  {
    SomewhereFact(s, o);
    SomewhereFact(s, i);
    hide Inv, NodeOk;
  }

  lemma SomewhereForwarded(s: State, i: nat, o: nat)
    requires Inv(s) && Enabled(s, Forward(i)) && o < |s.nodes|
    ensures SomewhereOk(Next(s, Forward(i)), o)
  {
    var p := s.nodes[i].parent.value;
    assert s.nodes[i].receiver.Forwarding? && s.nodes[p].receiver.Listening?;
    ForwardEffect(s, i);
    SomewhereFact(s, o);
    RequestFact(s, i, s.nodes[i].receiver.m.originator);
    RequestFact(s, i, o);
    hide Inv, NodeOk, Next, Enabled;
  }

  lemma SomewhereServed(s: State, a: Action, o: nat)
    requires Inv(s) && Enabled(s, a) && o < |s.nodes| && (a.Pass? || a.Grant?)
    ensures SomewhereOk(Next(s, a), o)
  {
    SomewhereFact(s, o);
    RequestFact(s, a.i, o);
    hide Inv, NodeOk;
  }

  lemma NextInv(s: State, a: Action)
    requires Inv(s) && Enabled(s, a)
    ensures Inv(Next(s, a))
  {
    NodesKept(s, a);
    TokenKept(s, a);
    AlongKept(s, a);
    EdgesKept(s, a);
    forall j: nat, o: nat | j < |s.nodes|
      ensures RequestOk(Next(s, a), j, o)
    {
      RequestKept(s, a, j, o);
    }
    forall o: nat | o < |s.nodes|
      ensures SomewhereOk(Next(s, a), o)
    {
      SomewhereKept(s, a, o);
    }
    hide Next, Enabled, NodesOk, TokenOk, AlongEdges, EdgesOnce, RequestOk, SomewhereOk;
  }

  // ---- every run ----

  function Exec(s: State, run: seq<Action>): (t: State)
    ensures |t.nodes| == |s.nodes| && t.tree == s.tree
    decreases |run|
  {
    if run == [] then s else
      var before := Exec(s, run[..|run| - 1]);
      if Enabled(before, run[|run| - 1]) then Next(before, run[|run| - 1]) else before
  }

  lemma {:induction false} ExecInv(s: State, run: seq<Action>)
    requires Inv(s)
    ensures Inv(Exec(s, run))
    decreases |run|
  {
    hide Inv, Next, Enabled;
    if run != [] {
      ExecInv(s, run[..|run| - 1]);
      var before := Exec(s, run[..|run| - 1]);
      if Enabled(before, run[|run| - 1]) {
        NextInv(before, run[|run| - 1]);
      }
    }
  }

  ghost predicate Reachable(s: State) {
    exists s0: State, run: seq<Action> :: Initial(s0) && s == Exec(s0, run)
  }

  lemma ReachableInv(s: State)
    requires Reachable(s)
    ensures Inv(s)
  {
    hide Inv, Initial;
    var s0: State, run: seq<Action> :| Initial(s0) && s == Exec(s0, run);
    InitialInv(s0);
    ExecInv(s0, run);
  }

  /** At most one node is between `lock` and `unlock`, and nobody else has or is giving away a token. */
  lemma OneToken(s: State)
    requires Reachable(s)
    ensures s.token < |s.nodes| && HasToken(s.nodes[s.token])
    ensures forall i :: 0 <= i < |s.nodes| && HasToken(s.nodes[i]) ==> i == s.token
    ensures forall i :: 0 <= i < |s.nodes| && s.nodes[i].holding ==> s.nodes[i].parent == None
  {
    ReachableInv(s);
  }

  /** Each edge of the initial tree is either a pointer in one direction or a request travelling over it. */
  lemma EdgeOnce(s: State, x: nat)
    requires Reachable(s) && 0 < x < |s.nodes|
    ensures |s.tree| == |s.nodes| && s.tree[x] < x
    ensures EdgeCount(s.nodes[x], s.nodes[s.tree[x]], x, s.tree[x]) == 1
  {
    ReachableInv(s);
    assert Adjacent(s.tree, x, s.tree[x]);
  }

  /** Every pointer follows an edge of the tree, so no path of pointers leaves it. */
  lemma PointersFollowTree(s: State, i: nat)
    requires Reachable(s) && i < |s.nodes| && s.nodes[i].parent.Some?
    ensures Adjacent(s.tree, i, s.nodes[i].parent.value)
  {
    ReachableInv(s);
  }

  /** When the receiver stores a request in the slot `deferred`, the slot is empty. */
  lemma SlotIsFree(s: State, i: nat)
    requires Reachable(s) && Enabled(s, Receive(i)) && s.nodes[i].parent == None && !s.nodes[i].holding
    ensures s.nodes[i].deferred == None
  {
    ReachableInv(s);
    assert NodeOk(s.nodes[i]);
  }

  /** The request of a waiting node is with exactly one node, once; and whoever will be sent the token waits. */
  lemma RequestOnce(s: State, o: nat)
    requires Reachable(s) && o < |s.nodes| && s.nodes[o].main.Waiting?
    ensures s.nodes[o].at < |s.nodes|
    ensures forall j :: 0 <= j < |s.nodes| ==> (Has(s.nodes[j], o) <==> j == s.nodes[o].at)
  {
    ReachableInv(s);
    hide EdgesOnce, AlongEdges, TokenOk, NodesOk;
    assert SomewhereOk(s, o);
    forall j | 0 <= j < |s.nodes|
      ensures Has(s.nodes[j], o) ==> j == s.nodes[o].at
    {
      assert RequestOk(s, j, o);
    }
  }

  lemma TokenGoesToWaiter(s: State, i: nat, o: nat)
    requires Reachable(s) && i < |s.nodes| && Has(s.nodes[i], o)
    ensures o < |s.nodes| && s.nodes[o].main.Waiting?
  {
    ReachableInv(s);
    assert RequestOk(s, i, o);
  }

  /** Whoever has to send a request on has somebody to send it to. */
  lemma NeverWithoutParent(s: State, i: nat)
    requires Reachable(s) && i < |s.nodes| && (s.nodes[i].main.Asking? || s.nodes[i].receiver.Forwarding?)
    ensures s.nodes[i].parent.Some? && s.nodes[i].parent.value < |s.nodes| && s.nodes[i].parent.value != i
  {
    ReachableInv(s);
    assert NodeOk(s.nodes[i]) && Adjacent(s.tree, i, s.nodes[i].parent.value);
  }

  // ---- requests come to an end ----

  /** x lies in the subtree of a, in the tree as it was at the start. */
  predicate Under(tree: seq<nat>, a: nat, x: nat)
    requires Tree(tree) && x < |tree|
    decreases x
  {
    x == a || (x > a && Under(tree, a, tree[x]))
  }

  /** The nodes on the side of v when the edge between u and v is cut. */
  function Beyond(tree: seq<nat>, u: nat, v: nat): set<nat>
    requires Tree(tree)
  {
    if 0 < v < |tree| && tree[v] == u then set x | 0 <= x < |tree| && Under(tree, v, x)
    else set x | 0 <= x < |tree| && !Under(tree, u, x)
  }

  lemma {:induction false} UnderTrans(tree: seq<nat>, a: nat, b: nat, x: nat)
    requires Tree(tree) && a < |tree| && b < |tree| && x < |tree| && Under(tree, a, b) && Under(tree, b, x)
    ensures Under(tree, a, x)
    decreases x
  {
    if x != b {
      UnderTrans(tree, a, b, tree[x]);
    }
  }

  /** Two nodes above the same node are above one another. */
  lemma {:induction false} UnderBoth(tree: seq<nat>, a: nat, b: nat, x: nat)
    requires Tree(tree) && a <= b < |tree| && x < |tree| && Under(tree, a, x) && Under(tree, b, x)
    ensures Under(tree, a, b)
    decreases x
  {
    if x != b {
      UnderBoth(tree, a, b, tree[x]);
    }
  }

  lemma {:induction false} UnderLess(tree: seq<nat>, a: nat, x: nat)
    requires Tree(tree) && x < |tree| && Under(tree, a, x)
    ensures a <= x
    decreases x
  {
  }

  /** Going on from v to another neighbour than u leaves v, and all there is on the side of u, behind. */
  lemma BeyondShrinks(tree: seq<nat>, u: nat, v: nat, w: nat)
    requires Tree(tree) && u < |tree| && v < |tree| && w < |tree| && u != w
    requires Adjacent(tree, u, v) && Adjacent(tree, v, w)
    ensures Beyond(tree, v, w) < Beyond(tree, u, v)
  {
    var after, before := Beyond(tree, v, w), Beyond(tree, u, v);
    forall x | x in after
      ensures x in before
    {
      StillBeyond(tree, u, v, w, x);
    }
    assert v in before by {
      if tree[u] == v && u > 0 && Under(tree, u, v) { UnderLess(tree, u, v); }
    }
    assert v !in after by {
      if w > 0 && tree[w] == v && Under(tree, w, v) { UnderLess(tree, w, v); }
    }
  }

  lemma StillBeyond(tree: seq<nat>, u: nat, v: nat, w: nat, x: nat)
    requires Tree(tree) && u < |tree| && v < |tree| && w < |tree| && u != w
    requires Adjacent(tree, u, v) && Adjacent(tree, v, w) && x in Beyond(tree, v, w)
    ensures x in Beyond(tree, u, v)
  {
    if w > 0 && tree[w] == v {
      if v > 0 && tree[v] == u {
        UnderTrans(tree, v, w, x);
      } else if Under(tree, u, x) {
        if u < w {
          UnderBoth(tree, u, w, x);
          UnderLess(tree, u, v);
        } else {
          UnderBoth(tree, w, u, x);
          UnderLess(tree, w, v);
        }
      }
    } else if Under(tree, u, x) {
      UnderTrans(tree, v, u, x);
    }
  }

  /** A request that is sent on moves away from where it came from: the part of the tree still before it
      gets strictly smaller. */
  lemma ForwardedAway(s: State, i: nat)
    requires Reachable(s) && Enabled(s, Forward(i))
    ensures Tree(s.tree) && s.nodes[i].receiver.m.source != s.nodes[i].parent.value
    ensures var p := s.nodes[i].parent.value;
            var t := Next(s, Forward(i));
            && t.nodes[p].receiver == Got(Message(i, s.nodes[i].receiver.m.originator))
            && Beyond(s.tree, i, p) < Beyond(s.tree, s.nodes[i].receiver.m.source, i)
  {
    ReachableInv(s);
    var u, p := s.nodes[i].receiver.m.source, s.nodes[i].parent.value;
    assert Adjacent(s.tree, i, u) && Adjacent(s.tree, i, p);
    assert u < |s.nodes|;
    assert Adjacent(s.tree, u, i) && EdgeCount(s.nodes[u], s.nodes[i], u, i) == 1;
    hide Inv;
    BeyondShrinks(s.tree, u, i, p);
  }

  /** The nodes that the request of o may still come to; none when it is in a slot. */
  function StillAhead(s: State, o: nat): set<nat>
    requires Tree(s.tree)
  {
    if o < |s.nodes| && s.nodes[o].at < |s.nodes| && Carries(s.nodes[s.nodes[o].at])
       && s.nodes[s.nodes[o].at].receiver.m.originator == o
    then Beyond(s.tree, s.nodes[s.nodes[o].at].receiver.m.source, s.nodes[o].at) else {}
  }

  predicate SendsOn(s: State, a: Action, o: nat) {
    Enabled(s, a) && a.Forward? && s.nodes[a.i].receiver.m.originator == o
  }

  /** How often the request of o is sent on in a run. */
  function TimesSentOn(s: State, run: seq<Action>, o: nat): nat
    decreases |run|
  {
    if run == [] then 0 else
      TimesSentOn(s, run[..|run| - 1], o) + One(SendsOn(Exec(s, run[..|run| - 1]), run[|run| - 1], o))
  }

  lemma SentOnShrinks(s: State, a: Action, o: nat)
    requires Inv(s) && SendsOn(s, a, o)
    ensures StillAhead(Next(s, a), o) < StillAhead(s, o)
  {
    var i, u, p := a.i, s.nodes[a.i].receiver.m.source, s.nodes[a.i].parent.value;
    RequestFact(s, i, o);
    assert Adjacent(s.tree, i, u) && Adjacent(s.tree, i, p);
    assert u < |s.nodes| && Adjacent(s.tree, u, i) && EdgeCount(s.nodes[u], s.nodes[i], u, i) == 1;
    assert s.nodes[i].receiver.Forwarding? && s.nodes[i].parent == Some(p);
    ForwardEffect(s, i);
    hide Inv, Next, Enabled, NodeOk, Beyond, Adjacent;
    BeyondShrinks(s.tree, u, i, p);
  }

  /** No other action brings a request that stays unserved closer to where it has been. */
  lemma OthersKeep(s: State, a: Action, o: nat)
    requires Inv(s) && Enabled(s, a) && !SendsOn(s, a, o) && o < |s.nodes|
    requires s.nodes[o].main.Waiting? && Next(s, a).nodes[o].main.Waiting?
    ensures StillAhead(Next(s, a), o) <= StillAhead(s, o)
  {
    var k := s.nodes[o].at;
    SomewhereFact(s, o);
    RequestFact(s, k, o);
    RequestFact(s, a.i, o);
    if a.Forward? {
      ForwardEffect(s, a.i);
      RequestFact(s, a.i, s.nodes[a.i].receiver.m.originator);
    }
    hide Inv, NodeOk, Beyond;
  }

  /** While the request of o is not served, every sending on uses up part of the tree. */
  lemma {:induction false} SentOnUses(s: State, run: seq<Action>, o: nat)
    requires Inv(s) && o < |s.nodes|
    requires forall m :: 0 <= m <= |run| ==> Exec(s, run[..m]).nodes[o].main.Waiting?
    ensures TimesSentOn(s, run, o) + |StillAhead(Exec(s, run), o)| <= |StillAhead(s, o)|
    decreases |run|
  {
    hide Inv, Next, Enabled, StillAhead, SendsOn;
    if run != [] {
      var n := |run| - 1;
      var before, a := Exec(s, run[..n]), run[n];
      forall m | 0 <= m <= n
        ensures Exec(s, run[..n][..m]).nodes[o].main.Waiting?
      {
        assert run[..n][..m] == run[..m];
      }
      SentOnUses(s, run[..n], o);
      ExecInv(s, run[..n]);
      assert run[..|run|] == run;
      assert before.nodes[o].main.Waiting? && Exec(s, run).nodes[o].main.Waiting?;
      SentOnOnce(before, a, o);
    }
  }

  lemma SentOnOnce(s: State, a: Action, o: nat)
    requires Inv(s) && o < |s.nodes| && s.nodes[o].main.Waiting?
    requires Enabled(s, a) ==> Next(s, a).nodes[o].main.Waiting?
    ensures var t := if Enabled(s, a) then Next(s, a) else s;
            One(SendsOn(s, a, o)) + |StillAhead(t, o)| <= |StillAhead(s, o)|
  {
    if SendsOn(s, a, o) {
      SentOnShrinks(s, a, o);
      Smaller(StillAhead(Next(s, a), o), StillAhead(s, o));
    } else if Enabled(s, a) {
      OthersKeep(s, a, o);
      Smaller(StillAhead(Next(s, a), o), StillAhead(s, o));
    }
    hide Inv, Next, Enabled, StillAhead;
  }

  lemma {:induction false} Smaller(p: set<nat>, q: set<nat>)
    requires p <= q
    ensures |p| <= |q| && (p < q ==> |p| < |q|)
    decreases p
  {
    if x :| x in p {
      Smaller(p - {x}, q - {x});
    }
  }

  lemma {:induction false} Below(n: nat, p: set<nat>)
    requires forall x :: x in p ==> x < n
    ensures |p| <= n
    decreases n
  {
    if n > 0 {
      Below(n - 1, p - {n - 1});
    } else {
      assert p == {};
    }
  }

  lemma BeyondSize(tree: seq<nat>, u: nat, v: nat)
    requires Tree(tree) && u < |tree| && v < |tree| && Adjacent(tree, u, v)
    ensures |Beyond(tree, u, v)| < |tree|
  {
    var b := Beyond(tree, u, v);
    assert u !in b by {
      if 0 < v && tree[v] == u && Under(tree, v, u) { UnderLess(tree, v, u); }
    }
    Below(|tree|, b + {u});
    hide Beyond;
    assert |b + {u}| == |b| + 1;
  }

  /** Over any run in which it is not served, a request is sent on fewer times than there are nodes. */
  lemma SentOnFewTimes(s: State, run: seq<Action>, o: nat)
    requires Reachable(s) && o < |s.nodes|
    requires forall m :: 0 <= m <= |run| ==> Exec(s, run[..m]).nodes[o].main.Waiting?
    ensures TimesSentOn(s, run, o) < |s.nodes|
  {
    ReachableInv(s);
    SentOnUses(s, run, o);
    var k := s.nodes[o].at;
    if StillAhead(s, o) != {} {
      var u := s.nodes[k].receiver.m.source;
      assert Adjacent(s.tree, k, u) && Adjacent(s.tree, u, k);
      hide Beyond;
      BeyondSize(s.tree, u, k);
    }
    hide TimesSentOn, Exec;
  }

  // ---- the program ----

  /** One node of the program: the variables its closures share, and where its two goroutines are. */
  class Process {
    const id: nat
    var parent: Option
    var holding: bool
    var deferred: Option
    var main: Main
    var receiver: Receiver
    var todo: nat
    ghost var at: nat

    ghost function View(): Node
      reads this
    {
      Node(parent, holding, deferred, main, receiver, todo, at)
    }

    constructor (id: nat, counts: nat)
      ensures this.id == id
      ensures View() == Node(if id == 0 then None else Some(0), id == 0, None, Ready, Listening, counts, 0)
      ensures NodeOk(View())
    {
      this.id := id;
      if id == 0 {
        holding, parent := true, None;
      } else {
        holding, parent := false, Some(0);
      }
      deferred, main, receiver, todo, at := None, Ready, Listening, counts, 0;
    }

    /** `lock`, up to the first channel operation. */
    method Lock()
      requires main.Ready? && MutexFree(View())
      modifies this
      ensures View() == TryLock(old(View()))
      ensures old(NodeOk(View())) ==> NodeOk(View())
    {
      if holding {
        holding := false;
        main := Critical;
      } else {
        main := Asking;
      }
    }

    /** The receiver has a message and the mutex. */
    method Receive()
      requires receiver.Got? && MutexFree(View())
      modifies this
      ensures View() == Handle(old(View()))
      ensures old(NodeOk(View())) ==> NodeOk(View())
    {
      var m := receiver.m;
      if parent == None {
        if holding {
          receiver := Passing(m);
        } else {
          deferred := Some(m.originator);
          parent := Some(m.source);
          receiver := Listening;
        }
      } else {
        receiver := Forwarding(m);
      }
    }

    /** `unlock`, up to its channel operation. */
    method Unlock()
      requires main.Critical? && MutexFree(View())
      modifies this
      ensures View() == TryUnlock(old(View()))
      ensures old(NodeOk(View())) ==> NodeOk(View())
    {
      if deferred != None {
        main := Granting;
      } else {
        holding := true;
        main := Ready;
      }
      todo := if todo > 0 then todo - 1 else 0;
    }

    /** The node's own request goes to its parent. */
    method Ask(p: Process)
      requires p != this && main.Asking? && parent == Some(p.id) && p.receiver.Listening?
      modifies this`parent, this`main, this`at, p`receiver
      ensures View() == Asked(old(View()), p.id)
      ensures p.View() == old(p.View()).(receiver := Got(Message(id, id)))
    {
      p.receiver := Got(Message(id, id));
      parent, main, at := None, Waiting, p.id;
    }

    /** The request of another goes on to the parent, and the pointer is reversed; `o` is the originator. */
    method Forward(p: Process, o: Process)
      requires p != this && o != this && receiver.Forwarding? && parent == Some(p.id) && p.receiver.Listening?
      requires receiver.m.originator == o.id
      modifies this`parent, this`receiver, p`receiver, o`at
      ensures View() == Forwarded(old(View()))
      ensures o != p ==> p.View() == old(p.View()).(receiver := Got(Message(id, o.id)))
      ensures o != p ==> o.View() == old(o.View()).(at := p.id)
      ensures o == p ==> o.View() == old(o.View()).(receiver := Got(Message(id, o.id)), at := p.id)
    {
      p.receiver := Got(Message(id, receiver.m.originator));
      parent, receiver, o.at := Some(receiver.m.source), Listening, p.id;
    }

    /** The token goes straight to the originator of a request, */
    method Pass(o: Process)
      requires o != this && receiver.Passing? && receiver.m.originator == o.id && o.main.Waiting?
      modifies this`holding, this`parent, this`receiver, o`main
      ensures View() == Passed(old(View())) && o.View() == old(o.View()).(main := Critical)
    {
      o.main := Critical;
      holding := false;
      parent, receiver := Some(receiver.m.source), Listening;
    }

    /** or, from `unlock`, to the deferred node. */
    method Grant(o: Process)
      requires o != this && main.Granting? && deferred == Some(o.id) && o.main.Waiting?
      modifies this`deferred, this`main, o`main
      ensures View() == Granted(old(View())) && o.View() == old(o.View()).(main := Critical)
    {
      o.main := Critical;
      deferred, main := None, Ready;
    }
  }

  lemma ReachableNext(s: State, a: Action)
    requires Reachable(s) && Enabled(s, a)
    ensures Reachable(Next(s, a))
  {
    hide Initial, Enabled, Next;
    var s0: State, run: seq<Action> :| Initial(s0) && s == Exec(s0, run);
    assert (run + [a])[..|run + [a]| - 1] == run;
    assert Next(s, a) == Exec(s0, run + [a]);
  }

  lemma InitialReachable(s: State)
    requires Initial(s)
    ensures Reachable(s)
  {
    assert s == Exec(s, []);
  }

  /** The actions of one node alone. */
  predicate Alone(a: Action) {
    a.Lock? || a.Receive? || a.Unlock?
  }

  /** A node at its start. */
  function Begun(i: nat, counts: nat): Node {
    Node(if i == 0 then None else Some(0), i == 0, None, Ready, Listening, counts, 0)
  }

  /** The nodes are started. */
  method Start(n: nat, counts: nat) returns (ps: seq<Process>)
    ensures |ps| == n && fresh(ps)
    ensures forall k :: 0 <= k < n ==> ps[k].id == k && ps[k].View() == Begun(k, counts)
  {
    ps := [];
    for i := 0 to n
      invariant |ps| == i && fresh(ps)
      invariant forall k :: 0 <= k < i ==> ps[k].id == k && ps[k].View() == Begun(k, counts)
    {
      var p := new Process(i, counts);
      ps := ps + [p];
    }
  }

  /** Who has the request of the node that is being forwarded, or sent the token. */
  lemma Originator(s: State, i: nat)
    requires Reachable(s) && i < |s.nodes| && Carries(s.nodes[i])
    ensures var o := s.nodes[i].receiver.m.originator;
            o < |s.nodes| && s.nodes[o].main.Waiting? && (s.nodes[i].receiver.Forwarding? ==> o != i)
  {
    ReachableInv(s);
    RequestFact(s, i, s.nodes[i].receiver.m.originator);
  }

  /** The nodes of the program, in their objects. Whatever has been proved of reachable states holds of them. */
  class System {
    const procs: seq<Process>
    ghost const tree: seq<nat>
    ghost var token: nat

    ghost function Nodes(): (ns: seq<Node>)
      reads procs
      ensures |ns| == |procs| && forall i :: 0 <= i < |procs| ==> ns[i] == procs[i].View()
    {
      seq(|procs|, i requires 0 <= i < |procs| reads procs => procs[i].View())
    }

    ghost function Abs(): State
      reads this, procs
    {
      State(tree, Nodes(), token)
    }

    ghost predicate Valid()
      reads this, procs
    {
      (forall i :: 0 <= i < |procs| ==> procs[i].id == i && (procs[i] as object) != this) && Reachable(Abs())
    }

    /** The tree is a star with node 0 at its centre. */
    constructor (n: nat, counts: nat)
      requires n > 0
      ensures Valid() && Initial(Abs()) && |procs| == n && fresh(procs)
      ensures |tree| == n && forall x :: 0 < x < n ==> tree[x] == 0
      ensures forall i :: 0 <= i < n ==> Abs().nodes[i].todo == counts
    {
      var ps := Start(n, counts);
      procs, tree, token := ps, seq(n, _ => 0), 0;
      new;
      InitialReachable(Abs());
      hide Reachable;
    }

    /** One action of one node, or of two or three at a rendezvous. */
    method Step(a: Action)
      requires Valid() && Enabled(Abs(), a)
      modifies this, procs
      ensures Valid() && Abs() == Next(old(Abs()), a)
    {
      ghost var s := Abs();
      ReachableNext(s, a);
      hide Reachable, Next, Enabled;
      match a {
        case Ask(i) => Ask(i);
        case Forward(i) => Forward(i);
        case Pass(i) => Pass(i);
        case Grant(i) => Grant(i);
        case _ => Section(a);
      }
    }

    /** A section under the mutex. */
    method Section(a: Action)
      requires Valid() && Enabled(Abs(), a) && Alone(a)
      modifies procs[a.i]
      ensures Abs() == Next(old(Abs()), a)
    {
      ghost var s := Abs();
      var p := procs[a.i];
      hide NodeOk, Reachable;
      match a {
        case Lock(_) => p.Lock();
        case Receive(_) => p.Receive();
        case Unlock(_) => p.Unlock();
      }
      assert Nodes() == Next(s, a).nodes;
    }

    method Ask(i: nat)
      requires Valid() && Enabled(Abs(), Action.Ask(i))
      modifies procs
      ensures Abs() == Next(old(Abs()), Action.Ask(i))
    {
      ghost var s := Abs();
      hide Reachable;
      var k := procs[i].parent.value;
      procs[i].Ask(procs[k]);
      assert Nodes() == Next(s, Action.Ask(i)).nodes;
    }

    method Forward(i: nat)
      requires Valid() && Enabled(Abs(), Action.Forward(i))
      modifies procs
      ensures Abs() == Next(old(Abs()), Action.Forward(i))
    {
      ghost var s := Abs();
      Originator(s, i);
      hide Reachable;
      var k, o := procs[i].parent.value, procs[i].receiver.m.originator;
      procs[i].Forward(procs[k], procs[o]);
      assert Nodes() == Next(s, Action.Forward(i)).nodes;
    }

    method Pass(i: nat)
      requires Valid() && Enabled(Abs(), Action.Pass(i))
      modifies this, procs
      ensures Abs() == Next(old(Abs()), Action.Pass(i))
    {
      ghost var s := Abs();
      hide Reachable;
      var o := procs[i].receiver.m.originator;
      procs[i].Pass(procs[o]);
      token := o;
      assert Nodes() == Next(s, Action.Pass(i)).nodes;
    }

    method Grant(i: nat)
      requires Valid() && Enabled(Abs(), Action.Grant(i))
      modifies this, procs
      ensures Abs() == Next(old(Abs()), Action.Grant(i))
    {
      ghost var s := Abs();
      hide Reachable;
      var o := procs[i].deferred.value;
      procs[i].Grant(procs[o]);
      token := o;
      assert Nodes() == Next(s, Action.Grant(i)).nodes;
    }
  }
}
