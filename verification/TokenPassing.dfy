/** The token-passing Ricart-Agrawala algorithm (channels/distributed/mutex_token_passing.go), for any number
    of nodes over unbuffered channels. A step is a rendezvous, a section under the node's mutex, or one
    comparison of the scan in `sendToken`, whose array the receiver may be writing at the same time. */
module TokenPassing {

  datatype Message = Message(source: nat, number: nat)

  /** GotToken: the reply has arrived, `haveToken` is not yet set. Scan and Give are inside `unlock`, with the
      mutex held: about to compare entry k, about to send the token. */
  datatype Main = Ready | Sending(k: nat) | Waiting | GotToken | Critical | Scan(k: nat) | Give(to: nat)

  /** Stored: the request is noted, the mutex not yet taken. */
  datatype Receiver = Listening | Got(m: Message) | Stored | RScan(k: nat) | RGive(to: nat)

  datatype Node = Node(requested: seq<nat>, granted: seq<nat>, myNumber: nat, inCS: bool, haveToken: bool,
                       main: Main, receiver: Receiver, todo: nat)

  /** `token` records where the token is. */
  datatype State = State(nodes: seq<Node>, token: nat)

  datatype Action =
    | Lock(i: nat) | Skip(i: nat) | Send(i: nat) | AllSent(i: nat) | Take(i: nat) | Leave(i: nat)
    | Compare(i: nat) | Pass(i: nat) | Store(i: nat) | Check(i: nat) | RCompare(i: nat) | RPass(i: nat)

  predicate MutexFree(n: Node) {
    !n.main.Scan? && !n.main.Give? && !n.receiver.RScan? && !n.receiver.RGive?
  }

  predicate IsWaiting(s: State, j: nat) {
    j < |s.nodes| && s.nodes[j].main.Waiting?
  }

  predicate Sized(n: Node, nodes: nat) {
    |n.requested| == nodes && |n.granted| == nodes
  }

  predicate Shape(s: State) {
    forall i :: 0 <= i < |s.nodes| ==> Sized(s.nodes[i], |s.nodes|)
  }

  predicate Enabled(s: State, a: Action) {
    && a.i < |s.nodes| && Sized(s.nodes[a.i], |s.nodes|)
    && var n := s.nodes[a.i];
       match a
       case Lock(_) => n.main.Ready? && n.todo > 0 && MutexFree(n)
       case Skip(i) => n.main == Sending(i)
       case Send(i) => n.main.Sending? && n.main.k != i && n.main.k < |s.nodes| && s.nodes[n.main.k].receiver.Listening?
       case AllSent(_) => n.main.Sending? && n.main.k >= |s.nodes|
       case Take(_) => n.main.GotToken? && MutexFree(n)
       case Leave(_) => n.main.Critical? && MutexFree(n)
       case Compare(_) => n.main.Scan?
       case Pass(i) => n.main.Give? && n.main.to != i && IsWaiting(s, n.main.to)
       case Store(_) => n.receiver.Got? && n.receiver.m.source < |s.nodes|
       case Check(_) => n.receiver.Stored? && MutexFree(n)
       case RCompare(_) => n.receiver.RScan?
       case RPass(i) => n.receiver.RGive? && n.receiver.to != i && IsWaiting(s, n.receiver.to)
  }

  // ---- the sections ----

  function TryLock(n: Node): Node {
    if n.haveToken then n.(inCS := true, main := Critical)
    else n.(myNumber := n.myNumber + 1, main := Sending(0))
  }

  function Taken(n: Node): Node {
    n.(haveToken := true, inCS := true, main := Critical)
  }

  function Left(n: Node, i: nat): Node
    requires i < |n.granted|
  {
    n.(granted := n.granted[i := n.myNumber], inCS := false, main := Scan(0))
  }

  function Round(n: Node): Node {
    n.(main := Ready, todo := if n.todo > 0 then n.todo - 1 else 0)
  }

  /** One turn of the loop of `sendToken`, called from `unlock`. */
  function Compared(n: Node): Node
    requires n.main.Scan? && |n.requested| == |n.granted|
  {
    var k := n.main.k;
    if k >= |n.granted| then Round(n)
    else if n.requested[k] > n.granted[k] then n.(main := Give(k))
    else n.(main := Scan(k + 1))
  }

  /** The same called from the receiver. */
  function RCompared(n: Node): Node
    requires n.receiver.RScan? && |n.requested| == |n.granted|
  {
    var k := n.receiver.k;
    if k >= |n.granted| then n.(receiver := Listening)
    else if n.requested[k] > n.granted[k] then n.(receiver := RGive(k))
    else n.(receiver := RScan(k + 1))
  }

  function Noted(n: Node): Node
    requires n.receiver.Got? && n.receiver.m.source < |n.requested|
  {
    var m := n.receiver.m;
    n.(requested := if m.number > n.requested[m.source] then n.requested[m.source := m.number] else n.requested,
       receiver := Stored)
  }

  function Checked(n: Node): Node {
    n.(receiver := if n.haveToken && !n.inCS then RScan(0) else Listening)
  }

  function Arrived(n: Node, granted: seq<nat>): Node {
    n.(granted := granted, main := GotToken)
  }

  function Next(s: State, a: Action): (t: State)
    requires Enabled(s, a)
    ensures |t.nodes| == |s.nodes|
  {
    var i := a.i;
    var n := s.nodes[i];
    match a
    case Lock(_) => s.(nodes := s.nodes[i := TryLock(n)])
    case Skip(_) => s.(nodes := s.nodes[i := n.(main := Sending(n.main.k + 1))])
    case Send(_) =>
      var k := n.main.k;
      s.(nodes := s.nodes[i := n.(main := Sending(k + 1))][k := s.nodes[k].(receiver := Got(Message(i, n.myNumber)))])
    case AllSent(_) => s.(nodes := s.nodes[i := n.(main := Waiting)])
    case Take(_) => s.(nodes := s.nodes[i := Taken(n)])
    case Leave(_) => s.(nodes := s.nodes[i := Left(n, i)])
    case Compare(_) => s.(nodes := s.nodes[i := Compared(n)])
    case Pass(_) =>
      var j := n.main.to;
      State(s.nodes[i := Round(n.(haveToken := false))][j := Arrived(s.nodes[j], n.granted)], j)
    case Store(_) => s.(nodes := s.nodes[i := Noted(n)])
    case Check(_) => s.(nodes := s.nodes[i := Checked(n)])
    case RCompare(_) => s.(nodes := s.nodes[i := RCompared(n)])
    case RPass(_) =>
      var j := n.receiver.to;
      State(s.nodes[i := n.(haveToken := false, receiver := Listening)][j := Arrived(s.nodes[j], n.granted)], j)
  }

  predicate Initial(s: State) {
    && |s.nodes| > 0 && s.token == 0
    && forall i {:trigger s.nodes[i]} :: 0 <= i < |s.nodes| ==>
         && Sized(s.nodes[i], |s.nodes|)
         && (forall j :: 0 <= j < |s.nodes| ==> s.nodes[i].requested[j] == 0 && s.nodes[i].granted[j] == 0)
         && s.nodes[i].myNumber == 0 && !s.nodes[i].inCS && s.nodes[i].haveToken == (i == 0)
         && s.nodes[i].main == Ready && s.nodes[i].receiver == Listening
  }

  // ---- the invariant ----

  predicate HasToken(n: Node) {
    n.haveToken || n.main.GotToken?
  }

  predicate Requesting(n: Node) {
    n.main.Sending? || n.main.Waiting?
  }

  ghost predicate NodeOk(n: Node, i: nat, nodes: nat) {
    && Sized(n, nodes) && i < nodes && n.requested[i] == 0
    && (n.inCS <==> n.main.Critical?)
    && (Requesting(n) || n.main.GotToken? ==> !n.haveToken)
    && (n.main.Critical? || n.main.Scan? || n.main.Give? ==> n.haveToken)
    && (n.receiver.RScan? || n.receiver.RGive? ==> n.haveToken && n.main.Ready?)
    && (n.main.Sending? ==> n.main.k <= nodes)
    && (n.receiver.Got? ==> n.receiver.m.source < nodes && n.receiver.m.source != i)
    && (n.main.Give? ==> n.main.to < nodes && n.main.to != i && n.requested[n.main.to] > n.granted[n.main.to])
    && (n.receiver.RGive? ==>
        n.receiver.to < nodes && n.receiver.to != i && n.requested[n.receiver.to] > n.granted[n.receiver.to])
    && NoneMissed(n)
  }

  /** An idle token holder has looked at every request it has noted, or is about to look. */
  ghost predicate NoneMissed(n: Node)
    requires |n.requested| == |n.granted|
  {
    && (n.haveToken && n.main.Ready? && !n.receiver.RScan? && !n.receiver.RGive? && !n.receiver.Stored? ==>
          forall j :: 0 <= j < |n.granted| ==> n.requested[j] <= n.granted[j])
    && (n.main.Scan? && !n.receiver.Stored? ==>
          forall j :: 0 <= j < n.main.k && j < |n.granted| ==> n.requested[j] <= n.granted[j])
    && (n.receiver.RScan? ==>
          forall j :: 0 <= j < n.receiver.k && j < |n.granted| ==> n.requested[j] <= n.granted[j])
  }

  ghost predicate NodesOk(s: State) {
    forall i :: 0 <= i < |s.nodes| ==> NodeOk(s.nodes[i], i, |s.nodes|)
  }

  ghost predicate TokenOk(s: State) {
    && s.token < |s.nodes|
    && forall i :: 0 <= i < |s.nodes| ==> (HasToken(s.nodes[i]) <==> i == s.token)
  }

  /** What a node's number has to do with its entry g in the array that travels with the token. */
  predicate CountNode(n: Node, g: nat, holder: bool) {
    if !holder then n.myNumber == g + (if Requesting(n) then 1 else 0)
    else if n.main.GotToken? || n.main.Critical? then g <= n.myNumber <= g + 1
    else n.myNumber == g
  }

  ghost predicate CountsOk(s: State)
    requires s.token < |s.nodes| && Sized(s.nodes[s.token], |s.nodes|)
  {
    forall j :: 0 <= j < |s.nodes| ==> CountNode(s.nodes[j], s.nodes[s.token].granted[j], j == s.token)
  }

  /** Node h never knows more than there is; it knows the current request of j just when that has been sent to it. */
  ghost predicate KnowsOk(nh: Node, nj: Node, h: nat, j: nat)
    requires j < |nh.requested|
  {
    && nh.requested[j] <= nj.myNumber
    && (nh.receiver.Got? && nh.receiver.m.source == j ==> nh.receiver.m.number <= nj.myNumber)
    && (nj.main.Waiting? || (nj.main.Sending? && nj.main.k > h) ==>
          nh.requested[j] == nj.myNumber || nh.receiver == Got(Message(j, nj.myNumber)))
    && (nj.main.Sending? && nj.main.k <= h ==>
          nh.requested[j] < nj.myNumber && nh.receiver != Got(Message(j, nj.myNumber)))
  }

  ghost predicate KnownOk(s: State)
    requires Shape(s)
  {
    forall h, j :: 0 <= h < |s.nodes| && 0 <= j < |s.nodes| && h != j ==> KnowsOk(s.nodes[h], s.nodes[j], h, j)
  }

  ghost predicate Inv(s: State) {
    && Shape(s) && NodesOk(s) && TokenOk(s) && CountsOk(s) && KnownOk(s)
  }

  lemma InitialInv(s: State)
    requires Initial(s)
    ensures Inv(s)
  {
  }

  lemma LockNode(n: Node, i: nat, nodes: nat)
    requires NodeOk(n, i, nodes) && n.main.Ready? && MutexFree(n)
    ensures NodeOk(TryLock(n), i, nodes)
  {
  }

  lemma TakenNode(n: Node, i: nat, nodes: nat)
    requires NodeOk(n, i, nodes) && n.main.GotToken? && MutexFree(n)
    ensures NodeOk(Taken(n), i, nodes)
  {
  }

  lemma LeftNode(n: Node, i: nat, nodes: nat)
    requires NodeOk(n, i, nodes) && n.main.Critical? && MutexFree(n)
    ensures NodeOk(Left(n, i), i, nodes)
  {
  }

  lemma ComparedNode(n: Node, i: nat, nodes: nat)
    requires NodeOk(n, i, nodes) && n.main.Scan?
    ensures NodeOk(Compared(n), i, nodes)
  {
  }

  lemma RComparedNode(n: Node, i: nat, nodes: nat)
    requires NodeOk(n, i, nodes) && n.receiver.RScan?
    ensures NodeOk(RCompared(n), i, nodes)
  {
  }

  lemma NotedNode(n: Node, i: nat, nodes: nat)
    requires NodeOk(n, i, nodes) && n.receiver.Got?
    ensures NodeOk(Noted(n), i, nodes)
  {
  }

  lemma CheckedNode(n: Node, i: nat, nodes: nat)
    requires NodeOk(n, i, nodes) && n.receiver.Stored? && MutexFree(n)
    ensures NodeOk(Checked(n), i, nodes)
  {
  }

  lemma SentNode(n: Node, i: nat, nodes: nat, main: Main)
    requires NodeOk(n, i, nodes) && n.main.Sending? && (main.Waiting? || (main.Sending? && main.k <= nodes))
    ensures NodeOk(n.(main := main), i, nodes)
  {
  }

  lemma GotNode(n: Node, i: nat, nodes: nat, m: Message)
    requires NodeOk(n, i, nodes) && n.receiver.Listening? && m.source < nodes && m.source != i
    ensures NodeOk(n.(receiver := Got(m)), i, nodes)
  {
  }

  lemma GoneNode(n: Node, i: nat, nodes: nat)
    requires NodeOk(n, i, nodes)
    ensures n.main.Give? ==> NodeOk(Round(n.(haveToken := false)), i, nodes)
    ensures n.receiver.RGive? ==> NodeOk(n.(haveToken := false, receiver := Listening), i, nodes)
  {
  }

  lemma ArrivedNode(n: Node, i: nat, nodes: nat, granted: seq<nat>)
    requires NodeOk(n, i, nodes) && n.main.Waiting? && |granted| == nodes
    ensures NodeOk(Arrived(n, granted), i, nodes)
  {
  }

  // ---- one node among the others ----

  /** What node n and node m know of each other. */
  ghost predicate Both(n: Node, m: Node, i: nat, x: nat)
    requires x < |n.requested| && i < |m.requested|
  {
    KnowsOk(n, m, i, x) && KnowsOk(m, n, x, i)
  }

  /** Changing one node. */
  lemma OneNode(s: State, i: nat, n: Node)
    requires Shape(s) && NodesOk(s) && KnownOk(s) && i < |s.nodes| && NodeOk(n, i, |s.nodes|)
    requires forall x :: 0 <= x < |s.nodes| && x != i ==> Both(n, s.nodes[x], i, x)
    ensures var t := s.(nodes := s.nodes[i := n]); Shape(t) && NodesOk(t) && KnownOk(t)
  {
    hide KnowsOk;
    var t := s.(nodes := s.nodes[i := n]);
    assert Shape(t) && NodesOk(t) by { hide KnownOk, Both; }
    assert KnownOk(t) by { hide NodeOk, NodesOk; }
  }

  lemma OneHolder(s: State, i: nat, n: Node)
    requires Shape(s) && TokenOk(s) && CountsOk(s) && i < |s.nodes| && Sized(n, |s.nodes|)
    requires HasToken(n) == HasToken(s.nodes[i])
    requires forall x :: 0 <= x < |s.nodes| && x != i ==> n.granted[x] == s.nodes[i].granted[x]
    requires CountNode(n, if i == s.token then n.granted[i] else s.nodes[s.token].granted[i], i == s.token)
    ensures var t := s.(nodes := s.nodes[i := n]); Shape(t) && TokenOk(t) && CountsOk(t)
  {
  }

  /** Nothing in n that others know of differs in p. */
  predicate Alike(n: Node, p: Node) {
    && p.requested == n.requested && p.myNumber == n.myNumber
    && (p.receiver == n.receiver || (!p.receiver.Got? && !n.receiver.Got?))
    && (p.main == n.main || !Requesting(p))
  }

  lemma AlikePair(n: Node, p: Node, m: Node, i: nat, x: nat)
    requires x < |n.requested| && i < |m.requested| && Both(n, m, i, x) && Alike(n, p)
    ensures Both(p, m, i, x)
  {
  }

  /** What an action that is no rendezvous makes of its node. */
  function Local(s: State, a: Action): (p: Node)
    requires Enabled(s, a) && !a.Send? && !a.Pass? && !a.RPass?
  {
    Next(s, a).nodes[a.i]
  }

  lemma LocalNode(s: State, a: Action)
    requires Enabled(s, a) && !a.Send? && !a.Pass? && !a.RPass? && NodeOk(s.nodes[a.i], a.i, |s.nodes|)
    ensures NodeOk(Local(s, a), a.i, |s.nodes|)
    ensures Next(s, a) == s.(nodes := s.nodes[a.i := Local(s, a)])
  {
    hide NodeOk;
    var i, n := a.i, s.nodes[a.i];
    match a
    case Lock(_) => LockNode(n, i, |s.nodes|);
    case Skip(_) => SentNode(n, i, |s.nodes|, Sending(n.main.k + 1));
    case AllSent(_) => SentNode(n, i, |s.nodes|, Waiting);
    case Take(_) => TakenNode(n, i, |s.nodes|);
    case Leave(_) => LeftNode(n, i, |s.nodes|);
    case Compare(_) => ComparedNode(n, i, |s.nodes|);
    case Store(_) => NotedNode(n, i, |s.nodes|);
    case Check(_) => CheckedNode(n, i, |s.nodes|);
    case RCompare(_) => RComparedNode(n, i, |s.nodes|);
  }

  lemma LocalPair(s: State, a: Action, m: Node, x: nat)
    requires Enabled(s, a) && !a.Send? && !a.Pass? && !a.RPass?
    requires x < |s.nodes| && x != a.i && Sized(m, |s.nodes|)
    requires NodeOk(s.nodes[a.i], a.i, |s.nodes|) && Both(s.nodes[a.i], m, a.i, x)
    ensures |Local(s, a).requested| == |s.nodes| && Both(Local(s, a), m, a.i, x)
  {
    var n := s.nodes[a.i];
    if a.Take? || a.Leave? || a.Compare? || a.Check? || a.RCompare? {
      AlikePair(n, Local(s, a), m, a.i, x);
    }
  }

  lemma LocalCount(s: State, a: Action)
    requires Enabled(s, a) && !a.Send? && !a.Pass? && !a.RPass?
    requires NodeOk(s.nodes[a.i], a.i, |s.nodes|)
    requires Shape(s) && TokenOk(s) && CountsOk(s)
    ensures Sized(Local(s, a), |s.nodes|)
    ensures HasToken(Local(s, a)) == HasToken(s.nodes[a.i])
    ensures forall x :: 0 <= x < |s.nodes| && x != a.i ==> Local(s, a).granted[x] == s.nodes[a.i].granted[x]
    ensures CountNode(Local(s, a), if a.i == s.token then Local(s, a).granted[a.i]
                      else s.nodes[s.token].granted[a.i], a.i == s.token)
  {
    hide NoneMissed;
    assert CountNode(s.nodes[a.i], s.nodes[s.token].granted[a.i], a.i == s.token);
  }

  lemma LocalInv(s: State, a: Action)
    requires Inv(s) && Enabled(s, a) && !a.Send? && !a.Pass? && !a.RPass?
    ensures Inv(Next(s, a))
  {
    assert NodeOk(s.nodes[a.i], a.i, |s.nodes|);
    hide NodeOk, Next, Enabled, Local;
    LocalNode(s, a);
    LocalCount(s, a);
    forall x | 0 <= x < |s.nodes| && x != a.i ensures Both(Local(s, a), s.nodes[x], a.i, x) {
      assert KnowsOk(s.nodes[a.i], s.nodes[x], a.i, x) && KnowsOk(s.nodes[x], s.nodes[a.i], x, a.i);
      hide KnowsOk;
      LocalPair(s, a, s.nodes[x], x);
    }
    hide Both, KnowsOk, NodesOk, KnownOk, TokenOk, CountsOk;
    OneNode(s, a.i, Local(s, a));
    OneHolder(s, a.i, Local(s, a));
  }

  // ---- rendezvous ----

  lemma TwoNodes(s: State, i: nat, n: Node, k: nat, m: Node, token: nat)
    requires Shape(s) && NodesOk(s) && KnownOk(s) && i < |s.nodes| && k < |s.nodes| && i != k
    requires NodeOk(n, i, |s.nodes|) && NodeOk(m, k, |s.nodes|) && Both(n, m, i, k)
    requires forall x :: 0 <= x < |s.nodes| && x != i && x != k ==>
             Both(n, s.nodes[x], i, x) && Both(m, s.nodes[x], k, x)
    ensures var t := State(s.nodes[i := n][k := m], token); Shape(t) && NodesOk(t) && KnownOk(t)
  {
    hide KnowsOk;
    var t := State(s.nodes[i := n][k := m], token);
    assert Shape(t) && NodesOk(t) by { hide KnownOk, Both; }
    assert KnownOk(t) by { hide NodeOk, NodesOk; }
  }

  lemma SendKnown(s: State, i: nat)
    requires Inv(s) && Enabled(s, Send(i))
    ensures var t := Next(s, Send(i)); Shape(t) && NodesOk(t) && KnownOk(t)
  {
    var n := s.nodes[i];
    var k := n.main.k;
    var m := s.nodes[k];
    var p, q := n.(main := Sending(k + 1)), m.(receiver := Got(Message(i, n.myNumber)));
    SentNode(n, i, |s.nodes|, Sending(k + 1));
    GotNode(m, k, |s.nodes|, Message(i, n.myNumber));
    assert KnowsOk(n, m, i, k) && KnowsOk(m, n, k, i);
    assert Next(s, Send(i)) == State(s.nodes[i := p][k := q], s.token);
    hide Next, Enabled, NodeOk, TokenOk, CountsOk;
    SendPair(n, m, i, k);
    forall x | 0 <= x < |s.nodes| && x != i && x != k ensures Both(p, s.nodes[x], i, x) && Both(q, s.nodes[x], k, x) {
      assert KnowsOk(n, s.nodes[x], i, x) && KnowsOk(s.nodes[x], n, x, i);
      assert KnowsOk(m, s.nodes[x], k, x) && KnowsOk(s.nodes[x], m, x, k);
      hide KnowsOk;
      SenderPair(n, s.nodes[x], i, x);
      GetterPair(m, s.nodes[x], k, x, Message(i, n.myNumber));
    }
    hide NodeOk, NodesOk, KnownOk, TokenOk, CountsOk, KnowsOk, Both;
    TwoNodes(s, i, p, k, q, s.token);
  }

  /** The sender and the node it sends to, before and after. */
  lemma SendPair(n: Node, m: Node, i: nat, k: nat)
    requires k < |n.requested| && i < |m.requested| && i != k && KnowsOk(n, m, i, k) && KnowsOk(m, n, k, i)
    requires n.main == Sending(k) && m.receiver.Listening?
    ensures Both(n.(main := Sending(k + 1)), m.(receiver := Got(Message(i, n.myNumber))), i, k)
  {
  }

  lemma SenderPair(n: Node, o: Node, i: nat, x: nat)
    requires x < |n.requested| && i < |o.requested| && KnowsOk(n, o, i, x) && KnowsOk(o, n, x, i)
    requires n.main.Sending? && n.main.k != x
    ensures Both(n.(main := Sending(n.main.k + 1)), o, i, x)
  {
  }

  lemma GetterPair(m: Node, o: Node, k: nat, x: nat, g: Message)
    requires x < |m.requested| && k < |o.requested| && KnowsOk(m, o, k, x) && KnowsOk(o, m, x, k)
    requires m.receiver.Listening? && g.source != x
    ensures Both(m.(receiver := Got(g)), o, k, x)
  {
  }

  lemma SendCount(s: State, i: nat)
    requires Inv(s) && Enabled(s, Send(i))
    ensures var t := Next(s, Send(i)); Shape(t) && TokenOk(t) && CountsOk(t)
  {
    hide NodesOk, KnownOk;
  }

  /** The holder as it is once it has sent the token. */
  function Gone(n: Node): Node {
    if n.main.Give? then Round(n.(haveToken := false)) else n.(haveToken := false, receiver := Listening)
  }

  /** To whom the holder is about to send it. */
  function Heir(n: Node): nat
    requires n.main.Give? || n.receiver.RGive?
  {
    if n.main.Give? then n.main.to else n.receiver.to
  }

  predicate IsPass(s: State, a: Action) {
    Enabled(s, a) && (a.Pass? || a.RPass?)
  }

  lemma PassIs(s: State, a: Action)
    requires IsPass(s, a) && NodeOk(s.nodes[a.i], a.i, |s.nodes|)
    ensures var i, n := a.i, s.nodes[a.i];
      && (n.main.Give? || n.receiver.RGive?) && n.haveToken && !Requesting(n)
      && var j := Heir(n);
         && j < |s.nodes| && j != i && IsWaiting(s, j) && n.requested[j] > n.granted[j]
         && Next(s, a) == State(s.nodes[i := Gone(n)][j := Arrived(s.nodes[j], n.granted)], j)
         && NodeOk(Gone(n), i, |s.nodes|)
  {
    GoneNode(s.nodes[a.i], a.i, |s.nodes|);
  }

  lemma PassKnown(s: State, a: Action)
    requires Inv(s) && IsPass(s, a)
    ensures var t := Next(s, a); Shape(t) && NodesOk(t) && KnownOk(t)
  {
    var i, n := a.i, s.nodes[a.i];
    PassIs(s, a);
    var j := Heir(n);
    var m := s.nodes[j];
    var p, q := Gone(n), Arrived(m, n.granted);
    ArrivedNode(m, j, |s.nodes|, n.granted);
    forall x | 0 <= x < |s.nodes| && x != i ensures Both(p, s.nodes[x], i, x) {
      assert KnowsOk(n, s.nodes[x], i, x) && KnowsOk(s.nodes[x], n, x, i);
      AlikePair(n, p, s.nodes[x], i, x);
    }
    forall x | 0 <= x < |s.nodes| && x != j && x != i ensures Both(q, s.nodes[x], j, x) {
      assert KnowsOk(m, s.nodes[x], j, x) && KnowsOk(s.nodes[x], m, x, j);
      AlikePair(m, q, s.nodes[x], j, x);
    }
    AlikePair(m, q, p, j, i);
    hide NodeOk, NodesOk, KnownOk, TokenOk, CountsOk, KnowsOk;
    TwoNodes(s, i, p, j, q, j);
  }

  lemma PassCount(s: State, a: Action)
    requires Inv(s) && IsPass(s, a)
    ensures var t := Next(s, a); Shape(t) && TokenOk(t) && CountsOk(t)
  {
    PassIs(s, a);
    hide Next, Enabled, NodesOk, KnownOk;
    var i, n := a.i, s.nodes[a.i];
    var j := Heir(n);
    var t := Next(s, a);
    assert HasToken(n) && i == s.token;
    assert CountNode(n, n.granted[i], true) && CountNode(s.nodes[j], n.granted[j], false);
    forall x | 0 <= x < |t.nodes| ensures CountNode(t.nodes[x], t.nodes[t.token].granted[x], x == t.token) {
      assert CountNode(s.nodes[x], n.granted[x], x == i);
    }
  }

  lemma NextInv(s: State, a: Action)
    requires Inv(s) && Enabled(s, a)
    ensures Inv(Next(s, a))
  {
    hide Next, Shape, NodesOk, TokenOk, CountsOk, KnownOk;
    match a
    case Send(i) => SendKnown(s, i); SendCount(s, i);
    case Pass(_) => PassKnown(s, a); PassCount(s, a);
    case RPass(_) => PassKnown(s, a); PassCount(s, a);
    case _ => LocalInv(s, a);
  }

  // ---- runs ----

  /** Runs a list of actions; one that cannot happen is passed over. */
  function Exec(s: State, run: seq<Action>): State
    decreases |run|
  {
    if run == [] then s else
      var before := Exec(s, run[..|run| - 1]);
      if Enabled(before, run[|run| - 1]) then Next(before, run[|run| - 1]) else before
  }

  lemma {:induction false} ExecInv(s: State, run: seq<Action>)
    requires Inv(s)
    ensures Inv(Exec(s, run))
    decreases |run|
  {
    hide Inv, Enabled, Next;
    if run != [] {
      ExecInv(s, run[..|run| - 1]);
      var before := Exec(s, run[..|run| - 1]);
      if Enabled(before, run[|run| - 1]) {
        NextInv(before, run[|run| - 1]);
      }
    }
  }

  ghost predicate Reachable(s: State) {
    exists s0: State, run: seq<Action> :: Initial(s0) && s == Exec(s0, run)
  }

  lemma ReachableInv(s: State)
    requires Reachable(s)
    ensures Inv(s)
  {
    hide Inv, Initial;
    var s0: State, run: seq<Action> :| Initial(s0) && s == Exec(s0, run);
    InitialInv(s0);
    ExecInv(s0, run);
  }

  /** There is one token, at a node or just received by it; only its owner is between `lock` and `unlock`. */
  lemma OneToken(s: State)
    requires Reachable(s)
    ensures s.token < |s.nodes|
    ensures forall i :: 0 <= i < |s.nodes| ==> (HasToken(s.nodes[i]) <==> i == s.token)
    ensures forall i :: 0 <= i < |s.nodes| && s.nodes[i].main.Critical? ==> i == s.token
  {
    ReachableInv(s);
    hide KnownOk, CountsOk;
    forall i | 0 <= i < |s.nodes| ensures s.nodes[i].main.Critical? ==> HasToken(s.nodes[i]) {
      assert NodeOk(s.nodes[i], i, |s.nodes|);
    }
  }

  /** At a node with the token, the entries of j say exactly whether j's current round is known and not yet
      served: then j is in `lock`, waits with that number, and has had all its earlier rounds. */
  lemma PendingMeansWaiting(s: State, h: nat, j: nat)
    requires Reachable(s) && h < |s.nodes| && j < |s.nodes| && h != j
    requires HasToken(s.nodes[h]) && Shape(s)
    requires s.nodes[h].requested[j] > s.nodes[h].granted[j]
    ensures Requesting(s.nodes[j])
    ensures s.nodes[h].requested[j] == s.nodes[j].myNumber == s.nodes[h].granted[j] + 1
    ensures s.nodes[j].main.Sending? ==> s.nodes[j].main.k > h
  {
    ReachableInv(s);
    Asked(s, h, j);
  }

  lemma Asked(s: State, h: nat, j: nat)
    requires Inv(s) && h < |s.nodes| && j < |s.nodes| && h != j
    requires HasToken(s.nodes[h])
    requires s.nodes[h].requested[j] > s.nodes[h].granted[j]
    ensures Requesting(s.nodes[j])
    ensures s.nodes[h].requested[j] == s.nodes[j].myNumber == s.nodes[h].granted[j] + 1
    ensures s.nodes[j].main.Sending? ==> s.nodes[j].main.k > h
  {
    hide NodesOk;
    assert KnowsOk(s.nodes[h], s.nodes[j], h, j);
    assert h == s.token;
    assert CountNode(s.nodes[j], s.nodes[h].granted[j], false);
  }

  /** The token goes only to a node that waits for it, with the very number it was asked for. */
  lemma TokenGoesToWaiter(s: State, a: Action)
    requires Reachable(s) && Enabled(s, a) && (a.Pass? || a.RPass?)
    ensures var t := Next(s, a); var j := t.token;
      && j < |s.nodes| && j != a.i && s.nodes[j].main.Waiting? && t.nodes[j].main.GotToken?
      && HasToken(s.nodes[a.i]) && !HasToken(t.nodes[a.i])
      && Shape(s) && s.nodes[a.i].requested[j] == s.nodes[j].myNumber == s.nodes[a.i].granted[j] + 1
  {
    ReachableInv(s);
    assert NodeOk(s.nodes[a.i], a.i, |s.nodes|);
    PassIs(s, a);
    Asked(s, a.i, Heir(s.nodes[a.i]));
  }

  /** When the token lies idle at h, the request of every waiting node is with h's receiver and about to be
      looked at. */
  lemma IdleTokenMissesNobody(s: State, h: nat, j: nat)
    requires Reachable(s) && h < |s.nodes| && j < |s.nodes| && s.nodes[j].main.Waiting?
    requires s.nodes[h].haveToken && s.nodes[h].main.Ready?
    ensures !s.nodes[h].receiver.Listening?
    ensures Shape(s) && (s.nodes[h].requested[j] == s.nodes[j].myNumber
                         || s.nodes[h].receiver == Got(Message(j, s.nodes[j].myNumber)))
  {
    ReachableInv(s);
    Idle(s, h, j);
  }

  lemma Idle(s: State, h: nat, j: nat)
    requires Inv(s) && h < |s.nodes| && j < |s.nodes| && s.nodes[j].main.Waiting?
    requires s.nodes[h].haveToken && s.nodes[h].main.Ready?
    ensures !s.nodes[h].receiver.Listening?
    ensures s.nodes[h].requested[j] == s.nodes[j].myNumber
            || s.nodes[h].receiver == Got(Message(j, s.nodes[j].myNumber))
  {
    assert NodeOk(s.nodes[h], h, |s.nodes|) && NodeOk(s.nodes[j], j, |s.nodes|);
    hide NodesOk;
    assert h != j;
    assert KnowsOk(s.nodes[h], s.nodes[j], h, j);
    assert h == s.token;
    assert CountNode(s.nodes[j], s.nodes[h].granted[j], false);
  }

  // ---- deadlock freedom ----

  lemma NodeIs(s: State, i: nat)
    requires Inv(s) && i < |s.nodes|
    ensures NodeOk(s.nodes[i], i, |s.nodes|)
    ensures HasToken(s.nodes[i]) <==> i == s.token
  {
  }

  /** A receiver that has a message moves, unless its node is handing over the token. */
  lemma ReceiverMoves(s: State, k: nat) returns (a: Action)
    requires Inv(s) && k < |s.nodes| && !s.nodes[k].receiver.Listening?
    ensures Enabled(s, a)
  {
    NodeIs(s, k);
    match s.nodes[k].receiver
    case Got(_) => a := Store(k);
    case Stored =>
      if s.nodes[k].main.Scan? { a := Compare(k); }
      else if s.nodes[k].main.Give? { a := GiverMoves(s, k); }
      else { a := Check(k); }
    case RScan(_) => a := RCompare(k);
    case RGive(_) => a := GiverMoves(s, k);
  }

  /** Whoever hands over the token meets a waiting node, or one whose remaining requests go to nodes without
      the token, which accept them. */
  lemma GiverMoves(s: State, h: nat) returns (a: Action)
    requires Inv(s) && h < |s.nodes| && (s.nodes[h].main.Give? || s.nodes[h].receiver.RGive?)
    ensures Enabled(s, a)
  {
    NodeIs(s, h);
    var j := Heir(s.nodes[h]);
    Asked(s, h, j);
    if s.nodes[j].main.Waiting? {
      a := if s.nodes[h].main.Give? then Pass(h) else RPass(h);
    } else {
      NodeIs(s, j);
      var k := s.nodes[j].main.k;
      if k >= |s.nodes| {
        a := AllSent(j);
      } else if k == j {
        a := Skip(j);
      } else {
        NodeIs(s, k);
        a := if s.nodes[k].receiver.Listening? then Send(j) else if s.nodes[k].receiver.Got? then Store(k)
            else Check(k);
      }
    }
  }

  /** The node with the token does not keep a waiting node waiting. */
  lemma HolderMoves(s: State, j: nat) returns (a: Action)
    requires Inv(s) && j < |s.nodes| && s.nodes[j].main.Waiting?
    ensures Enabled(s, a)
  {
    var h := s.token;
    NodeIs(s, h);
    match s.nodes[h].main
    case Ready => Idle(s, h, j); a := ReceiverMoves(s, h);
    case GotToken => a := Take(h);
    case Critical => a := Leave(h);
    case Scan(_) => a := Compare(h);
    case Give(_) => a := GiverMoves(s, h);
  }

  /** No deadlock: while some node has rounds left, some action can happen. */
  lemma SomebodyMoves(s: State, i: nat) returns (a: Action)
    requires Reachable(s) && i < |s.nodes| && !(s.nodes[i].main.Ready? && s.nodes[i].todo == 0)
    ensures Enabled(s, a)
  {
    ReachableInv(s);
    NodeIs(s, i);
    match s.nodes[i].main
    case Ready =>
      if MutexFree(s.nodes[i]) { a := Lock(i); } else { a := ReceiverMoves(s, i); }
    case Sending(k) =>
      if k >= |s.nodes| {
        a := AllSent(i);
      } else if k == i {
        a := Skip(i);
      } else if s.nodes[k].receiver.Listening? {
        a := Send(i);
      } else {
        a := ReceiverMoves(s, k);
      }
    case Waiting => a := HolderMoves(s, i);
    case GotToken => a := Take(i);
    case Critical => a := Leave(i);
    case Scan(_) => a := Compare(i);
    case Give(_) => a := GiverMoves(s, i);
  }

  // ---- the program ----

  /** The least index from k on with an unserved request, or the number of nodes. */
  function FirstPending(requested: seq<nat>, granted: seq<nat>, k: nat): (f: nat)
    requires |requested| == |granted| && k <= |granted|
    ensures k <= f <= |granted|
    ensures forall j :: k <= j < f ==> requested[j] <= granted[j]
    ensures f < |granted| ==> requested[f] > granted[f]
    decreases |granted| - k
  {
    if k == |granted| || requested[k] > granted[k] then k else FirstPending(requested, granted, k + 1)
  }

  /** The scan from `unlock`, without anything in between. */
  function Scanned(n: Node): Node
    requires |n.requested| == |n.granted|
    decreases if !n.main.Scan? then 0 else if n.main.k <= |n.granted| then |n.granted| - n.main.k + 1 else 1
  {
    if n.main.Scan? then Scanned(Compared(n)) else n
  }

  function RScanned(n: Node): Node
    requires |n.requested| == |n.granted|
    decreases if !n.receiver.RScan? then 0 else if n.receiver.k <= |n.granted| then |n.granted| - n.receiver.k + 1
        else 1
  {
    if n.receiver.RScan? then RScanned(RCompared(n)) else n
  }

  lemma {:induction false} ScannedGives(n: Node)
    requires |n.requested| == |n.granted| && n.main.Scan? && n.main.k <= |n.granted|
    ensures var f := FirstPending(n.requested, n.granted, n.main.k);
            Scanned(n) == if f < |n.granted| then n.(main := Give(f)) else Round(n)
    decreases |n.granted| - n.main.k
  {
    if n.main.k < |n.granted| && n.requested[n.main.k] <= n.granted[n.main.k] {
      ScannedGives(Compared(n));
    }
  }

  lemma {:induction false} RScannedGives(n: Node)
    requires |n.requested| == |n.granted| && n.receiver.RScan? && n.receiver.k <= |n.granted|
    ensures var f := FirstPending(n.requested, n.granted, n.receiver.k);
            RScanned(n) == if f < |n.granted| then n.(receiver := RGive(f)) else n.(receiver := Listening)
    decreases |n.granted| - n.receiver.k
  {
    if n.receiver.k < |n.granted| && n.requested[n.receiver.k] <= n.granted[n.receiver.k] {
      RScannedGives(RCompared(n));
    }
  }

  /** One node of the program: the variables its closures share. `main` and `receiver` say where its two
      goroutines are. */
  class Process {
    const id: nat
    var requested: seq<nat>
    var granted: seq<nat>
    var myNumber: nat
    var inCS: bool
    var haveToken: bool
    var main: Main
    var receiver: Receiver
    var todo: nat

    ghost function View(): Node
      reads this
    {
      Node(requested, granted, myNumber, inCS, haveToken, main, receiver, todo)
    }

    ghost predicate Valid(nodes: nat)
      reads this
    {
      NodeOk(View(), id, nodes)
    }

    constructor (id: nat, nodes: nat, counts: nat)
      requires id < nodes
      ensures this.id == id && Valid(nodes)
      ensures View() == Node(seq(nodes, _ => 0), seq(nodes, _ => 0), 0, false, id == 0, Ready, Listening, counts)
    {
      this.id := id;
      requested, granted := seq(nodes, _ => 0), seq(nodes, _ => 0);
      myNumber, inCS, haveToken := 0, false, id == 0;
      main, receiver, todo := Ready, Listening, counts;
    }

    /** The first section of `lock`. */
    method Lock(ghost nodes: nat)
      requires Valid(nodes) && main.Ready? && MutexFree(View())
      modifies this
      ensures Valid(nodes) && View() == TryLock(old(View()))
    {
      LockNode(View(), id, nodes);
      if !haveToken {
        myNumber := myNumber + 1;
        main := Sending(0);
      } else {
        inCS := true;
        main := Critical;
      }
    }

    /** The second, after the token has arrived. */
    method Enter(ghost nodes: nat)
      requires Valid(nodes) && main.GotToken? && MutexFree(View())
      modifies this
      ensures Valid(nodes) && View() == Taken(old(View()))
    {
      TakenNode(View(), id, nodes);
      haveToken := true;
      inCS := true;
      main := Critical;
    }

    /** The loop of `sendToken`: where the token is to go, or the number of nodes. */
    method SendToken() returns (to: nat)
      requires |requested| == |granted|
      ensures to == FirstPending(requested, granted, 0)
    {
      to := 0;
      while to < |requested| && requested[to] <= granted[to]
        invariant to <= |requested|
        invariant FirstPending(requested, granted, to) == FirstPending(requested, granted, 0)
      {
        to := to + 1;
      }
    }

    /** The loop over the peers passes over the node itself, */
    method Skip(ghost nodes: nat)
      requires Valid(nodes) && main == Sending(id)
      modifies this`main
      ensures Valid(nodes) && View() == old(View()).(main := Sending(id + 1))
    {
      SentNode(View(), id, nodes, Sending(id + 1));
      main := Sending(id + 1);
    }

    /** and ends. */
    method AllSent(ghost nodes: nat)
      requires Valid(nodes) && main.Sending?
      modifies this`main
      ensures Valid(nodes) && View() == old(View()).(main := Waiting)
    {
      SentNode(View(), id, nodes, Waiting);
      main := Waiting;
    }

    /** `unlock`, up to the scan. */
    method Unlock(ghost nodes: nat)
      requires Valid(nodes) && main.Critical? && MutexFree(View())
      modifies this
      ensures Valid(nodes) && View() == Left(old(View()), id)
    {
      LeftNode(View(), id, nodes);
      granted := granted[id := myNumber];
      inCS := false;
      main := Scan(0);
    }

    /** One comparison of its scan, between which the receiver may be writing `requested`. */
    method Compare(ghost nodes: nat)
      requires Valid(nodes) && main.Scan?
      modifies this
      ensures Valid(nodes) && View() == Compared(old(View()))
    {
      ComparedNode(View(), id, nodes);
      var k := main.k;
      if k >= |granted| {
        main, todo := Ready, if todo > 0 then todo - 1 else 0;
      } else if requested[k] > granted[k] {
        main := Give(k);
      } else {
        main := Scan(k + 1);
      }
    }

    /** The receiver takes note of a message. */
    method Note(ghost nodes: nat)
      requires Valid(nodes) && receiver.Got?
      modifies this
      ensures Valid(nodes) && View() == Noted(old(View()))
    {
      NotedNode(View(), id, nodes);
      var m := receiver.m;
      if m.number > requested[m.source] {
        requested := requested[m.source := m.number];
      }
      receiver := Stored;
    }

    /** The receiver's section under the mutex, up to its scan, */
    method Answer(ghost nodes: nat)
      requires Valid(nodes) && receiver.Stored? && MutexFree(View())
      modifies this
      ensures Valid(nodes) && View() == Checked(old(View()))
    {
      CheckedNode(View(), id, nodes);
      receiver := if haveToken && !inCS then RScan(0) else Listening;
    }

    /** and one comparison of that. */
    method RCompare(ghost nodes: nat)
      requires Valid(nodes) && receiver.RScan?
      modifies this
      ensures Valid(nodes) && View() == RCompared(old(View()))
    {
      RComparedNode(View(), id, nodes);
      var k := receiver.k;
      if k >= |granted| {
        receiver := Listening;
      } else if requested[k] > granted[k] {
        receiver := RGive(k);
      } else {
        receiver := RScan(k + 1);
      }
    }

    /** The rendezvous on the channel `requests`. */
    method Request(to: Process, ghost nodes: nat)
      requires Valid(nodes) && to.Valid(nodes) && to != this && to.id != id
      requires main == Sending(to.id) && to.receiver.Listening?
      modifies this`main, to`receiver
      ensures Valid(nodes) && to.Valid(nodes)
      ensures View() == old(View()).(main := Sending(to.id + 1))
      ensures to.View() == old(to.View()).(receiver := Got(Message(id, myNumber)))
    {
      SentNode(View(), id, nodes, Sending(to.id + 1));
      GotNode(to.View(), to.id, nodes, Message(id, myNumber));
      to.receiver := Got(Message(id, myNumber));
      main := Sending(to.id + 1);
    }

    /** The rendezvous on the channel `replies`, with all that follows it in the sender's section. */
    method Reply(to: Process, ghost nodes: nat)
      requires Valid(nodes) && to.Valid(nodes) && to != this && to.main.Waiting?
      requires (main.Give? || receiver.RGive?) && Heir(View()) == to.id
      modifies this, to`granted, to`main
      ensures Valid(nodes) && to.Valid(nodes)
      ensures View() == Gone(old(View())) && to.View() == Arrived(old(to.View()), old(granted))
    {
      GoneNode(View(), id, nodes);
      ArrivedNode(to.View(), to.id, nodes, granted);
      to.granted, to.main := granted, GotToken;
      haveToken := false;
      if main.Give? {
        main, todo := Ready, if todo > 0 then todo - 1 else 0;
      } else {
        receiver := Listening;
      }
    }
  }

  lemma ReachableNext(s: State, a: Action)
    requires Reachable(s) && Enabled(s, a)
    ensures Reachable(Next(s, a))
  {
    hide Initial, Enabled, Next;
    var s0: State, run: seq<Action> :| Initial(s0) && s == Exec(s0, run);
    assert (run + [a])[..|run + [a]| - 1] == run;
    assert Next(s, a) == Exec(s0, run + [a]);
  }

  lemma InitialReachable(s: State)
    requires Initial(s)
    ensures Reachable(s)
  {
    assert s == Exec(s, []);
  }

  lemma ReachableNode(s: State, i: nat)
    requires Reachable(s) && i < |s.nodes|
    ensures NodeOk(s.nodes[i], i, |s.nodes|)
  {
    ReachableInv(s);
  }

  /** The actions of two nodes, and those of a receiver. */
  predicate Rendezvous(a: Action) {
    a.Send? || a.Pass? || a.RPass?
  }

  predicate Receives(a: Action) {
    a.Store? || a.Check? || a.RCompare?
  }

  /** A node at its start. */
  function Begun(i: nat, nodes: nat, counts: nat): Node {
    Node(seq(nodes, _ => 0), seq(nodes, _ => 0), 0, false, i == 0, Ready, Listening, counts)
  }

  /** The nodes are started. */
  method Start(n: nat, counts: nat) returns (ps: seq<Process>)
    ensures |ps| == n && fresh(ps)
    ensures forall k :: 0 <= k < n ==> ps[k].id == k && ps[k].View() == Begun(k, n, counts)
  {
    hide NodeOk;
    ps := [];
    for i := 0 to n
      invariant |ps| == i && fresh(ps)
      invariant forall k :: 0 <= k < i ==> ps[k].id == k && ps[k].View() == Begun(k, n, counts)
    {
      var p := new Process(i, n, counts);
      ps := ps + [p];
    }
  }

  /** The nodes of the program, in their objects. Whatever has been proved of reachable states holds of them. */
  class System {
    const procs: seq<Process>
    ghost var token: nat

    ghost function Nodes(): (ns: seq<Node>)
      reads procs
      ensures |ns| == |procs| && forall i :: 0 <= i < |procs| ==> ns[i] == procs[i].View()
    {
      seq(|procs|, i requires 0 <= i < |procs| reads procs => procs[i].View())
    }

    ghost function Abs(): State
      reads this, procs
    {
      State(Nodes(), token)
    }

    ghost predicate Valid()
      reads this, procs
    {
      (forall i :: 0 <= i < |procs| ==> procs[i].id == i && (procs[i] as object) != this) && Reachable(Abs())
    }

    constructor (n: nat, counts: nat)
      requires n > 0
      ensures Valid() && Initial(Abs()) && |procs| == n && fresh(procs)
      ensures forall i :: 0 <= i < n ==> Abs().nodes[i].todo == counts
    {
      var ps := Start(n, counts);
      procs, token := ps, 0;
      new;
      InitialReachable(Abs());
      hide Reachable;
    }

    /** One action of one node, or of two at a rendezvous. */
    method Step(a: Action)
      requires Valid() && Enabled(Abs(), a)
      modifies this, procs
      ensures Valid() && Abs() == Next(old(Abs()), a)
    {
      ghost var s := Abs();
      ReachableNext(s, a);
      hide Reachable, Next, Enabled;
      if Rendezvous(a) { Meet(a); } else if Receives(a) { Receiver(a); } else { Caller(a); }
    }

    /** A section of `lock` or `unlock`. */
    method Caller(a: Action)
      requires Valid() && Enabled(Abs(), a) && !Rendezvous(a) && !Receives(a)
      modifies procs[a.i]
      ensures Abs() == Next(old(Abs()), a)
    {
      ghost var s := Abs();
      var p := procs[a.i];
      ReachableNode(s, a.i);
      hide NodeOk, Reachable;
      match a {
        case Lock(_) => p.Lock(|procs|);
        case Skip(_) => p.Skip(|procs|);
        case AllSent(_) => p.AllSent(|procs|);
        case Take(_) => p.Enter(|procs|);
        case Leave(_) => p.Unlock(|procs|);
        case Compare(_) => p.Compare(|procs|);
      }
      assert Nodes() == Next(s, a).nodes;
    }

    /** A section of the receiver. */
    method Receiver(a: Action)
      requires Valid() && Enabled(Abs(), a) && Receives(a)
      modifies procs[a.i]
      ensures Abs() == Next(old(Abs()), a)
    {
      ghost var s := Abs();
      var p := procs[a.i];
      ReachableNode(s, a.i);
      hide NodeOk, Reachable;
      match a {
        case Store(_) => p.Note(|procs|);
        case Check(_) => p.Answer(|procs|);
        case RCompare(_) => p.RCompare(|procs|);
      }
      assert Nodes() == Next(s, a).nodes;
    }

    method Meet(a: Action)
      requires Valid() && Enabled(Abs(), a) && Rendezvous(a)
      modifies this, procs
      ensures Abs() == Next(old(Abs()), a)
    {
      hide Reachable, Next, Enabled;
      if a.Send? { Request(a.i); } else { Reply(a); }
    }

    method Request(i: nat)
      requires Valid() && Enabled(Abs(), Action.Send(i))
      modifies procs
      ensures Abs() == Next(old(Abs()), Action.Send(i))
    {
      ghost var s := Abs();
      var k := procs[i].main.k;
      ReachableNode(s, i);
      ReachableNode(s, k);
      hide NodeOk, Reachable;
      procs[i].Request(procs[k], |procs|);
      assert Nodes() == Next(s, Action.Send(i)).nodes;
    }

    method Reply(a: Action)
      requires Valid() && Enabled(Abs(), a) && (a.Pass? || a.RPass?)
      modifies this, procs
      ensures Abs() == Next(old(Abs()), a)
    {
      ghost var s := Abs();
      var p := procs[a.i];
      var k := if a.Pass? then p.main.to else p.receiver.to;
      ReachableNode(s, a.i);
      ReachableNode(s, k);
      PassIs(s, a);
      PassesOne(s, a);
      hide NodeOk, Reachable, Next, Enabled;
      p.Reply(procs[k], |procs|);
      token := k;
      assert Nodes() == Next(s, a).nodes;
    }
  }

  /** Only one of the two goroutines of a node is about to send the token. */
  lemma PassesOne(s: State, a: Action)
    requires Reachable(s) && IsPass(s, a)
    ensures Heir(s.nodes[a.i]) == if a.Pass? then s.nodes[a.i].main.to else s.nodes[a.i].receiver.to
    ensures s.nodes[a.i].main.Give? == a.Pass?
  {
    ReachableNode(s, a.i);
  }
}
