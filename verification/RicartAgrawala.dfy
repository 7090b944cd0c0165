/** The Ricart-Agrawala algorithm over unbuffered channels (channels/distributed/mutex_ricart_agrawala.go),
    for any number of nodes. A step is a rendezvous on a channel or one section of a goroutine between
    two of them; the node's `mutex` is taken and released where the code does so. */
module RicartAgrawala {
  import opened Counting

  datatype Message = Message(source: nat, number: nat)

  /** The goroutine that runs lock, critical section and unlock. Sending(k): about to send to node k;
      Waiting(r): r replies received; Exiting: `requestCS = false` done; Draining(n): n deferred replies
      left; Answering: one of them taken from the buffer and about to be sent. */
  datatype Main =
    | Ready | Sending(k: nat) | Waiting(r: nat) | Critical
    | Exiting | Draining(n: nat) | Answering(to: nat, n: nat)

  /** The receiver goroutine. Checking and Deferring hold the mutex. */
  datatype Receiver =
    | Listening | Got(m: Message) | Checking(m: Message) | Deferring(to: nat) | Replying(to: nat)

  /** `answered` records who has replied to the current request; `todo` counts the remaining rounds. */
  datatype Node = Node(myNumber: nat, highestNum: nat, requestCS: bool, deferred: seq<nat>, locked: bool,
                       main: Main, receiver: Receiver, todo: nat, answered: set<nat>)

  type State = seq<Node>

  datatype Action =
    | Begin(i: nat) | Skip(i: nat) | Send(i: nat) | AllSent(i: nat)
    | TakeMutex(i: nat) | Check(i: nat) | Defer(i: nat) | Reply(i: nat)
    | Enter(i: nat) | Leave(i: nat) | CountDeferred(i: nat) | TakeDeferred(i: nat) | Answer(i: nat) | Finish(i: nat)

  predicate CanReceive(s: State, i: nat) {
    i < |s| && s[i].main.Waiting? && s[i].main.r + 1 < |s|
  }

  predicate Enabled(s: State, a: Action) {
    && a.i < |s|
    && var n := s[a.i];
       match a
       case Begin(_) => n.main.Ready? && n.todo > 0 && !n.locked
       case Skip(i) => n.main == Sending(i)
       case Send(i) => n.main.Sending? && n.main.k != i && n.main.k < |s| && s[n.main.k].receiver.Listening?
       case AllSent(_) => n.main.Sending? && n.main.k >= |s|
       case TakeMutex(_) => n.receiver.Got? && !n.locked
       case Check(_) => n.receiver.Checking?
       case Defer(_) => n.receiver.Deferring? && |n.deferred| < |s|
       case Reply(_) => n.receiver.Replying? && CanReceive(s, n.receiver.to)
       case Enter(_) => n.main.Waiting? && n.main.r + 1 >= |s|
       case Leave(_) => n.main.Critical?
       case CountDeferred(_) => n.main.Exiting? && !n.locked
       case TakeDeferred(_) => n.main.Draining? && n.main.n > 0 && n.deferred != []
       case Answer(_) => n.main.Answering? && CanReceive(s, n.main.to)
       case Finish(_) => n.main == Draining(0)
  }

  // ---- the sections of a node's two goroutines ----

  function Request(n: Node): Node {
    n.(requestCS := true, myNumber := n.highestNum + 1, main := Sending(0), answered := {})
  }

  function Note(n: Node): Node
    requires n.receiver.Got?
  {
    var m := n.receiver.m;
    n.(locked := true, highestNum := if m.number > n.highestNum then m.number
       else n.highestNum, receiver := Checking(m))
  }

  /** Does node `id` answer at once? */
  predicate AnswersNow(n: Node, id: nat, m: Message) {
    !n.requestCS || m.number < n.myNumber || (m.number == n.myNumber && m.source < id)
  }

  function Decide(n: Node, id: nat): Node
    requires n.receiver.Checking?
  {
    var m := n.receiver.m;
    if AnswersNow(n, id, m) then n.(locked := false, receiver := Replying(m.source))
    else n.(receiver := Deferring(m.source))
  }

  function Postpone(n: Node): Node
    requires n.receiver.Deferring?
  {
    n.(deferred := n.deferred + [n.receiver.to], locked := false, receiver := Listening)
  }

  function Release(n: Node): Node {
    n.(requestCS := false, main := Exiting)
  }

  function Pop(n: Node): Node
    requires n.main.Draining? && n.main.n > 0 && n.deferred != []
  {
    n.(deferred := n.deferred[1..], main := Answering(n.deferred[0], n.main.n - 1))
  }

  /** The reply of node j reaches node i. */
  function Collect(n: Node, j: nat): Node
    requires n.main.Waiting?
  {
    n.(main := Waiting(n.main.r + 1), answered := n.answered + {j})
  }

  function Next(s: State, a: Action): (t: State)
    requires Enabled(s, a)
    ensures |t| == |s|
  {
    var i := a.i;
    var n := s[i];
    match a
    case Begin(_) => s[i := Request(n)]
    case Skip(_) => s[i := n.(main := Sending(n.main.k + 1))]
    case Send(_) =>
      s[i := n.(main := Sending(n.main.k + 1))]
       [n.main.k := s[n.main.k].(receiver := Got(Message(i, n.myNumber)))]
    case AllSent(_) => s[i := n.(main := Waiting(0))]
    case TakeMutex(_) => s[i := Note(n)]
    case Check(_) => s[i := Decide(n, i)]
    case Defer(_) => s[i := Postpone(n)]
    case Reply(_) =>
      var t := s[i := n.(receiver := Listening)];
      t[n.receiver.to := Collect(t[n.receiver.to], i)]
    case Enter(_) => s[i := n.(main := Critical)]
    case Leave(_) => s[i := Release(n)]
    case CountDeferred(_) => s[i := n.(main := Draining(|n.deferred|))]
    case TakeDeferred(_) => s[i := Pop(n)]
    case Answer(_) =>
      var t := s[i := n.(main := Draining(n.main.n))];
      if t[n.main.to].main.Waiting? then t[n.main.to := Collect(t[n.main.to], i)] else t
    case Finish(_) => s[i := n.(main := Ready, todo := if n.todo > 0 then n.todo - 1 else 0)]
  }

  /** The peers of a node among n. */
  function Peers(n: nat, i: nat): (p: set<nat>)
    ensures forall j: nat :: j in p <==> j < n && j != i
    ensures |p| == if i < n then n - 1 else n
  {
    if n == 0 then {} else Peers(n - 1, i) + if n - 1 == i then {} else {n - 1}
  }

  predicate Initial(s: State) {
    forall i :: 0 <= i < |s| ==>
      && s[i].main == Ready && s[i].receiver == Listening && s[i].deferred == []
      && !s[i].requestCS && !s[i].locked && s[i].myNumber == 0 && s[i].highestNum == 0
      && s[i].answered == Peers(|s|, i)
  }

  // ---- where the request of i to j is ----

  predicate Unsent(n: Node, j: nat) {
    n.main.Sending? && n.main.k <= j
  }

  predicate AtReceiver(n: Node, i: nat) {
    match n.receiver
    case Listening => false
    case Got(m) => m.source == i
    case Checking(m) => m.source == i
    case Deferring(to) => to == i
    case Replying(to) => to == i
  }

  predicate BeingAnswered(n: Node, i: nat) {
    n.main.Answering? && n.main.to == i
  }

  function Times(q: seq<nat>, i: nat): nat {
    multiset(q)[i]
  }

  /** The number of places that the request of node i to node j is in. */
  function Places(ni: Node, nj: Node, i: nat, j: nat): nat {
    One(Unsent(ni, j)) + One(AtReceiver(nj, i)) + Times(nj.deferred,
                                                        i) + One(BeingAnswered(nj, i)) + One(j in ni.answered)
  }

  predicate Wants(m: Main) {
    m.Sending? || m.Waiting? || m.Critical?
  }

  /** What a node's own fields say about each other; names are peers among `nodes` nodes. */
  ghost predicate NodeOk(n: Node, id: nat, nodes: nat) {
    && (n.requestCS <==> Wants(n.main))
    && (n.locked <==> n.receiver.Checking? || n.receiver.Deferring?)
    && (n.main.Sending? ==> n.main.k <= nodes && n.answered == {})
    && (n.main.Waiting? ==> n.main.r == |n.answered|)
    && (n.main.Draining? ==> n.main.n == |n.deferred|)
    && (n.main.Answering? ==> n.main.n == |n.deferred|)
    && (n.main.Ready? ==> n.deferred == [])
    && (n.main.Draining? || n.main.Answering? || n.main.Ready? ==> !n.receiver.Deferring?)
    && (n.main.Ready? || n.main.Exiting? || n.main.Draining? || n.main.Answering? || n.main.Critical? ==>
        |n.answered| + 1 >= nodes)
    && (forall k :: k in n.answered ==> k < nodes && k != id)
    && NamesOk(n, id, nodes)
  }

  predicate NamesOk(n: Node, id: nat, nodes: nat) {
    && (n.receiver.Got? || n.receiver.Checking? ==> n.receiver.m.source < nodes && n.receiver.m.source != id)
    && (n.receiver.Deferring? || n.receiver.Replying? ==> n.receiver.to < nodes && n.receiver.to != id)
    && (n.main.Answering? ==> n.main.to < nodes && n.main.to != id)
    && (forall k :: 0 <= k < |n.deferred| ==> n.deferred[k] < nodes && n.deferred[k] != id)
  }

  ghost predicate NodesOk(s: State) {
    forall i :: 0 <= i < |s| ==> NodeOk(s[i], i, |s|)
  }

  predicate Granted(ni: Node, nj: Node, i: nat, j: nat) {
    j in ni.answered || BeingAnswered(nj, i) || nj.receiver == Replying(i)
  }

  predicate Refused(nj: Node, i: nat) {
    Times(nj.deferred, i) > 0 || nj.receiver == Deferring(i)
  }

  /** (number, id) pairs in order of priority. */
  predicate Before(ni: Node, nj: Node, i: nat, j: nat) {
    ni.myNumber < nj.myNumber || (ni.myNumber == nj.myNumber && i < j)
  }

  /** Node j has not yet taken note of the request of i. */
  predicate InTransit(ni: Node, nj: Node, i: nat, j: nat) {
    Unsent(ni, j) || (nj.receiver.Got? && nj.receiver.m.source == i)
  }

  /** What node j knows and has done about the request of node i. */
  ghost predicate PairOk(ni: Node, nj: Node, i: nat, j: nat) {
    && Places(ni, nj, i, j) == 1
    && (nj.receiver.Got? || nj.receiver.Checking? ==> nj.receiver.m.source == i ==> nj.receiver.m.number == ni.myNumber)
    && (ni.requestCS && !InTransit(ni, nj, i, j) ==> nj.highestNum >= ni.myNumber)
    && (ni.requestCS && nj.requestCS && Granted(ni, nj, i, j) ==> Before(ni, nj, i, j))
    && (ni.requestCS && nj.requestCS && Refused(nj, i) ==> Before(nj, ni, j, i))
  }

  ghost predicate PairsOk(s: State) {
    forall i, j :: 0 <= i < |s| && 0 <= j < |s| && i != j ==> PairOk(s[i], s[j], i, j)
  }

  ghost predicate Inv(s: State) {
    NodesOk(s) && PairsOk(s)
  }

  lemma InitialInv(s: State)
    requires Initial(s)
    ensures Inv(s)
  {
  }

  // ---- one node, one pair, one action ----

  lemma TimesAppend(q: seq<nat>, x: nat, i: nat)
    ensures Times(q + [x], i) == Times(q, i) + One(x == i)
  {
  }

  lemma TimesPop(q: seq<nat>, i: nat)
    requires q != []
    ensures Times(q, i) == One(q[0] == i) + Times(q[1..], i)
  {
    assert q == [q[0]] + q[1..];
  }

  lemma TimesIn(q: seq<nat>, i: nat)
    ensures Times(q, i) > 0 <==> i in q
  {
  }

  /** What the two nodes know about each other's requests. */
  ghost predicate Both(n: Node, m: Node, i: nat, j: nat) {
    PairOk(n, m, i, j) && PairOk(m, n, j, i)
  }

  lemma RequestKept(n: Node, i: nat, nodes: nat)
    requires NodeOk(n, i, nodes) && n.main.Ready? && !n.locked
    ensures NodeOk(Request(n), i, nodes)
  {
  }

  lemma RequestPair(n: Node, m: Node, i: nat, j: nat)
    requires Both(n, m, i, j) && n.main.Ready? && !n.locked && n.deferred == [] && !n.requestCS
             && !n.receiver.Deferring?
    requires Times(m.deferred, i) == 0 && !AtReceiver(m, i) && !BeingAnswered(m, i)
    ensures Both(Request(n), m, i, j)
  {
    TimesIn(n.deferred, j);
    hide Times;
  }

  lemma SkipKept(n: Node, i: nat, nodes: nat)
    requires NodeOk(n, i, nodes) && n.main.Sending? && n.main.k < nodes
    ensures NodeOk(n.(main := Sending(n.main.k + 1)), i, nodes)
  {
  }

  lemma SkipPair(n: Node, m: Node, i: nat, j: nat)
    requires Both(n, m, i, j) && n.main.Sending? && n.main.k != j
    ensures Both(n.(main := Sending(n.main.k + 1)), m, i, j)
  {
    hide Times;
  }

  lemma AllSentKept(n: Node, i: nat, nodes: nat)
    requires NodeOk(n, i, nodes) && n.main.Sending? && n.main.k >= nodes
    ensures NodeOk(n.(main := Waiting(0)), i, nodes)
  {
  }

  lemma AllSentPair(n: Node, m: Node, i: nat, j: nat)
    requires Both(n, m, i, j) && n.main.Sending? && n.main.k > j
    ensures Both(n.(main := Waiting(0)), m, i, j)
  {
    hide Times;
  }

  lemma NoteKept(n: Node, i: nat, nodes: nat)
    requires NodeOk(n, i, nodes) && n.receiver.Got? && !n.locked
    ensures NodeOk(Note(n), i, nodes)
  {
  }

  lemma NotePair(n: Node, m: Node, i: nat, j: nat)
    requires Both(n, m, i, j) && n.receiver.Got? && !n.locked
    ensures Both(Note(n), m, i, j)
  {
    hide Times;
  }

  lemma DecideKept(n: Node, i: nat, nodes: nat)
    requires NodeOk(n, i, nodes) && n.receiver.Checking?
    ensures NodeOk(Decide(n, i), i, nodes)
  {
  }

  lemma DecidePair(n: Node, m: Node, i: nat, j: nat)
    requires Both(n, m, i, j) && n.receiver.Checking? && i != j
    ensures Both(Decide(n, i), m, i, j)
  {
    hide Times;
  }

  lemma PostponeKept(n: Node, i: nat, nodes: nat)
    requires NodeOk(n, i, nodes) && n.receiver.Deferring?
    ensures NodeOk(Postpone(n), i, nodes)
  {
  }

  lemma PostponePair(n: Node, m: Node, i: nat, j: nat)
    requires Both(n, m, i, j) && n.receiver.Deferring?
    ensures Both(Postpone(n), m, i, j)
  {
    TimesAppend(n.deferred, n.receiver.to, j);
    hide Times;
  }

  lemma EnterKept(n: Node, i: nat, nodes: nat)
    requires NodeOk(n, i, nodes) && n.main.Waiting? && n.main.r + 1 >= nodes
    ensures NodeOk(n.(main := Critical), i, nodes)
  {
  }

  lemma EnterPair(n: Node, m: Node, i: nat, j: nat)
    requires Both(n, m, i, j) && n.main.Waiting? && n.requestCS
    ensures Both(n.(main := Critical), m, i, j)
  {
    hide Times;
  }

  lemma LeaveKept(n: Node, i: nat, nodes: nat)
    requires NodeOk(n, i, nodes) && n.main.Critical?
    ensures NodeOk(Release(n), i, nodes)
  {
  }

  lemma LeavePair(n: Node, m: Node, i: nat, j: nat)
    requires Both(n, m, i, j) && n.main.Critical?
    ensures Both(Release(n), m, i, j)
  {
    hide Times;
  }

  lemma CountKept(n: Node, i: nat, nodes: nat)
    requires NodeOk(n, i, nodes) && n.main.Exiting? && !n.locked
    ensures NodeOk(n.(main := Draining(|n.deferred|)), i, nodes)
  {
  }

  lemma CountPair(n: Node, m: Node, i: nat, j: nat)
    requires Both(n, m, i, j) && n.main.Exiting?
    ensures Both(n.(main := Draining(|n.deferred|)), m, i, j)
  {
    hide Times;
  }

  lemma PopKept(n: Node, i: nat, nodes: nat)
    requires NodeOk(n, i, nodes) && n.main.Draining? && n.main.n > 0 && n.deferred != []
    ensures NodeOk(Pop(n), i, nodes)
  {
  }

  lemma PopPair(n: Node, m: Node, i: nat, j: nat)
    requires Both(n, m, i, j) && n.main.Draining? && n.main.n > 0 && n.deferred != [] && !n.requestCS
    ensures Both(Pop(n), m, i, j)
  {
    TimesPop(n.deferred, j);
    hide Times;
  }

  lemma FinishKept(n: Node, i: nat, nodes: nat, todo: nat)
    requires NodeOk(n, i, nodes) && n.main == Draining(0)
    ensures NodeOk(n.(main := Ready, todo := todo), i, nodes)
  {
  }

  lemma FinishPair(n: Node, m: Node, i: nat, j: nat, todo: nat)
    requires Both(n, m, i, j) && n.main == Draining(0) && !n.requestCS
    ensures Both(n.(main := Ready, todo := todo), m, i, j)
  {
    hide Times;
  }

  // ---- rendezvous: the receiver's side, towards a third node and towards the sender ----

  lemma GotKept(n: Node, i: nat, nodes: nat, m: Message)
    requires NodeOk(n, i, nodes) && n.receiver.Listening? && m.source < nodes && m.source != i
    ensures NodeOk(n.(receiver := Got(m)), i, nodes)
  {
  }

  lemma GotPair(n: Node, m: Node, i: nat, j: nat, msg: Message)
    requires Both(n, m, i, j) && n.receiver.Listening? && msg.source != j
    ensures Both(n.(receiver := Got(msg)), m, i, j)
  {
    hide Times;
  }

  lemma SendPair(n: Node, m: Node, i: nat, j: nat)
    requires Both(n, m, i, j) && n.main == Sending(j) && m.receiver.Listening?
    ensures Both(n.(main := Sending(j + 1)), m.(receiver := Got(Message(i, n.myNumber))), i, j)
  {
    hide Times;
  }

  lemma CollectKept(n: Node, i: nat, nodes: nat, j: nat)
    requires NodeOk(n, i, nodes) && n.main.Waiting? && j < nodes && j != i && j !in n.answered
    ensures NodeOk(Collect(n, j), i, nodes)
  {
  }

  lemma CollectPair(n: Node, m: Node, i: nat, j: nat, k: nat)
    requires Both(n, m, i, j) && n.main.Waiting? && k != j
    ensures Both(Collect(n, k), m, i, j)
  {
    hide Times;
  }

  lemma RepliedKept(n: Node, i: nat, nodes: nat)
    requires NodeOk(n, i, nodes) && n.receiver.Replying?
    ensures NodeOk(n.(receiver := Listening), i, nodes)
  {
  }

  lemma RepliedPair(n: Node, m: Node, i: nat, j: nat)
    requires Both(n, m, i, j) && n.receiver.Replying? && n.receiver.to != j
    ensures Both(n.(receiver := Listening), m, i, j)
  {
    hide Times;
  }

  lemma ReplyPair(n: Node, m: Node, i: nat, j: nat)
    requires Both(n, m, i, j) && n.receiver == Replying(j) && m.main.Waiting?
    ensures Both(n.(receiver := Listening), Collect(m, i), i, j)
  {
    hide Times;
  }

  lemma AnsweredKept(n: Node, i: nat, nodes: nat)
    requires NodeOk(n, i, nodes) && n.main.Answering?
    ensures NodeOk(n.(main := Draining(n.main.n)), i, nodes)
  {
  }

  lemma AnsweredPair(n: Node, m: Node, i: nat, j: nat)
    requires Both(n, m, i, j) && n.main.Answering? && n.main.to != j
    ensures Both(n.(main := Draining(n.main.n)), m, i, j)
  {
    hide Times;
  }

  lemma AnswerPair(n: Node, m: Node, i: nat, j: nat)
    requires Both(n, m, i, j) && n.main.Answering? && n.main.to == j && m.main.Waiting?
    ensures Both(n.(main := Draining(n.main.n)), Collect(m, i), i, j)
  {
    hide Times;
  }

  /** A node that has as many answers as there are peers has the answer of every peer. */
  lemma AllAnswered(n: Node, i: nat, nodes: nat, j: nat)
    requires i < nodes && j < nodes && i != j && NodeOk(n, i, nodes) && |n.answered| + 1 >= nodes
    ensures j in n.answered
  {
    if j !in n.answered {
      SmallerSet(n.answered, Peers(nodes, i) - {j});
    }
  }

  lemma {:induction false} SmallerSet(a: set<nat>, b: set<nat>)
    requires a <= b
    ensures |a| <= |b|
    decreases a
  {
    if a != {} {
      var x :| x in a;
      SmallerSet(a - {x}, b - {x});
    }
  }

  // ---- the whole network ----

  /** One node changes. */
  lemma OneNode(s: State, i: nat, n: Node)
    requires Inv(s) && i < |s| && NodeOk(n, i, |s|)
    requires forall j :: 0 <= j < |s| && j != i ==> Both(n, s[j], i, j)
    ensures Inv(s[i := n])
  {
    hide NodeOk, PairOk;
  }

  /** Two nodes change. */
  lemma TwoNodes(s: State, i: nat, n: Node, k: nat, m: Node)
    requires Inv(s) && i < |s| && k < |s| && i != k && NodeOk(n, i, |s|) && NodeOk(m, k, |s|)
    requires Both(n, m, i, k)
    requires forall j :: 0 <= j < |s| && j != i && j != k ==> Both(n, s[j], i, j) && Both(m, s[j], k, j)
    ensures Inv(s[i := n][k := m])
  {
    hide NodeOk, PairOk;
  }

  lemma Facts(s: State, i: nat, j: nat)
    requires Inv(s) && i < |s| && j < |s| && i != j
    ensures Both(s[i], s[j], i, j) && NodeOk(s[i], i, |s|) && NodeOk(s[j], j, |s|)
  {
    hide NodeOk, PairOk;
  }

  lemma BeginInv(s: State, i: nat)
    requires Inv(s) && Enabled(s, Begin(i))
    ensures Inv(Next(s, Begin(i)))
  {
    var n := s[i];
    assert NodeOk(n, i, |s|);
    RequestKept(n, i, |s|);
    forall j | 0 <= j < |s| && j != i
      ensures Both(Request(n), s[j], i, j)
    {
      Facts(s, i, j);
      AllAnswered(n, i, |s|, j);
      RequestPair(n, s[j], i, j);
    }
    OneNode(s, i, Request(n));
  }

  lemma SendInv(s: State, i: nat)
    requires Inv(s) && Enabled(s, Send(i))
    ensures Inv(Next(s, Send(i)))
  {
    hide PairOk, Inv;
    var n := s[i];
    var k := n.main.k;
    var n' := n.(main := Sending(k + 1));
    var m' := s[k].(receiver := Got(Message(i, n.myNumber)));
    Facts(s, i, k);
    SkipKept(n, i, |s|);
    GotKept(s[k], k, |s|, Message(i, n.myNumber));
    SendPair(n, s[k], i, k);
    forall j | 0 <= j < |s| && j != i && j != k
      ensures Both(n', s[j], i, j) && Both(m', s[j], k, j)
    {
      Facts(s, i, j);
      Facts(s, k, j);
      SkipPair(n, s[j], i, j);
      GotPair(s[k], s[j], k, j, Message(i, n.myNumber));
    }
    TwoNodes(s, i, n', k, m');
  }

  lemma ReplyInv(s: State, i: nat)
    requires Inv(s) && Enabled(s, Reply(i))
    ensures Inv(Next(s, Reply(i)))
  {
    var n := s[i];
    assert NodeOk(n, i, |s|);
    var k := n.receiver.to;
    var n' := n.(receiver := Listening);
    Facts(s, i, k);
    assert i !in s[k].answered;
    hide PairOk, Inv;
    RepliedKept(n, i, |s|);
    CollectKept(s[k], k, |s|, i);
    ReplyPair(n, s[k], i, k);
    forall j | 0 <= j < |s| && j != i && j != k
      ensures Both(n', s[j], i, j) && Both(Collect(s[k], i), s[j], k, j)
    {
      Facts(s, i, j);
      Facts(s, k, j);
      RepliedPair(n, s[j], i, j);
      CollectPair(s[k], s[j], k, j, i);
    }
    TwoNodes(s, i, n', k, Collect(s[k], i));
  }

  lemma AnswerInv(s: State, i: nat)
    requires Inv(s) && Enabled(s, Answer(i))
    ensures Inv(Next(s, Answer(i)))
  {
    var n := s[i];
    assert NodeOk(n, i, |s|);
    var k := n.main.to;
    var n' := n.(main := Draining(n.main.n));
    Facts(s, i, k);
    assert i !in s[k].answered;
    hide PairOk, Inv;
    AnsweredKept(n, i, |s|);
    CollectKept(s[k], k, |s|, i);
    AnswerPair(n, s[k], i, k);
    forall j | 0 <= j < |s| && j != i && j != k
      ensures Both(n', s[j], i, j) && Both(Collect(s[k], i), s[j], k, j)
    {
      Facts(s, i, j);
      Facts(s, k, j);
      AnsweredPair(n, s[j], i, j);
      CollectPair(s[k], s[j], k, j, i);
    }
    TwoNodes(s, i, n', k, Collect(s[k], i));
  }

  /** The actions that concern one node only. */
  function Alone(s: State, a: Action): Node
    requires Enabled(s, a)
  {
    var n := s[a.i];
    match a
    case Skip(_) => n.(main := Sending(n.main.k + 1))
    case AllSent(_) => n.(main := Waiting(0))
    case TakeMutex(_) => Note(n)
    case Check(_) => Decide(n, a.i)
    case Defer(_) => Postpone(n)
    case Enter(_) => n.(main := Critical)
    case Leave(_) => Release(n)
    case CountDeferred(_) => n.(main := Draining(|n.deferred|))
    case TakeDeferred(_) => Pop(n)
    case Finish(_) => n.(main := Ready, todo := if n.todo > 0 then n.todo - 1 else 0)
    case _ => n
  }

  lemma AloneKept(s: State, a: Action)
    requires Inv(s) && Enabled(s, a)
    ensures NodeOk(Alone(s, a), a.i, |s|)
  {
    var n := s[a.i];
    assert NodeOk(n, a.i, |s|);
    hide NodeOk, Inv, Note, Decide, Postpone, Release, Pop;
    match a {
      case Skip(_) => SkipKept(n, a.i, |s|);
      case AllSent(_) => AllSentKept(n, a.i, |s|);
      case TakeMutex(_) => NoteKept(n, a.i, |s|);
      case Check(_) => DecideKept(n, a.i, |s|);
      case Defer(_) => PostponeKept(n, a.i, |s|);
      case Enter(_) => EnterKept(n, a.i, |s|);
      case Leave(_) => LeaveKept(n, a.i, |s|);
      case CountDeferred(_) => CountKept(n, a.i, |s|);
      case TakeDeferred(_) => PopKept(n, a.i, |s|);
      case Finish(_) => FinishKept(n, a.i, |s|, if n.todo > 0 then n.todo - 1 else 0);
      case _ =>
    }
  }

  predicate ByReceiver(a: Action) {
    a.TakeMutex? || a.Check? || a.Defer?
  }

  lemma ReceiverPair(s: State, a: Action, j: nat)
    requires Inv(s) && Enabled(s, a) && j < |s| && j != a.i && ByReceiver(a)
    ensures Both(Alone(s, a), s[j], a.i, j)
  {
    var n, m, i := s[a.i], s[j], a.i;
    Facts(s, i, j);
    hide Both, Inv, Note, Decide, Postpone, NodeOk;
    match a {
      case TakeMutex(_) => NotePair(n, m, i, j);
      case Check(_) => DecidePair(n, m, i, j);
      case Defer(_) => PostponePair(n, m, i, j);
    }
  }

  lemma AlonePair(s: State, a: Action, j: nat)
    requires Inv(s) && Enabled(s, a) && j < |s| && j != a.i
    ensures Both(Alone(s, a), s[j], a.i, j)
  {
    var n, m, i := s[a.i], s[j], a.i;
    Facts(s, i, j);
    hide Both, Inv, Release, Pop, NamesOk;
    match a {
      case Skip(_) => SkipPair(n, m, i, j);
      case AllSent(_) => AllSentPair(n, m, i, j);
      case Enter(_) => EnterPair(n, m, i, j);
      case Leave(_) => LeavePair(n, m, i, j);
      case CountDeferred(_) => CountPair(n, m, i, j);
      case TakeDeferred(_) => PopPair(n, m, i, j);
      case Finish(_) => FinishPair(n, m, i, j, if n.todo > 0 then n.todo - 1 else 0);
      case _ => if ByReceiver(a) { ReceiverPair(s, a, j); }
    }
  }

  lemma NextInv(s: State, a: Action)
    requires Inv(s) && Enabled(s, a)
    ensures Inv(Next(s, a))
  {
    hide Inv, NodeOk, Both, Note, Decide, Postpone, Release, Pop, Request, Collect;
    match a {
      case Begin(i) => BeginInv(s, i);
      case Send(i) => SendInv(s, i);
      case Reply(i) => ReplyInv(s, i);
      case Answer(i) => AnswerInv(s, i);
      case _ =>
        AloneKept(s, a);
        forall j | 0 <= j < |s| && j != a.i
          ensures Both(Alone(s, a), s[j], a.i, j)
        {
          AlonePair(s, a, j);
        }
        OneNode(s, a.i, Alone(s, a));
    }
  }

  // ---- every run ----

  /** The state after a run; actions that cannot happen are skipped. */
  function Exec(s: State, run: seq<Action>): State
    decreases |run|
  {
    if run == [] then s else
      var before := Exec(s, run[..|run| - 1]);
      if Enabled(before, run[|run| - 1]) then Next(before, run[|run| - 1]) else before
  }

  lemma {:induction false} ExecInv(s: State, run: seq<Action>)
    requires Inv(s)
    ensures Inv(Exec(s, run))
    decreases |run|
  {
    hide Inv, Next, Enabled;
    if run != [] {
      ExecInv(s, run[..|run| - 1]);
      var before := Exec(s, run[..|run| - 1]);
      if Enabled(before, run[|run| - 1]) {
        NextInv(before, run[|run| - 1]);
      }
    }
  }

  ghost predicate Reachable(s: State) {
    exists s0: State, run: seq<Action> :: Initial(s0) && s == Exec(s0, run)
  }

  lemma ReachableInv(s: State)
    requires Reachable(s)
    ensures Inv(s)
  {
    hide Inv, Initial;
    var s0: State, run: seq<Action> :| Initial(s0) && s == Exec(s0, run);
    InitialInv(s0);
    ExecInv(s0, run);
  }

  /** At most one node is between `lock` and `unlock`. */
  lemma MutualExclusion(s: State, i: nat, j: nat)
    requires Reachable(s) && i < |s| && j < |s| && s[i].main.Critical? && s[j].main.Critical?
    ensures i == j
  {
    ReachableInv(s);
    if i != j {
      Facts(s, i, j);
      AllAnswered(s[i], i, |s|, j);
      AllAnswered(s[j], j, |s|, i);
    }
  }

  /** The request of a node to each of its peers is in one place and one place only. */
  lemma OnePlace(s: State, i: nat, j: nat)
    requires Reachable(s) && i < |s| && j < |s| && i != j
    ensures Places(s[i], s[j], i, j) == 1
  {
    ReachableInv(s);
    Facts(s, i, j);
  }

  /** The buffered channel `deferred` has room for every request that could be deferred. */
  lemma BufferHasRoom(s: State, j: nat)
    requires Reachable(s) && j < |s| && s[j].receiver.Deferring?
    ensures |s[j].deferred| + 1 < |s|
  {
    ReachableInv(s);
    BufferRoom(s, j);
  }

  lemma BufferRoom(s: State, j: nat)
    requires Inv(s) && j < |s| && s[j].receiver.Deferring?
    ensures |s[j].deferred| + 1 < |s|
  {
    var q := s[j].deferred;
    assert NodeOk(s[j], j, |s|);
    forall x, y | 0 <= x < y < |q|
      ensures q[x] != q[y]
    {
      Facts(s, q[x], j);
      if q[x] == q[y] {
        Twice(q, x, y);
      }
    }
    var to := s[j].receiver.to;
    Facts(s, to, j);
    TimesIn(q, to);
    hide Inv, NodeOk, Both;
    SmallerSet(Elements(q), Peers(|s|, j) - {to});
  }

  function Elements(q: seq<nat>): (e: set<nat>)
    ensures forall x :: x in e <==> x in q
    ensures (forall x, y :: 0 <= x < y < |q| ==> q[x] != q[y]) ==> |e| == |q|
    decreases |q|
  {
    if q == [] then {} else Elements(q[..|q| - 1]) + {q[|q| - 1]}
  }

  lemma Twice(q: seq<nat>, x: nat, y: nat)
    requires x < y < |q| && q[x] == q[y]
    ensures Times(q, q[x]) >= 2
  {
    assert q == q[..x] + [q[x]] + q[x + 1..y] + [q[y]] + q[y + 1..];
  }

  // ---- deadlock freedom ----

  /** If node i cannot send its next request, the peer's receiver is replying to a node that is itself sending,
      further on; so somebody can move. */
  lemma {:induction false} SenderMoves(s: State, i: nat) returns (a: Action)
    requires Inv(s) && i < |s| && s[i].main.Sending?
    ensures Enabled(s, a)
    decreases |s| - s[i].main.k
  {
    var n := s[i];
    assert NodeOk(n, i, |s|);
    var k := n.main.k;
    if k >= |s| {
      a := AllSent(i);
    } else if k == i {
      a := Skip(i);
    } else {
      assert NodeOk(s[k], k, |s|);
      match s[k].receiver {
        case Listening => a := Send(i);
        case Got(_) => a := TakeMutex(k);
        case Checking(_) => a := Check(k);
        case Deferring(_) => a := DeferMoves(s, k);
        case Replying(u) =>
          Facts(s, u, k);
          if s[u].main.Sending? {
            a := SenderMoves(s, u);
          } else {
            a := ReplyMoves(s, k, u);
          }
      }
    }
  }

  lemma DeferMoves(s: State, k: nat) returns (a: Action)
    requires Inv(s) && k < |s| && s[k].receiver.Deferring?
    ensures Enabled(s, a)
  {
    BufferRoom(s, k);
    a := Defer(k);
  }

  /** A node that is being replied to and no longer sends is waiting, or can move on itself. */
  lemma ReplyMoves(s: State, k: nat, u: nat) returns (a: Action)
    requires Inv(s) && k < |s| && u < |s| && k != u && !s[u].main.Sending?
    requires s[k].receiver == Replying(u) || BeingAnswered(s[k], u)
    ensures Enabled(s, a)
  {
    Facts(s, u, k);
    if |s[u].answered| + 1 >= |s| {
      AllAnswered(s[u], u, |s|, k);
      assert false;
    } else if s[k].receiver == Replying(u) {
      a := Reply(k);
    } else {
      a := Answer(k);
    }
  }

  lemma ReceiverMoves(s: State, j: nat) returns (a: Action)
    requires Inv(s) && j < |s| && !s[j].receiver.Listening? && !s[j].receiver.Replying?
    ensures Enabled(s, a)
  {
    assert NodeOk(s[j], j, |s|);
    match s[j].receiver {
      case Got(_) => a := TakeMutex(j);
      case Checking(_) => a := Check(j);
      case Deferring(_) => a := DeferMoves(s, j);
    }
  }

  /** A node that is not waiting for replies moves, or somebody in its way does. */
  lemma BusyMoves(s: State, i: nat) returns (a: Action)
    requires Inv(s) && i < |s| && !s[i].main.Waiting? && (s[i].main.Ready? ==> s[i].todo > 0)
    ensures Enabled(s, a)
  {
    var n := s[i];
    assert NodeOk(n, i, |s|);
    if (n.main.Ready? || n.main.Exiting?) && n.locked {
      a := ReceiverMoves(s, i);
    } else {
      match n.main {
        case Ready => a := Begin(i);
        case Sending(_) => a := SenderMoves(s, i);
        case Critical => a := Leave(i);
        case Exiting => a := CountDeferred(i);
        case Draining(k) => a := if k == 0 then Finish(i) else TakeDeferred(i);
        case Answering(to, _) =>
          if s[to].main.Sending? {
            a := SenderMoves(s, to);
          } else {
            a := ReplyMoves(s, i, to);
          }
      }
    }
  }

  /** Among the waiting nodes, priority decides: whoever defers a waiting node's request is busy, or waits
      itself with a smaller (number, id). */
  lemma {:induction false} WaiterMoves(s: State, i: nat) returns (a: Action)
    requires Inv(s) && i < |s| && s[i].main.Waiting?
    ensures Enabled(s, a)
    decreases s[i].myNumber, i
  {
    assert NodeOk(s[i], i, |s|);
    if s[i].main.r + 1 >= |s| {
      a := Enter(i);
    } else {
      var j := Unanswered(s, i);
      Facts(s, i, j);
      TimesIn(s[j].deferred, i);
      if s[j].receiver == Replying(i) {
        a := Reply(j);
      } else if AtReceiver(s[j], i) {
        a := ReceiverMoves(s, j);
      } else if BeingAnswered(s[j], i) {
        a := Answer(j);
      } else if s[j].main.Waiting? {
        a := WaiterMoves(s, j);
      } else {
        a := BusyMoves(s, j);
      }
    }
  }

  lemma Unanswered(s: State, i: nat) returns (j: nat)
    requires Inv(s) && i < |s| && |s[i].answered| + 1 < |s|
    ensures j < |s| && j != i && j !in s[i].answered
  {
    if Peers(|s|, i) <= s[i].answered {
      SmallerSet(Peers(|s|, i), s[i].answered);
      assert false;
    }
    j :| j in Peers(|s|, i) && j !in s[i].answered;
  }

  /** No deadlock: while some node has rounds left, some action can happen. */
  lemma SomebodyMoves(s: State, i: nat) returns (a: Action)
    requires Reachable(s) && i < |s| && !(s[i].main.Ready? && s[i].todo == 0)
    ensures Enabled(s, a)
  {
    ReachableInv(s);
    if s[i].main.Waiting? {
      a := WaiterMoves(s, i);
    } else {
      a := BusyMoves(s, i);
    }
  }

  // ---- the program ----

  /** One node of the program: the variables its closures share, and where its two goroutines are. */
  class Process {
    const id: nat
    var myNumber: nat
    var highestNum: nat
    var requestCS: bool
    var deferred: seq<nat>
    var locked: bool
    var main: Main
    var receiver: Receiver
    var todo: nat
    ghost var answered: set<nat>

    ghost function View(): Node
      reads this
    {
      Node(myNumber, highestNum, requestCS, deferred, locked, main, receiver, todo, answered)
    }

    ghost predicate Valid(nodes: nat)
      reads this
    {
      NodeOk(View(), id, nodes)
    }

    constructor (id: nat, nodes: nat, counts: nat)
      requires id < nodes
      ensures this.id == id && Valid(nodes)
      ensures View() == Node(0, 0, false, [], false, Ready, Listening, counts, Peers(nodes, id))
    {
      this.id := id;
      myNumber, highestNum, requestCS, deferred, locked := 0, 0, false, [], false;
      main, receiver, todo, answered := Ready, Listening, counts, Peers(nodes, id);
    }

    /** The section of `lock`. */
    method Lock(ghost nodes: nat)
      requires Valid(nodes) && main.Ready? && !locked
      modifies this
      ensures Valid(nodes) && View() == Request(old(View()))
    {
      RequestKept(View(), id, nodes);
      requestCS := true;
      myNumber := highestNum + 1;
      main, answered := Sending(0), {};
    }

    /** The receiver has the mutex: it notes the number of the message, */
    method Take(ghost nodes: nat)
      requires Valid(nodes) && receiver.Got? && !locked
      modifies this
      ensures Valid(nodes) && View() == Note(old(View()))
    {
      NoteKept(View(), id, nodes);
      locked := true;
      if receiver.m.number > highestNum {
        highestNum := receiver.m.number;
      }
      receiver := Checking(receiver.m);
    }

    /** decides, */
    method Judge(ghost nodes: nat)
      requires Valid(nodes) && receiver.Checking?
      modifies this
      ensures Valid(nodes) && View() == Decide(old(View()), id)
    {
      DecideKept(View(), id, nodes);
      var m := receiver.m;
      if !requestCS || m.number < myNumber || (m.number == myNumber && m.source < id) {
        locked := false;
        receiver := Replying(m.source);
      } else {
        receiver := Deferring(m.source);
      }
    }

    /** and puts the source off. */
    method Defer(ghost nodes: nat)
      requires Valid(nodes) && receiver.Deferring?
      modifies this
      ensures Valid(nodes) && View() == Postpone(old(View()))
    {
      PostponeKept(View(), id, nodes);
      deferred := deferred + [receiver.to];
      locked := false;
      receiver := Listening;
    }

    /** The loop over the peers passes over the node itself, */
    method Skip()
      requires main == Sending(id)
      modifies this`main
      ensures View() == old(View()).(main := Sending(id + 1))
    {
      main := Sending(id + 1);
    }

    /** and ends. */
    method AllSent()
      requires main.Sending?
      modifies this`main
      ensures View() == old(View()).(main := Waiting(0))
    {
      main := Waiting(0);
    }

    /** All replies have been received. */
    method Enter()
      requires main.Waiting?
      modifies this`main
      ensures View() == old(View()).(main := Critical)
    {
      main := Critical;
    }

    /** The assignment that starts `unlock`. */
    method Unlock(ghost nodes: nat)
      requires Valid(nodes) && main.Critical?
      modifies this
      ensures Valid(nodes) && View() == Release(old(View()))
    {
      LeaveKept(View(), id, nodes);
      requestCS := false;
      main := Exiting;
    }

    /** Its section under the mutex: how many are deferred. */
    method CountDeferred()
      requires main.Exiting?
      modifies this`main
      ensures View() == old(View()).(main := Draining(|deferred|))
    {
      main := Draining(|deferred|);
    }

    /** One round of its loop: the deferred node whose turn it is. */
    method NextDeferred(ghost nodes: nat)
      requires Valid(nodes) && main.Draining? && main.n > 0 && deferred != []
      modifies this
      ensures Valid(nodes) && View() == Pop(old(View()))
    {
      PopKept(View(), id, nodes);
      main := Answering(deferred[0], main.n - 1);
      deferred := deferred[1..];
    }

    /** The end of the loop and of the round. */
    method Finish()
      requires main.Draining?
      modifies this`main, this`todo
      ensures View() == old(View()).(main := Ready, todo := if old(todo) > 0 then old(todo) - 1 else 0)
    {
      main, todo := Ready, if todo > 0 then todo - 1 else 0;
    }

    /** The rendezvous on the channel `requests`. */
    method Send(to: Process)
      requires to != this && main == Sending(to.id) && to.receiver.Listening?
      modifies this`main, to`receiver
      ensures View() == old(View()).(main := Sending(to.id + 1))
      ensures to.View() == old(to.View()).(receiver := Got(Message(id, myNumber)))
    {
      to.receiver := Got(Message(id, myNumber));
      main := Sending(to.id + 1);
    }

    /** The rendezvous on the channel `replies`, from the receiver, */
    method Reply(to: Process)
      requires to != this && receiver == Replying(to.id) && to.main.Waiting?
      modifies this`receiver, to`main, to`answered
      ensures View() == old(View()).(receiver := Listening)
      ensures to.View() == Collect(old(to.View()), id)
    {
      to.main, to.answered := Waiting(to.main.r + 1), to.answered + {id};
      receiver := Listening;
    }

    /** and from `unlock`. */
    method Answer(to: Process)
      requires to != this && main.Answering? && main.to == to.id && to.main.Waiting?
      modifies this`main, to`main, to`answered
      ensures View() == old(View()).(main := Draining(old(main.n)))
      ensures to.View() == Collect(old(to.View()), id)
    {
      to.main, to.answered := Waiting(to.main.r + 1), to.answered + {id};
      main := Draining(main.n);
    }
  }

  lemma ReachableNext(s: State, a: Action)
    requires Reachable(s) && Enabled(s, a)
    ensures Reachable(Next(s, a))
  {
    hide Initial, Enabled, Next;
    var s0: State, run: seq<Action> :| Initial(s0) && s == Exec(s0, run);
    assert (run + [a])[..|run + [a]| - 1] == run;
    assert Next(s, a) == Exec(s0, run + [a]);
  }

  /** The actions of two nodes. */
  predicate Rendezvous(a: Action) {
    a.Send? || a.Reply? || a.Answer?
  }

  predicate Receives(a: Action) {
    a.TakeMutex? || a.Check? || a.Defer?
  }

  /** The nodes are started. */
  method Start(n: nat, counts: nat) returns (ps: seq<Process>)
    ensures |ps| == n && fresh(ps)
    ensures forall k :: 0 <= k < n ==>
              ps[k].id == k && ps[k].View() == Node(0, 0, false, [], false, Ready, Listening, counts, Peers(n, k))
  {
    hide NodeOk;
    ps := [];
    for i := 0 to n
      invariant |ps| == i && fresh(ps)
      invariant forall k :: 0 <= k < i ==>
                  ps[k].id == k && ps[k].View() == Node(0, 0, false, [], false, Ready, Listening, counts, Peers(n, k))
    {
      var p := new Process(i, n, counts);
      ps := ps + [p];
    }
  }

  /** The nodes of the program, in their objects. Whatever has been proved of reachable states holds of them. */
  class System {
    const procs: seq<Process>

    ghost function Abs(): (s: State)
      reads procs
      ensures |s| == |procs| && forall i :: 0 <= i < |procs| ==> s[i] == procs[i].View()
    {
      seq(|procs|, i requires 0 <= i < |procs| reads procs => procs[i].View())
    }

    ghost predicate Valid()
      reads procs
    {
      (forall i :: 0 <= i < |procs| ==> procs[i].id == i) && Reachable(Abs())
    }

    constructor (n: nat, counts: nat)
      ensures Valid() && Initial(Abs()) && |procs| == n && fresh(procs)
      ensures forall i :: 0 <= i < n ==> Abs()[i].todo == counts
    {
      var ps := Start(n, counts);
      procs := ps;
      new;
      InitialReachable(Abs());
      hide Reachable;
    }

    /** One action of one node, or of two at a rendezvous. */
    method Step(a: Action)
      requires Valid() && Enabled(Abs(), a)
      modifies procs
      ensures Valid() && Abs() == Next(old(Abs()), a)
    {
      ghost var s := Abs();
      ReachableNext(s, a);
      if Rendezvous(a) { Meet(a); } else if Receives(a) { Receiver(a); } else { Caller(a); }
    }

    /** A section of `lock` or `unlock`. */
    method Caller(a: Action)
      requires Valid() && Enabled(Abs(), a) && !Rendezvous(a) && !Receives(a)
      modifies procs[a.i]
      ensures Abs() == Next(old(Abs()), a)
    {
      ghost var s := Abs();
      var p := procs[a.i];
      NodeIs(s, a.i);
      hide NodeOk, Reachable;
      match a {
        case Begin(_) => p.Lock(|procs|);
        case Skip(_) => p.Skip();
        case AllSent(_) => p.AllSent();
        case Enter(_) => p.Enter();
        case Leave(_) => p.Unlock(|procs|);
        case CountDeferred(_) => p.CountDeferred();
        case TakeDeferred(_) => p.NextDeferred(|procs|);
        case Finish(_) => p.Finish();
      }
      assert Abs() == Next(s, a);
    }

    /** A section of the receiver. */
    method Receiver(a: Action)
      requires Valid() && Enabled(Abs(), a) && Receives(a)
      modifies procs[a.i]
      ensures Abs() == Next(old(Abs()), a)
    {
      ghost var s := Abs();
      var p := procs[a.i];
      NodeIs(s, a.i);
      hide NodeOk, Reachable;
      match a {
        case TakeMutex(_) => p.Take(|procs|);
        case Check(_) => p.Judge(|procs|);
        case Defer(_) => p.Defer(|procs|);
      }
      assert Abs() == Next(s, a);
    }

    method Meet(a: Action)
      requires Valid() && Enabled(Abs(), a) && Rendezvous(a)
      modifies procs
      ensures Abs() == Next(old(Abs()), a)
    {
      hide NodeOk, Inv, Reachable, Next, Enabled;
      match a {
        case Send(i) => SendFrom(i);
        case Reply(i) => ReplyFrom(i);
        case Answer(i) => AnswerFrom(i);
      }
    }

    method SendFrom(i: nat)
      requires Valid() && Enabled(Abs(), Action.Send(i))
      modifies procs
      ensures Abs() == Next(old(Abs()), Action.Send(i))
    {
      ghost var s := Abs();
      var k := procs[i].main.k;
      hide Reachable;
      procs[i].Send(procs[k]);
      assert Abs() == Next(s, Action.Send(i));
    }

    method ReplyFrom(i: nat)
      requires Valid() && Enabled(Abs(), Action.Reply(i))
      modifies procs
      ensures Abs() == Next(old(Abs()), Action.Reply(i))
    {
      ghost var s := Abs();
      var k := procs[i].receiver.to;
      OtherName(s, i);
      hide Reachable;
      procs[i].Reply(procs[k]);
      assert Abs() == Next(s, Action.Reply(i));
    }

    method AnswerFrom(i: nat)
      requires Valid() && Enabled(Abs(), Action.Answer(i))
      modifies procs
      ensures Abs() == Next(old(Abs()), Action.Answer(i))
    {
      ghost var s := Abs();
      var k := procs[i].main.to;
      OtherName(s, i);
      hide Reachable;
      procs[i].Answer(procs[k]);
      assert Abs() == Next(s, Action.Answer(i));
    }
  }

  lemma InitialReachable(s: State)
    requires Initial(s)
    ensures Reachable(s)
  {
    assert s == Exec(s, []);
  }

  lemma NodeIs(s: State, i: nat)
    requires Reachable(s) && i < |s|
    ensures NodeOk(s[i], i, |s|)
  {
    ReachableInv(s);
  }

  /** Nobody answers itself. */
  lemma OtherName(s: State, i: nat)
    requires Reachable(s) && i < |s|
    ensures NamesOk(s[i], i, |s|)
  {
    ReachableInv(s);
    assert NodeOk(s[i], i, |s|);
  }
}
