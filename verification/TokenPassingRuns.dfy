/** Runs of the token-passing program: they end, and only when every node has been in its critical section as often as
    it wanted. */
module TokenPassingRuns {
  import opened Counting
  import opened TokenPassing

  // ---- every run ends ----

  /** How many accesses the scan from entry k on and the sending of the token take, at most. */
  function ScanWork(k: nat, nodes: nat): nat {
    (if k < nodes then nodes - k else 0) + 2
  }

  /** How many actions the receiver still has to make for the message it has. */
  function ReceiverWork(r: Receiver, nodes: nat): nat {
    match r
    case Listening => 0
    case Got(_) => nodes + 4
    case Stored => nodes + 3
    case RScan(k) => ScanWork(k, nodes)
    case RGive(_) => 1
  }

  /** What is left of the loop that sends the requests, the work of the receivers included. */
  function SendWork(k: nat, nodes: nat): nat {
    if k < nodes then (nodes - k) * (nodes + 5) else 0
  }

  /** How many actions the node still has to make in its present round, those of its peers' receivers included. */
  function MainWork(m: Main, nodes: nat): nat {
    match m
    case Ready => 0
    case Sending(k) => SendWork(k, nodes) + nodes + 6
    case Waiting => nodes + 5
    case GotToken => nodes + 4
    case Critical => nodes + 3
    case Scan(k) => ScanWork(k, nodes)
    case Give(_) => 1
  }

  function RoundWork(nodes: nat): nat {
    MainWork(Sending(0), nodes) + 1
  }

  /** The rounds that the node has not begun. */
  function Unbegun(n: Node): nat {
    if n.main.Ready? || n.todo == 0 then n.todo else n.todo - 1
  }

  /** The rest of the present round. */
  function Rest(n: Node, nodes: nat): nat {
    MainWork(n.main, nodes) + ReceiverWork(n.receiver, nodes)
  }

  function Work(n: Node, nodes: nat): nat {
    Unbegun(n) * RoundWork(nodes) + Rest(n, nodes)
  }

  function Works(ns: seq<Node>): seq<nat> {
    seq(|ns|, i requires 0 <= i < |ns| => Work(ns[i], |ns|))
  }

  /** An upper bound for the number of actions to come. */
  function Remaining(s: State): nat {
    Sum(Works(s.nodes))
  }

  lemma OneChanges(ns: seq<Node>, i: nat, n: Node)
    requires i < |ns| && Work(n, |ns|) < Work(ns[i], |ns|)
    ensures Sum(Works(ns[i := n])) < Sum(Works(ns))
  {
    SumUpdate(Works(ns), i, Work(n, |ns|));
    assert Works(ns)[i := Work(n, |ns|)] == Works(ns[i := n]);
  }

  lemma TwoChange(ns: seq<Node>, i: nat, n: Node, j: nat, m: Node)
    requires i < |ns| && j < |ns| && i != j && Unbegun(n) == Unbegun(ns[i]) && Unbegun(m) == Unbegun(ns[j])
    requires Rest(n, |ns|) + Rest(m, |ns|) < Rest(ns[i], |ns|) + Rest(ns[j], |ns|)
    ensures Sum(Works(ns[i := n][j := m])) < Sum(Works(ns))
  {
    hide Unbegun, Rest, RoundWork;
    SumUpdate(Works(ns), i, Work(n, |ns|));
    assert Works(ns)[i := Work(n, |ns|)] == Works(ns[i := n]);
    SumUpdate(Works(ns[i := n]), j, Work(m, |ns|));
    assert Works(ns[i := n])[j := Work(m, |ns|)] == Works(ns[i := n][j := m]);
  }

  lemma SendFewer(k: nat, nodes: nat)
    requires k < nodes
    ensures SendWork(k, nodes) == SendWork(k + 1, nodes) + nodes + 5
  {
    assert (nodes - k) * (nodes + 5) == (nodes - k - 1) * (nodes + 5) + (nodes + 5);
  }

  predicate Rendezvous(a: Action) {
    a.Send? || a.Pass? || a.RPass?
  }

  /** Every action brings the end nearer. */
  lemma StepFalls(s: State, a: Action)
    requires Inv(s) && Enabled(s, a)
    ensures Remaining(Next(s, a)) < Remaining(s)
  {
    match a {
      case Send(i) => SendFalls(s, i);
      case Pass(i) => PassFalls(s, i);
      case RPass(i) => RPassFalls(s, i);
      case Lock(i) => LockFalls(s, i);
      case _ => OwnFalls(s, a);
    }
    hide Next, Inv, Remaining;
  }

  lemma OwnFalls(s: State, a: Action)
    requires Inv(s) && Enabled(s, a) && !Rendezvous(a) && !a.Lock?
    ensures Remaining(Next(s, a)) < Remaining(s)
  {
    var n := s.nodes[a.i];
    var m := Next(s, a).nodes[a.i];
    RestFalls(s, a);
    hide Inv, Rest, RoundWork;
    assert Unbegun(n) == Unbegun(m);
    assert Next(s, a).nodes == s.nodes[a.i := m];
    hide Next, Enabled, Unbegun;
    OneChanges(s.nodes, a.i, m);
  }

  predicate Receives(a: Action) {
    a.Store? || a.Check? || a.RCompare?
  }

  lemma RestFalls(s: State, a: Action)
    requires Inv(s) && Enabled(s, a) && !Rendezvous(a) && !a.Lock?
    ensures Rest(Next(s, a).nodes[a.i], |s.nodes|) < Rest(s.nodes[a.i], |s.nodes|)
  {
    if Receives(a) { ReceiverFalls(s, a); } else { MainFalls(s, a); }
    hide Inv, Next, Enabled, Rest;
  }

  lemma ReceiverFalls(s: State, a: Action)
    requires Enabled(s, a) && Receives(a)
    ensures Rest(Next(s, a).nodes[a.i], |s.nodes|) < Rest(s.nodes[a.i], |s.nodes|)
  {
    hide MainWork;
  }

  lemma MainFalls(s: State, a: Action)
    requires Enabled(s, a) && !Receives(a) && !Rendezvous(a) && !a.Lock?
    ensures Rest(Next(s, a).nodes[a.i], |s.nodes|) < Rest(s.nodes[a.i], |s.nodes|)
  {
    hide ReceiverWork;
    if a.Skip? { SendFewer(a.i, |s.nodes|); }
    hide SendWork;
  }

  lemma SendFalls(s: State, i: nat)
    requires Enabled(s, Send(i))
    ensures Remaining(Next(s, Send(i))) < Remaining(s)
  {
    var n := s.nodes[i];
    var k := n.main.k;
    SendRest(n, s.nodes[k], Message(i, n.myNumber), |s.nodes|);
    hide Rest, RoundWork;
    TwoChange(s.nodes, i, n.(main := Sending(k + 1)), k, s.nodes[k].(receiver := Got(Message(i, n.myNumber))));
  }

  lemma SendRest(n: Node, m: Node, msg: Message, nodes: nat)
    requires n.main.Sending? && n.main.k < nodes && m.receiver.Listening?
    ensures Rest(n.(main := Sending(n.main.k + 1)), nodes) + Rest(m.(receiver := Got(msg)), nodes)
            < Rest(n, nodes) + Rest(m, nodes)
  {
    SendFewer(n.main.k, nodes);
    hide SendWork;
  }

  lemma PassFalls(s: State, i: nat)
    requires Inv(s) && Enabled(s, Pass(i))
    ensures Remaining(Next(s, Pass(i))) < Remaining(s)
  {
    var n := s.nodes[i];
    var j := n.main.to;
    hide Inv;
    TwoChange(s.nodes, i, Round(n.(haveToken := false)), j, Arrived(s.nodes[j], n.granted));
  }

  lemma RPassFalls(s: State, i: nat)
    requires Inv(s) && Enabled(s, RPass(i))
    ensures Remaining(Next(s, RPass(i))) < Remaining(s)
  {
    var n := s.nodes[i];
    var j := n.receiver.to;
    hide Inv;
    TwoChange(s.nodes, i, n.(haveToken := false, receiver := Listening), j, Arrived(s.nodes[j], n.granted));
  }

  lemma LockFalls(s: State, i: nat)
    requires i < |s.nodes| && Enabled(s, Lock(i))
    ensures Remaining(Next(s, Lock(i))) < Remaining(s)
  {
    var n := s.nodes[i];
    var u, r := n.todo - 1, RoundWork(|s.nodes|);
    assert (u + 1) * r == u * r + r;
    hide SendWork;
    OneChanges(s.nodes, i, TryLock(n));
  }

  /** The actions of a run that happen. */
  function Happened(s: State, run: seq<Action>): nat {
    if run == [] then 0 else
      var n := |run| - 1;
      Happened(s, run[..n]) + One(Enabled(Exec(s, run[..n]), run[n]))
  }

  /** No run goes on for ever: there is a bound on how many actions can happen. */
  lemma {:induction false} RunsEnd(s: State, run: seq<Action>)
    requires Inv(s)
    ensures Happened(s, run) + Remaining(Exec(s, run)) <= Remaining(s)
    decreases |run|
  {
    hide Inv, Next, Enabled, Remaining;
    if run != [] {
      var n := |run| - 1;
      RunsEnd(s, run[..n]);
      ExecInv(s, run[..n]);
      if Enabled(Exec(s, run[..n]), run[n]) { StepFalls(Exec(s, run[..n]), run[n]); }
    }
  }

  // ---- and then everybody has been in ----

  predicate Finished(s: State) {
    forall i :: 0 <= i < |s.nodes| ==> s.nodes[i].main.Ready? && s.nodes[i].todo == 0
  }

  /** The only states where nothing can happen are those where all rounds are over. */
  lemma StuckIsFinished(s: State)
    requires Reachable(s)
    ensures (forall a :: !Enabled(s, a)) ==> Finished(s)
  {
    if !Finished(s) {
      var i :| 0 <= i < |s.nodes| && !(s.nodes[i].main.Ready? && s.nodes[i].todo == 0);
      var a := SomebodyMoves(s, i);
    }
  }

  /** Every run can be carried on to its end. */
  lemma {:induction false} CanFinish(s: State) returns (run: seq<Action>)
    requires Reachable(s)
    ensures Finished(Exec(s, run))
    decreases Remaining(s)
  {
    hide Next, Enabled, Remaining, Reachable;
    if Finished(s) {
      run := [];
    } else {
      var i :| 0 <= i < |s.nodes| && !(s.nodes[i].main.Ready? && s.nodes[i].todo == 0);
      var a := SomebodyMoves(s, i);
      ReachableInv(s);
      StepFalls(s, a);
      ReachableNext(s, a);
      var rest := CanFinish(Next(s, a));
      run := [a] + rest;
      ExecFirst(s, a, rest);
    }
    hide Inv;
  }

  lemma {:induction false} ExecFirst(s: State, a: Action, run: seq<Action>)
    requires Enabled(s, a)
    ensures Exec(s, [a] + run) == Exec(Next(s, a), run)
    decreases |run|
  {
    hide Next, Enabled;
    if run == [] {
      assert [a] + run == [a] && [a][..0] == [] && Exec(s, []) == s;
    } else {
      assert ([a] + run)[..|run|] == [a] + run[..|run| - 1];
      ExecFirst(s, a, run[..|run| - 1]);
    }
  }

  predicate GoesIn(s: State, a: Action, i: nat) {
    i < |s.nodes| && Enabled(s, a) && !s.nodes[i].main.Critical? && Next(s, a).nodes[i].main.Critical?
  }

  /** How often node i has entered its critical section. */
  function Entered(s: State, run: seq<Action>, i: nat): nat {
    if run == [] then 0 else
      var n := |run| - 1;
      Entered(s, run[..n], i) + One(GoesIn(Exec(s, run[..n]), run[n], i))
  }

  /** Has been in its critical section in the present round. */
  predicate HasBeenIn(m: Main) {
    m.Critical? || m.Scan? || m.Give?
  }

  lemma EnterStep(s: State, a: Action, i: nat)
    requires Inv(s) && Enabled(s, a) && i < |s.nodes| && (!s.nodes[i].main.Ready? ==> s.nodes[i].todo > 0)
    ensures i < |Next(s, a).nodes| && (!Next(s, a).nodes[i].main.Ready? ==> Next(s, a).nodes[i].todo > 0)
    ensures var n, m := s.nodes[i], Next(s, a).nodes[i];
            m.todo + One(HasBeenIn(n.main)) + One(GoesIn(s, a, i)) == n.todo + One(HasBeenIn(m.main))
  {
    if i == a.i { OwnEnterStep(s, a); } else { OtherEnterStep(s, a, i); }
    hide Inv, Next, Enabled, HasBeenIn, GoesIn;
  }

  lemma OwnEnterStep(s: State, a: Action)
    requires Inv(s) && Enabled(s, a) && (!s.nodes[a.i].main.Ready? ==> s.nodes[a.i].todo > 0)
    ensures var n, m := s.nodes[a.i], Next(s, a).nodes[a.i];
            && (!m.main.Ready? ==> m.todo > 0)
            && m.todo + One(HasBeenIn(n.main)) + One(GoesIn(s, a, a.i)) == n.todo + One(HasBeenIn(m.main))
  {
    assert NodeOk(s.nodes[a.i], a.i, |s.nodes|);
    hide Inv, NodeOk;
  }

  lemma OtherEnterStep(s: State, a: Action, i: nat)
    requires Enabled(s, a) && i < |s.nodes| && i != a.i
    ensures var n, m := s.nodes[i], Next(s, a).nodes[i];
            && m.todo == n.todo && HasBeenIn(m.main) == HasBeenIn(n.main) && m.main.Ready? == n.main.Ready?
            && !GoesIn(s, a, i)
  {
  }

  /** Every round passes through the critical section, once: a node has been in it as often as it has done rounds. */
  lemma {:induction false} OncePerRound(s0: State, run: seq<Action>, i: nat)
    requires Initial(s0) && i < |s0.nodes|
    ensures i < |Exec(s0, run).nodes|
    ensures var n := Exec(s0, run).nodes[i];
            && Entered(s0, run, i) + n.todo == s0.nodes[i].todo + One(HasBeenIn(n.main))
            && (!n.main.Ready? ==> n.todo > 0)
    decreases |run|
  {
    hide Inv, Enabled, Next;
    if run != [] {
      var n := |run| - 1;
      OncePerRound(s0, run[..n], i);
      InitialInv(s0);
      ExecInv(s0, run[..n]);
      hide HasBeenIn, GoesIn;
      InIsEnabled(s0, run, i);
      if Enabled(Exec(s0, run[..n]), run[n]) { EnterStep(Exec(s0, run[..n]), run[n], i); }
    }
  }

  /** At the end of a run that cannot be carried on, every node has been in its critical section in each of its
      rounds. */
  lemma {:induction false} EverybodyGetsIn(s0: State, run: seq<Action>, i: nat)
    requires Initial(s0) && i < |s0.nodes| && forall a :: !Enabled(Exec(s0, run), a)
    ensures Entered(s0, run, i) == s0.nodes[i].todo
  {
    OncePerRound(s0, run, i);
    StuckIsFinished(Exec(s0, run));
    hide Enabled, Initial;
  }

  lemma {:induction false} InIsEnabled(s0: State, run: seq<Action>, i: nat)
    requires |run| > 0
    ensures GoesIn(Exec(s0, run[..|run| - 1]), run[|run| - 1], i)
            ==> Enabled(Exec(s0, run[..|run| - 1]), run[|run| - 1])
  {
    hide Exec, Enabled;
  }
}
