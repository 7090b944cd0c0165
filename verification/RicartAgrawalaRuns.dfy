/** Runs of the Ricart-Agrawala program: they end, and only when every node has been in its critical section as often
    as it wanted. */
module RicartAgrawalaRuns {
  import opened Counting
  import opened RicartAgrawala

  // ---- every run ends ----

  /** How many actions the receiver still has to make for the message it has, the answer from `unlock` included. */
  function ReceiverWork(r: Receiver): nat {
    match r
    case Listening => 0
    case Got(_) => 5
    case Checking(_) => 4
    case Deferring(_) => 3
    case Replying(_) => 1
  }

  /** How many actions the node still has to make in its present round, those of its peers' receivers included. */
  function MainWork(m: Main, nodes: nat): nat {
    match m
    case Ready => 0
    case Sending(k) => 6 * (if k < nodes then nodes - k else 0) + 6
    case Waiting(_) => 5
    case Critical => 4
    case Exiting => 3
    case Draining(_) => 2
    case Answering(_, _) => 3
  }

  function Round(nodes: nat): nat {
    6 * nodes + 7
  }

  /** The rounds that the node has not begun. */
  function Unbegun(n: Node): nat {
    if n.main.Ready? || n.todo == 0 then n.todo else n.todo - 1
  }

  /** The rest of the present round. */
  function Rest(n: Node, nodes: nat): nat {
    MainWork(n.main, nodes) + ReceiverWork(n.receiver) + 2 * |n.deferred|
  }

  function Work(n: Node, nodes: nat): nat {
    Unbegun(n) * Round(nodes) + Rest(n, nodes)
  }

  function Works(s: State): seq<nat> {
    seq(|s|, i requires 0 <= i < |s| => Work(s[i], |s|))
  }

  /** An upper bound for the number of actions to come. */
  function Left(s: State): nat {
    Sum(Works(s))
  }

  lemma OneChanges(s: State, i: nat, n: Node)
    requires i < |s| && Work(n, |s|) < Work(s[i], |s|)
    ensures Left(s[i := n]) < Left(s)
  {
    SumUpdate(Works(s), i, Work(n, |s|));
    assert Works(s)[i := Work(n, |s|)] == Works(s[i := n]);
  }

  lemma TwoChange(s: State, i: nat, n: Node, j: nat, m: Node)
    requires i < |s| && j < |s| && i != j && Unbegun(n) == Unbegun(s[i]) && Unbegun(m) == Unbegun(s[j])
    requires Rest(n, |s|) + Rest(m, |s|) < Rest(s[i], |s|) + Rest(s[j], |s|)
    ensures Left(s[i := n][j := m]) < Left(s)
  {
    hide Unbegun, Rest, Round;
    SumUpdate(Works(s), i, Work(n, |s|));
    assert Works(s)[i := Work(n, |s|)] == Works(s[i := n]);
    SumUpdate(Works(s[i := n]), j, Work(m, |s|));
    assert Works(s[i := n])[j := Work(m, |s|)] == Works(s[i := n][j := m]);
  }

  /** Every action brings the end nearer. */
  lemma StepFalls(s: State, a: Action)
    requires Inv(s) && Enabled(s, a)
    ensures Left(Next(s, a)) < Left(s)
  {
    match a {
      case Send(i) => SendFalls(s, i);
      case Reply(i) => ReplyFalls(s, i);
      case Answer(i) => AnswerFalls(s, i);
      case Begin(i) => BeginFalls(s, i);
      case Finish(i) => FinishFalls(s, i);
      case _ => OwnFalls(s, a);
    }
    hide Next, Inv, Left;
  }

  lemma OwnFalls(s: State, a: Action)
    requires Inv(s) && Enabled(s, a) && !Rendezvous(a) && !a.Begin? && !a.Finish?
    ensures Left(Next(s, a)) < Left(s)
  {
    var n := s[a.i];
    var m := Next(s, a)[a.i];
    RestFalls(s, a);
    hide Inv, AnswersNow, Rest, Round;
    assert Unbegun(n) == Unbegun(m);
    assert Next(s, a) == s[a.i := m];
    hide Next, Enabled, Unbegun;
    OneChanges(s, a.i, m);
  }

  lemma RestFalls(s: State, a: Action)
    requires Inv(s) && Enabled(s, a) && !Rendezvous(a) && !a.Begin? && !a.Finish?
    ensures Rest(Next(s, a)[a.i], |s|) < Rest(s[a.i], |s|)
  {
    assert NodeOk(s[a.i], a.i, |s|);
    if Receives(a) { ReceiverFalls(s, a); } else { MainFalls(s, a); }
    hide Inv, NodeOk, Next, Enabled, Rest;
  }

  lemma ReceiverFalls(s: State, a: Action)
    requires Enabled(s, a) && Receives(a)
    ensures Rest(Next(s, a)[a.i], |s|) < Rest(s[a.i], |s|)
  {
    hide AnswersNow;
  }

  lemma MainFalls(s: State, a: Action)
    requires Enabled(s, a) && NodeOk(s[a.i], a.i, |s|) && !Receives(a) && !Rendezvous(a) && !a.Begin? && !a.Finish?
    ensures Rest(Next(s, a)[a.i], |s|) < Rest(s[a.i], |s|)
  {
    hide ReceiverWork;
  }

  lemma ReplyFalls(s: State, i: nat)
    requires Inv(s) && Enabled(s, Reply(i))
    ensures Left(Next(s, Reply(i))) < Left(s)
  {
    var n := s[i];
    assert NodeOk(n, i, |s|);
    hide Inv;
    TwoChange(s, i, n.(receiver := Listening), n.receiver.to, Collect(s[n.receiver.to], i));
  }

  lemma AnswerFalls(s: State, i: nat)
    requires Inv(s) && Enabled(s, Answer(i))
    ensures Left(Next(s, Answer(i))) < Left(s)
  {
    var n := s[i];
    assert NodeOk(n, i, |s|);
    hide Inv;
    TwoChange(s, i, n.(main := Draining(n.main.n)), n.main.to, Collect(s[n.main.to], i));
  }

  lemma SendFalls(s: State, i: nat)
    requires Inv(s) && Enabled(s, Send(i))
    ensures Left(Next(s, Send(i))) < Left(s)
  {
    var n := s[i];
    var k := n.main.k;
    TwoChange(s, i, n.(main := Sending(k + 1)), k, s[k].(receiver := Got(Message(i, n.myNumber))));
  }

  lemma BeginFalls(s: State, i: nat)
    requires i < |s| && Enabled(s, Begin(i))
    ensures Left(Next(s, Begin(i))) < Left(s)
  {
    var n := s[i];
    var u, r := n.todo - 1, Round(|s|);
    assert (u + 1) * r == u * r + r;
    OneChanges(s, i, Request(n));
  }

  lemma FinishFalls(s: State, i: nat)
    requires i < |s| && Enabled(s, Finish(i))
    ensures Left(Next(s, Finish(i))) < Left(s)
  {
    var n := s[i];
    OneChanges(s, i, n.(main := Ready, todo := if n.todo > 0 then n.todo - 1 else 0));
  }

  /** The actions of a run that happen. */
  function Happened(s: State, run: seq<Action>): nat {
    if run == [] then 0 else
      var n := |run| - 1;
      Happened(s, run[..n]) + One(Enabled(Exec(s, run[..n]), run[n]))
  }

  /** No run goes on for ever: there is a bound on how many actions can happen. */
  lemma {:induction false} RunsEnd(s: State, run: seq<Action>)
    requires Inv(s)
    ensures Happened(s, run) + Left(Exec(s, run)) <= Left(s)
    decreases |run|
  {
    hide Inv, Next, Enabled, Left;
    if run != [] {
      var n := |run| - 1;
      RunsEnd(s, run[..n]);
      ExecInv(s, run[..n]);
      if Enabled(Exec(s, run[..n]), run[n]) { StepFalls(Exec(s, run[..n]), run[n]); }
    }
  }

  // ---- and then everybody has been in ----

  predicate Finished(s: State) {
    forall i :: 0 <= i < |s| ==> s[i].main.Ready? && s[i].todo == 0
  }

  /** The only states where nothing can happen are those where all rounds are over. */
  lemma StuckIsFinished(s: State)
    requires Reachable(s)
    ensures (forall a :: !Enabled(s, a)) ==> Finished(s)
  {
    if !Finished(s) {
      var i :| 0 <= i < |s| && !(s[i].main.Ready? && s[i].todo == 0);
      var a := SomebodyMoves(s, i);
    }
  }

  /** Every run can be carried on to its end. */
  lemma {:induction false} CanFinish(s: State) returns (run: seq<Action>)
    requires Reachable(s)
    ensures Finished(Exec(s, run))
    decreases Left(s)
  {
    hide Next, Enabled, Left, Reachable;
    if Finished(s) {
      run := [];
    } else {
      var i :| 0 <= i < |s| && !(s[i].main.Ready? && s[i].todo == 0);
      var a := SomebodyMoves(s, i);
      ReachableInv(s);
      StepFalls(s, a);
      ReachableNext(s, a);
      var rest := CanFinish(Next(s, a));
      run := [a] + rest;
      ExecFirst(s, a, rest);
    }
    hide Inv;
  }

  lemma {:induction false} ExecFirst(s: State, a: Action, run: seq<Action>)
    requires Enabled(s, a)
    ensures Exec(s, [a] + run) == Exec(Next(s, a), run)
    decreases |run|
  {
    hide Next, Enabled;
    if run == [] {
      assert [a] + run == [a] && [a][..0] == [] && Exec(s, []) == s;
    } else {
      assert ([a] + run)[..|run|] == [a] + run[..|run| - 1];
      ExecFirst(s, a, run[..|run| - 1]);
    }
  }

  predicate GoesIn(s: State, a: Action, i: nat) {
    i < |s| && Enabled(s, a) && !s[i].main.Critical? && Next(s, a)[i].main.Critical?
  }

  /** How often node i has entered its critical section. */
  function Entered(s: State, run: seq<Action>, i: nat): nat {
    if run == [] then 0 else
      var n := |run| - 1;
      Entered(s, run[..n], i) + One(GoesIn(Exec(s, run[..n]), run[n], i))
  }

  /** Has been in its critical section in the present round. */
  predicate HasBeenIn(m: Main) {
    m.Critical? || m.Exiting? || m.Draining? || m.Answering?
  }

  lemma EnterStep(s: State, a: Action, i: nat)
    requires Inv(s) && Enabled(s, a) && i < |s| && (!s[i].main.Ready? ==> s[i].todo > 0)
    ensures i < |Next(s, a)| && (!Next(s, a)[i].main.Ready? ==> Next(s, a)[i].todo > 0)
    ensures var n, m := s[i], Next(s, a)[i];
            m.todo + One(HasBeenIn(n.main)) + One(GoesIn(s, a, i)) == n.todo + One(HasBeenIn(m.main))
  {
    if i == a.i { OwnEnterStep(s, a); } else { OtherEnterStep(s, a, i); }
    hide Inv, Next, Enabled, HasBeenIn, GoesIn;
  }

  lemma OwnEnterStep(s: State, a: Action)
    requires Inv(s) && Enabled(s, a) && (!s[a.i].main.Ready? ==> s[a.i].todo > 0)
    ensures var n, m := s[a.i], Next(s, a)[a.i];
            && (!m.main.Ready? ==> m.todo > 0)
            && m.todo + One(HasBeenIn(n.main)) + One(GoesIn(s, a, a.i)) == n.todo + One(HasBeenIn(m.main))
  {
    assert NodeOk(s[a.i], a.i, |s|);
    hide Inv, NodeOk, AnswersNow;
  }

  lemma OtherEnterStep(s: State, a: Action, i: nat)
    requires Enabled(s, a) && i < |s| && i != a.i
    ensures var n, m := s[i], Next(s, a)[i];
            && m.todo == n.todo && HasBeenIn(m.main) == HasBeenIn(n.main) && m.main.Ready? == n.main.Ready?
            && !GoesIn(s, a, i)
  {
    hide AnswersNow;
  }

  /** Every round passes through the critical section, once: a node has been in it as often as it has done rounds. */
  lemma {:induction false} OncePerRound(s0: State, run: seq<Action>, i: nat)
    requires Initial(s0) && i < |s0|
    ensures i < |Exec(s0, run)|
    ensures var n := Exec(s0, run)[i];
            && Entered(s0, run, i) + n.todo == s0[i].todo + One(HasBeenIn(n.main))
            && (!n.main.Ready? ==> n.todo > 0)
    decreases |run|
  {
    hide Inv, Enabled, Next;
    if run != [] {
      var n := |run| - 1;
      OncePerRound(s0, run[..n], i);
      InitialInv(s0);
      ExecInv(s0, run[..n]);
      hide HasBeenIn, GoesIn;
      InIsEnabled(s0, run, i);
      if Enabled(Exec(s0, run[..n]), run[n]) { EnterStep(Exec(s0, run[..n]), run[n], i); }
    }
  }

  /** At the end of a run that cannot be carried on, every node has been in its critical section in each of its
      rounds. */
  lemma {:induction false} EverybodyGetsIn(s0: State, run: seq<Action>, i: nat)
    requires Initial(s0) && i < |s0| && forall a :: !Enabled(Exec(s0, run), a)
    ensures Entered(s0, run, i) == s0[i].todo
  {
    OncePerRound(s0, run, i);
    StuckIsFinished(Exec(s0, run));
    hide Enabled, Initial;
  }

  lemma {:induction false} InIsEnabled(s0: State, run: seq<Action>, i: nat)
    requires |run| > 0
    ensures GoesIn(Exec(s0, run[..|run| - 1]), run[|run| - 1], i)
            ==> Enabled(Exec(s0, run[..|run| - 1]), run[|run| - 1])
  {
    hide Exec, Enabled;
  }
}
