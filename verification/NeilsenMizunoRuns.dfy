/** Runs of the Neilsen-Mizuno program: they end, on every tree; and on a star only when every node has been in its
    critical section as often as it wanted. */
module NeilsenMizunoRuns {
  import opened Counting
  import opened NeilsenMizuno
  import Star = NeilsenMizunoStar

  // ---- every run ends ----

  /** How many actions there still are to make for a message that node v has: it moves on along the tree, away from
      where it came from, and is then answered. */
  function ReceiverWork(tree: seq<nat>, r: Receiver, v: nat): nat
    requires Tree(tree)
  {
    match r
    case Listening => 0
    case Got(m) => 2 * |Beyond(tree, m.source, v)| + 3
    case Forwarding(m) => 2 * |Beyond(tree, m.source, v)| + 2
    case Passing(_) => 1
  }

  /** How many actions the node still has to make in its present round, those for its request included. */
  function MainWork(m: Main, nodes: nat): nat {
    match m
    case Ready => 0
    case Asking => 2 * nodes + 6
    case Waiting => 4
    case Critical => 2
    case Granting => 1
  }

  /** The rounds that the node has not begun. */
  function Unbegun(n: Node): nat {
    if n.main.Ready? || n.main.Granting? || n.todo == 0 then n.todo else n.todo - 1
  }

  function Rest(tree: seq<nat>, n: Node, v: nat): nat
    requires Tree(tree)
  {
    MainWork(n.main, |tree|) + ReceiverWork(tree, n.receiver, v)
  }

  function Work(tree: seq<nat>, n: Node, v: nat): nat
    requires Tree(tree)
  {
    Unbegun(n) * (2 * |tree| + 7) + Rest(tree, n, v)
  }

  function Works(s: State): seq<nat>
    requires Tree(s.tree)
  {
    seq(|s.nodes|, i requires 0 <= i < |s.nodes| => Work(s.tree, s.nodes[i], i))
  }

  /** An upper bound for the number of actions to come. */
  function Left(s: State): nat
    requires Tree(s.tree)
  {
    Sum(Works(s))
  }

  lemma OneChanges(s: State, r: State, i: nat)
    requires Tree(s.tree) && r.tree == s.tree && i < |s.nodes| == |r.nodes|
    requires Work(s.tree, r.nodes[i], i) < Work(s.tree, s.nodes[i], i)
    requires forall k :: 0 <= k < |s.nodes| && k != i ==> r.nodes[k] == s.nodes[k]
    ensures Left(r) < Left(s)
  {
    hide Work;
    SumUpdate(Works(s), i, Work(s.tree, r.nodes[i], i));
    assert Works(s)[i := Work(s.tree, r.nodes[i], i)] == Works(r);
  }

  lemma TwoChange(s: State, r: State, i: nat, j: nat)
    requires Tree(s.tree) && r.tree == s.tree && i < |s.nodes| == |r.nodes| && j < |s.nodes| && i != j
    requires Unbegun(r.nodes[i]) == Unbegun(s.nodes[i]) && Unbegun(r.nodes[j]) == Unbegun(s.nodes[j])
    requires Rest(s.tree, r.nodes[i], i) + Rest(s.tree, r.nodes[j], j)
             < Rest(s.tree, s.nodes[i], i) + Rest(s.tree, s.nodes[j], j)
    requires forall k :: 0 <= k < |s.nodes| && k != i && k != j ==> r.nodes[k] == s.nodes[k].(at := r.nodes[k].at)
    ensures Left(r) < Left(s)
  {
    forall k | 0 <= k < |s.nodes| && k != i && k != j
      ensures Work(s.tree, r.nodes[k], k) == Work(s.tree, s.nodes[k], k)
    {
    }
    hide Unbegun, Rest;
    SumFalls(Works(s), Works(r), i, j);
  }

  /** Every action brings the end nearer. */
  lemma StepFalls(s: State, a: Action)
    requires Inv(s) && Enabled(s, a)
    ensures Tree(s.tree) && Left(Next(s, a)) < Left(s)
  {
    match a {
      case Lock(i) => LockFalls(s, i);
      case Ask(i) => AskFalls(s, i);
      case Forward(i) => ForwardFalls(s, i);
      case Pass(i) => PassFalls(s, i);
      case Grant(i) => PassFalls(s, i);
      case _ => OwnFalls(s, a);
    }
    hide Next, Inv, Left;
  }

  lemma LockFalls(s: State, i: nat)
    requires Tree(s.tree) && Enabled(s, Lock(i))
    ensures Left(Next(s, Lock(i))) < Left(s)
  {
    var n := s.nodes[i];
    var u, r := n.todo - 1, 2 * |s.tree| + 7;
    assert (u + 1) * r == u * r + r;
    hide Beyond;
    OneChanges(s, Next(s, Lock(i)), i);
  }

  lemma OwnFalls(s: State, a: Action)
    requires Tree(s.tree) && Enabled(s, a) && (a.Receive? || a.Unlock?)
    ensures Left(Next(s, a)) < Left(s)
  {
    hide Beyond;
    assert Unbegun(Next(s, a).nodes[a.i]) == Unbegun(s.nodes[a.i]);
    OneChanges(s, Next(s, a), a.i);
  }

  lemma AskFalls(s: State, i: nat)
    requires Inv(s) && Enabled(s, Ask(i))
    ensures Left(Next(s, Ask(i))) < Left(s)
  {
    var p := s.nodes[i].parent.value;
    assert Adjacent(s.tree, i, p);
    hide Inv, Beyond;
    BeyondSize(s.tree, i, p);
    TwoChange(s, Next(s, Ask(i)), i, p);
  }

  lemma ForwardFalls(s: State, i: nat)
    requires Inv(s) && Enabled(s, Forward(i))
    ensures Left(Next(s, Forward(i))) < Left(s)
  {
    var u, p := s.nodes[i].receiver.m.source, s.nodes[i].parent.value;
    assert Adjacent(s.tree, i, u) && Adjacent(s.tree, i, p);
    assert u < |s.nodes| && Adjacent(s.tree, u, i) && EdgeCount(s.nodes[u], s.nodes[i], u, i) == 1;
    assert s.nodes[i].receiver.Forwarding? && s.nodes[i].parent == Some(p);
    ForwardEffect(s, i);
    hide Inv, Beyond, Adjacent;
    BeyondShrinks(s.tree, u, i, p);
    Smaller(Beyond(s.tree, i, p), Beyond(s.tree, u, i));
    TwoChange(s, Next(s, Forward(i)), i, p);
  }

  lemma PassFalls(s: State, i: nat)
    requires Tree(s.tree)
    ensures Enabled(s, Pass(i)) ==> Left(Next(s, Pass(i))) < Left(s)
    ensures Enabled(s, Grant(i)) ==> Left(Next(s, Grant(i))) < Left(s)
  {
    hide Beyond;
    if Enabled(s, Pass(i)) { TwoChange(s, Next(s, Pass(i)), i, s.nodes[i].receiver.m.originator); }
    if Enabled(s, Grant(i)) { TwoChange(s, Next(s, Grant(i)), i, s.nodes[i].deferred.value); }
  }

  /** The actions of a run that happen. */
  function Happened(s: State, run: seq<Action>): nat {
    if run == [] then 0 else
      var n := |run| - 1;
      Happened(s, run[..n]) + One(Enabled(Exec(s, run[..n]), run[n]))
  }

  /** No run goes on for ever, on any tree: there is a bound on how many actions can happen. */
  lemma {:induction false} RunsEnd(s: State, run: seq<Action>)
    requires Inv(s) && Tree(s.tree)
    ensures Happened(s, run) + Left(Exec(s, run)) <= Left(s)
    decreases |run|
  {
    hide Inv, Next, Enabled, Left;
    if run != [] {
      var n := |run| - 1;
      RunsEnd(s, run[..n]);
      ExecInv(s, run[..n]);
      if Enabled(Exec(s, run[..n]), run[n]) { StepFalls(Exec(s, run[..n]), run[n]); }
    }
  }

  // ---- and on a star everybody has been in then ----

  /** The initial tree of the program. */
  predicate Centred(s: State) {
    forall x :: 0 < x < |s.tree| ==> s.tree[x] == 0
  }

  predicate Finished(s: State) {
    forall i :: 0 <= i < |s.nodes| ==> !Star.Unfinished(s, i)
  }

  /** The only states where nothing can happen are those where all rounds are over. */
  lemma StuckIsFinished(s: State)
    requires Reachable(s) && Centred(s)
    ensures (forall a :: !Enabled(s, a)) ==> Finished(s)
  {
    if !Finished(s) {
      var i :| 0 <= i < |s.nodes| && Star.Unfinished(s, i);
      var a := Star.ProgramIsDeadlockFree(s, i);
    }
  }

  /** Every run can be carried on to its end. */
  lemma {:induction false} CanFinish(s: State) returns (run: seq<Action>)
    requires Reachable(s) && Centred(s) && Tree(s.tree)
    ensures Finished(Exec(s, run))
    decreases Left(s)
  {
    hide Next, Enabled, Left, Reachable;
    if Finished(s) {
      run := [];
    } else {
      var i :| 0 <= i < |s.nodes| && Star.Unfinished(s, i);
      var a := Star.ProgramIsDeadlockFree(s, i);
      ReachableInv(s);
      StepFalls(s, a);
      ReachableNext(s, a);
      var rest := CanFinish(Next(s, a));
      run := [a] + rest;
      ExecFirst(s, a, rest);
    }
    hide Inv;
  }

  lemma {:induction false} ExecFirst(s: State, a: Action, run: seq<Action>)
    requires Enabled(s, a)
    ensures Exec(s, [a] + run) == Exec(Next(s, a), run)
    decreases |run|
  {
    hide Next, Enabled;
    if run == [] {
      assert [a] + run == [a] && [a][..0] == [] && Exec(s, []) == s;
    } else {
      assert ([a] + run)[..|run|] == [a] + run[..|run| - 1];
      ExecFirst(s, a, run[..|run| - 1]);
    }
  }

  predicate GoesIn(s: State, a: Action, i: nat) {
    i < |s.nodes| && Enabled(s, a) && !s.nodes[i].main.Critical? && Next(s, a).nodes[i].main.Critical?
  }

  /** How often node i has entered its critical section. */
  function Entered(s: State, run: seq<Action>, i: nat): nat {
    if run == [] then 0 else
      var n := |run| - 1;
      Entered(s, run[..n], i) + One(GoesIn(Exec(s, run[..n]), run[n], i))
  }

  predicate Busy(m: Main) {
    m.Asking? || m.Waiting? || m.Critical?
  }

  lemma EnterStep(s: State, a: Action, i: nat)
    requires Inv(s) && Enabled(s, a) && i < |s.nodes| && (Busy(s.nodes[i].main) ==> s.nodes[i].todo > 0)
    ensures i < |Next(s, a).nodes| && (Busy(Next(s, a).nodes[i].main) ==> Next(s, a).nodes[i].todo > 0)
    ensures var n, m := s.nodes[i], Next(s, a).nodes[i];
            m.todo + One(n.main.Critical?) + One(GoesIn(s, a, i)) == n.todo + One(m.main.Critical?)
  {
    if i == a.i { OwnEnterStep(s, a); } else { OtherEnterStep(s, a, i); }
    hide Inv, Next, Enabled, Busy, GoesIn;
  }

  lemma OwnEnterStep(s: State, a: Action)
    requires Enabled(s, a) && (Busy(s.nodes[a.i].main) ==> s.nodes[a.i].todo > 0)
    ensures var n, m := s.nodes[a.i], Next(s, a).nodes[a.i];
            && (Busy(m.main) ==> m.todo > 0)
            && m.todo + One(n.main.Critical?) + One(GoesIn(s, a, a.i)) == n.todo + One(m.main.Critical?)
  {
  }

  lemma OtherEnterStep(s: State, a: Action, i: nat)
    requires Enabled(s, a) && i < |s.nodes| && i != a.i && (Busy(s.nodes[i].main) ==> s.nodes[i].todo > 0)
    ensures var n, m := s.nodes[i], Next(s, a).nodes[i];
            && (Busy(m.main) ==> m.todo > 0)
            && m.todo + One(n.main.Critical?) + One(GoesIn(s, a, i)) == n.todo + One(m.main.Critical?)
  {
  }

  /** Every round passes through the critical section, once: a node has been in it as often as it has done rounds. */
  lemma {:induction false} OncePerRound(s0: State, run: seq<Action>, i: nat)
    requires Initial(s0) && i < |s0.nodes|
    ensures var n := Exec(s0, run).nodes[i];
            && Entered(s0, run, i) + n.todo == s0.nodes[i].todo + One(n.main.Critical?)
            && (Busy(n.main) ==> n.todo > 0)
    decreases |run|
  {
    hide Inv, Enabled, Next;
    if run != [] {
      var n := |run| - 1;
      OncePerRound(s0, run[..n], i);
      InitialInv(s0);
      ExecInv(s0, run[..n]);
      hide Busy, GoesIn;
      InIsEnabled(s0, run, i);
      if Enabled(Exec(s0, run[..n]), run[n]) { EnterStep(Exec(s0, run[..n]), run[n], i); }
    }
  }

  lemma {:induction false} InIsEnabled(s0: State, run: seq<Action>, i: nat)
    requires |run| > 0
    ensures GoesIn(Exec(s0, run[..|run| - 1]), run[|run| - 1], i)
            ==> Enabled(Exec(s0, run[..|run| - 1]), run[|run| - 1])
  {
    hide Exec, Enabled;
  }

  /** At the end of a run that cannot be carried on, every node has been in its critical section in each of its
      rounds. */
  lemma {:induction false} EverybodyGetsIn(s0: State, run: seq<Action>, i: nat)
    requires Initial(s0) && Centred(s0) && i < |s0.nodes| && forall a :: !Enabled(Exec(s0, run), a)
    ensures Entered(s0, run, i) == s0.nodes[i].todo
  {
    hide Enabled, Initial;
    OncePerRound(s0, run, i);
    var s := Exec(s0, run);
    assert Reachable(s) && Centred(s);
    StuckIsFinished(s);
    assert !Star.Unfinished(s, i);
  }
}
