/** The barrier lets threads through: whoever wants to begin an attempt can, by way of a reset when the clock is at its
    end. */
module BarrierRuns {
  import opened Counting
  import opened ClockBarrier

  /** The barrier is only closed, and a thread only on its way to it, while the clock is too high. */
  ghost predicate HighOk(s: State) {
    (s.quiesce || exists t :: 0 <= t < |s.pc| && s.pc[t].Full?) ==> s.clock >= s.max
  }

  lemma HighKept(s: State, a: Action)
    requires Reachable(s) && HighOk(s) && Enabled(s, a)
    ensures HighOk(Next(s, a))
  {
    var r := Next(s, a);
    RolloverIsAlone(s, a);
    if t :| 0 <= t < |r.pc| && r.pc[t].Full? {
      assert (a.Start? && a.t == t) || s.pc[t].Full?;
    }
    hide Reachable;
  }

  lemma {:induction false} RunHigh(s0: State, run: seq<Action>)
    requires Initial(s0)
    ensures Reachable(Exec(s0, run)) && HighOk(Exec(s0, run))
    decreases |run|
  {
    hide Next, Enabled;
    if run != [] {
      var n := |run| - 1;
      RunHigh(s0, run[..n]);
      hide Initial, HighOk;
      if Enabled(Exec(s0, run[..n]), run[n]) { HighKept(Exec(s0, run[..n]), run[n]); }
    }
  }

  lemma ReachableHigh(s: State)
    requires Reachable(s)
    ensures HighOk(s)
  {
    hide Initial, HighOk;
    var s0: State, run: seq<Action> :| Initial(s0) && s == Exec(s0, run);
    RunHigh(s0, run);
  }

  /** Nobody comes or goes, and nobody wakes without being woken. */
  predicate Ordinary(run: seq<Action>) {
    forall k :: 0 <= k < |run| ==> run[k].Start? || run[k].Finish? || run[k].Enter? || run[k].Resume?
  }

  /** How many steps a thread is away from waiting in the barrier, at most. */
  function Steps(pc: Pc): nat {
    match pc
    case Out => 0
    case Waiting => 0
    case Full => 1
    case Outside => 2
    case Running(_) => 3
    case Woken => 4
  }

  function AllSteps(pc: seq<Pc>): seq<nat> {
    seq(|pc|, t requires 0 <= t < |pc| => Steps(pc[t]))
  }

  lemma StepsFall(pc: seq<Pc>, t: nat, p: Pc)
    requires t < |pc| && Steps(p) < Steps(pc[t])
    ensures Sum(AllSteps(pc[t := p])) < Sum(AllSteps(pc))
  {
    SumUpdate(AllSteps(pc), t, Steps(p));
    assert AllSteps(pc)[t := Steps(p)] == AllSteps(pc[t := p]);
  }

  /** The next step of a thread on its way into the barrier. */
  function Inward(pc: Pc, t: nat): Action {
    match pc
    case Running(_) => Finish(t)
    case Outside => Start(t)
    case Full => Enter(t)
    case _ => Resume(t)
  }

  /** While the clock is too high, such a step brings the thread nearer, or resets the clock and opens the barrier. */
  lemma InwardStep(s: State, v: nat)
    requires s.clock >= s.max && v < |s.pc| && !s.pc[v].Out? && !s.pc[v].Waiting?
    ensures var a := Inward(s.pc[v], v);
            && Enabled(s, a) && Ordinary([a])
            && var r := Next(s, a);
               if Resets(s, a) then r.clock == 0 && !r.quiesce && r.pc == WakeAll(s.pc)[v := Outside]
               else r.clock == s.clock && Sum(AllSteps(r.pc)) < Sum(AllSteps(s.pc)) && r.pc == s.pc[v := r.pc[v]]
  {
    var a := Inward(s.pc[v], v);
    var r := Next(s, a);
    if !Resets(s, a) { StepsFall(s.pc, v, r.pc[v]); }
  }

  lemma {:induction false} ExecFirst(s: State, a: Action, run: seq<Action>)
    requires Enabled(s, a) && Ordinary([a]) && Ordinary(run)
    ensures Ordinary([a] + run) && Exec(s, [a] + run) == Exec(Next(s, a), run)
    decreases |run|
  {
    hide Next, Enabled;
    assert [a][0] == a;
    if run == [] {
      assert [a] + run == [a] && [a][..0] == [] && Exec(s, []) == s;
    } else {
      assert ([a] + run)[..|run|] == [a] + run[..|run| - 1];
      ExecFirst(s, a, run[..|run| - 1]);
    }
  }

  /** Somebody can still go into the barrier as long as it has not been opened. */
  lemma SomebodyOutside(s: State, t: nat) returns (v: nat)
    requires Reachable(s) && t < |s.pc| && !s.pc[t].Out?
    ensures v < |s.pc| && !s.pc[v].Out? && !s.pc[v].Waiting?
  {
    if s.pc[t].Waiting? { v := BarrierNotStuck(s, t); } else { v := t; }
  }

  /** With the clock at its end, everybody goes to the barrier, the last one resets the clock, and thread t is let
      go. */
  lemma {:induction false} ResetComes(s: State, t: nat) returns (run: seq<Action>)
    requires Reachable(s) && s.clock >= s.max && t < |s.pc| && !s.pc[t].Out?
    ensures Ordinary(run)
    ensures var r := Exec(s, run); Reachable(r) && r.clock == 0 && !r.quiesce && (r.pc[t].Outside? || r.pc[t].Woken?)
    decreases Sum(AllSteps(s.pc))
  {
    var v := SomebodyOutside(s, t);
    var a := Inward(s.pc[v], v);
    InwardStep(s, v);
    ReachableNext(s, a);
    var r := Next(s, a);
    if Resets(s, a) {
      RolloverIsAlone(s, a);
      run := [a];
      OneAction(s, a);
      assert t != v ==> s.pc[t].Out? || InBarrier(s.pc[t]);
    } else {
      var rest := ResetComes(r, t);
      run := [a] + rest;
      ExecFirst(s, a, rest);
    }
    hide Reachable, Next, Enabled;
  }

  lemma {:induction false} OneAction(s: State, a: Action)
    requires Enabled(s, a)
    ensures Exec(s, [a]) == Next(s, a)
  {
    hide Next, Enabled;
    assert [a][..0] == [] && Exec(s, []) == s;
  }

  lemma {:induction false} ExecThen(s: State, run: seq<Action>, more: seq<Action>)
    requires Ordinary(run) && Ordinary(more)
    ensures Ordinary(run + more) && Exec(s, run + more) == Exec(Exec(s, run), more)
    decreases |more|
  {
    hide Next, Enabled;
    if more == [] {
      assert run + more == run;
    } else {
      assert (run + more)[..|run + more| - 1] == run + more[..|more| - 1];
      ExecThen(s, run, more[..|more| - 1]);
    }
  }

  /** With the clock low enough and the barrier open, a thread that is outside it, or on its way out, begins. */
  lemma BeginsNow(s: State, t: nat) returns (run: seq<Action>)
    requires s.clock < s.max && !s.quiesce && t < |s.pc| && (s.pc[t].Outside? || s.pc[t].Woken?)
    ensures Ordinary(run) && Exec(s, run).pc[t].Running?
  {
    if s.pc[t].Outside? {
      run := [Start(t)];
      OneAction(s, Start(t));
    } else {
      var s1 := Next(s, Resume(t));
      OneAction(s1, Start(t));
      ExecFirst(s, Resume(t), [Start(t)]);
      run := [Resume(t)] + [Start(t)];
    }
  }

  /** Whatever the clock and the barrier are, every registered thread can begin an attempt: some schedule, in which
      nobody comes or goes and nobody wakes unasked, takes it there. */
  lemma CanBegin(s: State, t: nat) returns (run: seq<Action>)
    requires Reachable(s) && s.max > 0 && t < |s.pc| && !s.pc[t].Out?
    ensures Ordinary(run) && Exec(s, run).pc[t].Running?
  {
    hide Reachable, Next, Enabled;
    ReachableHigh(s);
    ReachableInv(s);
    if s.pc[t].Running? {
      run := [];
    } else if s.clock < s.max {
      assert !s.pc[t].Waiting?;
      run := BeginsNow(s, t);
    } else {
      var first := ResetComes(s, t);
      var more := BeginsNow(Exec(s, first), t);
      ExecThen(s, first, more);
      run := first + more;
    }
  }
}
