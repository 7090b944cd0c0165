/** The three-state futex mutex (futex/mutex_drepper.c), for any number of threads. One step is one access to
    the word or one system call; the kernel puts a waiter to sleep only while the word is 2, and wakes one
    sleeper, or a sleeper wakes on its own. */
module DrepperMutex {

  /** TryCas, Exchange, Wait, Asleep: `lock`. StoreZero, Wake: the rest of an `unlock` that found waiters. */
  datatype Pc = Idle | TryCas | Exchange | Wait | Asleep | Critical | StoreZero | Wake

  /** 0 is unlocked, 1 locked, 2 locked with waiters. */
  datatype State = State(futex: int, pc: seq<Pc>)

  /** `Step` is the thread's own next step; `WakeUp` a sleeper returning from its system call for no reason. In
      `Wake` the kernel picks the sleeper. */
  datatype Action = Step(t: nat) | WakeOne(t: nat, sleeper: nat) | WakeUp(t: nat)

  predicate NobodySleeps(s: State) {
    forall u :: 0 <= u < |s.pc| ==> !s.pc[u].Asleep?
  }

  predicate Enabled(s: State, a: Action) {
    && a.t < |s.pc|
    && match a
       case Step(t) => !s.pc[t].Asleep? && (s.pc[t].Wake? ==> NobodySleeps(s))
       case WakeOne(t, u) => s.pc[t].Wake? && u < |s.pc| && s.pc[u].Asleep?
       case WakeUp(t) => s.pc[t].Asleep?
  }

  function Next(s: State, a: Action): (r: State)
    requires Enabled(s, a)
    ensures |r.pc| == |s.pc|
  {
    match a
    case WakeOne(t, u) => s.(pc := s.pc[t := Idle][u := Exchange])
    case WakeUp(t) => s.(pc := s.pc[t := Exchange])
    case Step(t) =>
      match s.pc[t]
      case Idle => s.(pc := s.pc[t := TryCas])
      case TryCas =>
        if s.futex == 0 then State(1, s.pc[t := Critical])
        else s.(pc := s.pc[t := if s.futex == 2 then Wait else Exchange])
      case Exchange => State(2, s.pc[t := if s.futex == 0 then Critical else Wait])
      case Wait => s.(pc := s.pc[t := if s.futex == 2 then Asleep else Exchange])
      case Critical => State(s.futex - 1, s.pc[t := if s.futex != 1 then StoreZero else Idle])
      case StoreZero => State(0, s.pc[t := Wake])
      case Wake => s.(pc := s.pc[t := Idle])
      case Asleep => s
  }

  predicate Initial(s: State) {
    s.futex == 0 && forall t :: 0 <= t < |s.pc| ==> s.pc[t] == Idle
  }

  // ---- the invariant ----

  /** Holds the lock, or has not yet written that it no longer does. */
  predicate Owner(pc: Pc) {
    pc.Critical? || pc.StoreZero?
  }

  /** Will see to it that a sleeper is woken, or that the word says that there are some. */
  predicate Owing(pc: Pc) {
    pc.StoreZero? || pc.Wake? || pc.Exchange?
  }

  ghost predicate OwnersOk(s: State) {
    && 0 <= s.futex <= 2
    && (forall t :: 0 <= t < |s.pc| && Owner(s.pc[t]) ==> s.futex != 0)
    && (forall t, u :: 0 <= t < |s.pc| && 0 <= u < |s.pc| && Owner(s.pc[t]) && Owner(s.pc[u]) ==> t == u)
    && (s.futex != 0 ==> exists t :: 0 <= t < |s.pc| && Owner(s.pc[t]))
  }

  ghost predicate SleepersOk(s: State) {
    s.futex == 2 || NobodySleeps(s) || exists t :: 0 <= t < |s.pc| && Owing(s.pc[t])
  }

  ghost predicate Inv(s: State) {
    OwnersOk(s) && SleepersOk(s)
  }

  lemma OwnersKept(s: State, a: Action)
    requires OwnersOk(s) && Enabled(s, a)
    ensures OwnersOk(Next(s, a))
  {
    var r := Next(s, a);
    if r.futex != 0 {
      if s.futex != 0 {
        var t :| 0 <= t < |s.pc| && Owner(s.pc[t]);
        assert Owner(r.pc[t]);
      } else {
        assert Owner(r.pc[a.t]);
      }
    }
  }

  lemma SleepersKept(s: State, a: Action)
    requires Inv(s) && Enabled(s, a)
    ensures SleepersOk(Next(s, a))
  {
    var r := Next(s, a);
    if s.futex != 2 && !NobodySleeps(s) {
      var t :| 0 <= t < |s.pc| && Owing(s.pc[t]);
      if a.WakeOne? {
        assert Owing(r.pc[a.sleeper]);
      } else if t == a.t {
        assert r.futex == 2 || Owing(r.pc[t]);
      } else {
        assert Owing(r.pc[t]);
      }
    } else if a.WakeOne? {
      assert Owing(r.pc[a.sleeper]);
    } else if s.futex == 2 && r.futex != 2 {
      assert Owing(r.pc[a.t]);
    } else if s.futex != 2 {
      forall u | 0 <= u < |r.pc|
        ensures !r.pc[u].Asleep?
      {
        assert !s.pc[u].Asleep?;
      }
    }
  }

  function Exec(s: State, run: seq<Action>): State
    decreases |run|
  {
    if run == [] then s else
      var before := Exec(s, run[..|run| - 1]);
      if Enabled(before, run[|run| - 1]) then Next(before, run[|run| - 1]) else before
  }

  lemma {:induction false} ExecInv(s: State, run: seq<Action>)
    requires Inv(s)
    ensures Inv(Exec(s, run))
    decreases |run|
  {
    hide OwnersOk, SleepersOk, Enabled, Next;
    if run != [] {
      ExecInv(s, run[..|run| - 1]);
      var before := Exec(s, run[..|run| - 1]);
      if Enabled(before, run[|run| - 1]) {
        OwnersKept(before, run[|run| - 1]);
        SleepersKept(before, run[|run| - 1]);
      }
    }
  }

  ghost predicate Reachable(s: State) {
    exists s0: State, run: seq<Action> :: Initial(s0) && s == Exec(s0, run)
  }

  lemma ReachableInv(s: State)
    requires Reachable(s)
    ensures Inv(s)
  {
    var s0: State, run: seq<Action> :| Initial(s0) && s == Exec(s0, run);
    assert Inv(s0);
    ExecInv(s0, run);
  }

  /** At most one thread is between `lock` and `unlock`, and the word never leaves its three values. */
  lemma MutualExclusion(s: State, t: nat, u: nat)
    requires Reachable(s) && t < |s.pc| && u < |s.pc| && s.pc[t].Critical? && s.pc[u].Critical?
    ensures t == u && 1 <= s.futex <= 2
  {
    ReachableInv(s);
  }

  /** No wake-up is lost: while a thread sleeps, the word is 2, so that the owner will wake somebody, or an
      unlocker still owes a wake, or an awake waiter is about to write 2. */
  lemma SleepersAreRemembered(s: State, u: nat)
    requires Reachable(s) && u < |s.pc| && s.pc[u].Asleep?
    ensures || (s.futex == 2 && exists t :: 0 <= t < |s.pc| && Owner(s.pc[t]))
            || exists t :: 0 <= t < |s.pc| && (s.pc[t].StoreZero? || s.pc[t].Wake? || s.pc[t].Exchange?)
  {
    ReachableInv(s);
    if s.futex != 2 {
      var t :| 0 <= t < |s.pc| && Owing(s.pc[t]);
      assert s.pc[t].StoreZero? || s.pc[t].Wake? || s.pc[t].Exchange?;
    }
  }

  /** Nobody is left asleep: when some thread sleeps, some thread is awake and inside `lock` or `unlock`, or
      between them. */
  lemma SomebodyIsAwake(s: State, u: nat) returns (k: nat)
    requires Reachable(s) && u < |s.pc| && s.pc[u].Asleep?
    ensures k < |s.pc| && !s.pc[k].Asleep? && !s.pc[k].Idle?
  {
    SleepersAreRemembered(s, u);
    if t :| 0 <= t < |s.pc| && (s.pc[t].StoreZero? || s.pc[t].Wake? || s.pc[t].Exchange?) {
      k := t;
    } else {
      k :| 0 <= k < |s.pc| && Owner(s.pc[k]);
    }
  }

  // ---- getting in and out ----

  lemma ReachableNext(s: State, a: Action)
    requires Reachable(s) && Enabled(s, a)
    ensures Reachable(Next(s, a))
  {
    hide Initial, Enabled, Next;
    var s0: State, run: seq<Action> :| Initial(s0) && s == Exec(s0, run);
    assert (run + [a])[..|run + [a]| - 1] == run;
    assert Next(s, a) == Exec(s0, run + [a]);
  }

  /** A thread that finds nobody else is in after two steps, and out after one more, with the word back at 0. */
  lemma EntersAlone(s: State, t: nat)
    requires Reachable(s) && t < |s.pc| && forall u :: 0 <= u < |s.pc| ==> s.pc[u].Idle?
    ensures s.futex == 0
    ensures var r := Next(s, Step(t));
            var r' := Next(r, Step(t));
            r' == State(1, s.pc[t := Critical]) && Next(r', Step(t)) == s
  {
    ReachableInv(s);
    assert s.pc[t := Idle] == s.pc;
  }

  predicate Trying(pc: Pc) {
    pc.TryCas? || pc.Exchange? || pc.Wait? || pc.Asleep?
  }

  lemma ExecTwo(s: State, a: Action, b: Action)
    requires Enabled(s, a)
    ensures Exec(s, [a]) == Next(s, a)
    ensures Enabled(Next(s, a), b) ==> Exec(s, [a, b]) == Next(Next(s, a), b)
  {
    assert [a, b][..1] == [a] && [a][..0] == [];
  }

  /** With the word at 0 and a thread trying, somebody gets in within two steps: a thread that is awake, or one that
      is woken for it. */
  lemma FreeEntry(s: State, i: nat) returns (run: seq<Action>, k: nat)
    requires Inv(s) && i < |s.pc| && Trying(s.pc[i]) && s.futex == 0
    ensures k < |Exec(s, run).pc| && Exec(s, run).pc[k].Critical? && forall q :: 0 <= q < |run| ==> !run[q].WakeUp?
  {
    k := i;
    if s.pc[i].TryCas? || s.pc[i].Exchange? {
      run := [Step(i)];
      ExecTwo(s, Step(i), Step(i));
    } else if s.pc[i].Wait? {
      run := [Step(i), Step(i)];
      ExecTwo(s, Step(i), Step(i));
    } else {
      var t :| 0 <= t < |s.pc| && Owing(s.pc[t]);
      if s.pc[t].Exchange? {
        k, run := t, [Step(t)];
        ExecTwo(s, Step(t), Step(t));
      } else {
        assert !Owner(s.pc[t]);
        run := [WakeOne(t, i), Step(i)];
        ExecTwo(s, WakeOne(t, i), Step(i));
      }
    }
  }

  /** Whatever has happened, whoever is trying, asleep or not, some run brings somebody in, and nobody returns from
      the kernel without cause for it. */
  lemma EntryPossible(s: State, i: nat) returns (run: seq<Action>, k: nat)
    requires Reachable(s) && i < |s.pc| && Trying(s.pc[i])
    ensures k < |Exec(s, run).pc| && Exec(s, run).pc[k].Critical? && forall q :: 0 <= q < |run| ==> !run[q].WakeUp?
  {
    ReachableInv(s);
    run, k := [], i;
    if c :| 0 <= c < |s.pc| && s.pc[c].Critical? {
      k := c;
    } else if s.futex == 0 {
      run, k := FreeEntry(s, i);
    } else {
      var q :| 0 <= q < |s.pc| && Owner(s.pc[q]);
      OwnersKept(s, Step(q));
      SleepersKept(s, Step(q));
      run, k := FreeEntry(Next(s, Step(q)), i);
      ExecFirst(s, Step(q), run);
      run := [Step(q)] + run;
    }
  }

  lemma {:induction false} ExecFirst(s: State, a: Action, run: seq<Action>)
    requires Enabled(s, a)
    ensures Exec(s, [a] + run) == Exec(Next(s, a), run)
    decreases |run|
  {
    hide Next;
    var all := [a] + run;
    if run == [] {
      assert all[..0] == [] && Exec(s, []) == s;
    } else {
      ExecFirst(s, a, run[..|run| - 1]);
      assert all[..|all| - 1] == [a] + run[..|run| - 1];
    }
  }

  /** Whoever is in can leave: at once when nobody waits, else it wakes a sleeper if there is one. */
  lemma Leaves(s: State, t: nat)
    requires Reachable(s) && t < |s.pc| && s.pc[t].Critical?
    ensures var r := Next(s, Step(t));
            if s.futex == 1 then r == State(0, s.pc[t := Idle]) else
              var r' := Next(r, Step(t));
              r'.futex == 0 && r'.pc == s.pc[t := Wake]
              && forall u :: 0 <= u < |s.pc| && s.pc[u].Asleep? ==>
                   Enabled(r', WakeOne(t, u)) && Next(r', WakeOne(t, u)).pc == s.pc[t := Idle][u := Exchange]
  {
    ReachableInv(s);
    var r := Next(s, Step(t));
    var r' := Next(r, Step(t));
    if s.futex != 1 {
      forall u | 0 <= u < |s.pc| && s.pc[u].Asleep?
        ensures Enabled(r', WakeOne(t, u)) && Next(r', WakeOne(t, u)).pc == s.pc[t := Idle][u := Exchange]
      {
        assert r'.pc[u].Asleep?;
        assert s.pc[t := Wake][t := Idle] == s.pc[t := Idle];
      }
    }
  }

  // ---- the program ----

  class Machine {
    var futex: int
    var pc: array<Pc>

    ghost function Abs(): State
      reads this, pc
    {
      State(futex, pc[..])
    }

    constructor (n: nat)
      ensures Initial(Abs()) && pc.Length == n && fresh(pc)
    {
      futex := 0;
      pc := new Pc[n](_ => Idle);
    }

    /** Thread t makes its next access or system call. */
    method Step(t: nat)
      requires Enabled(Abs(), Action.Step(t))
      modifies this`futex, pc
      ensures pc == old(pc) && Abs() == Next(old(Abs()), Action.Step(t))
    {
      var c := futex;
      match pc[t] {
        case Idle => pc[t] := TryCas;
        case TryCas =>
          if c == 0 { futex := 1; pc[t] := Critical; } else { pc[t] := if c != 2 then Exchange else Wait; }
        case Exchange => futex := 2; pc[t] := if c != 0 then Wait else Critical;
        case Wait => pc[t] := if c == 2 then Asleep else Exchange;
        case Critical => futex := c - 1; pc[t] := if c != 1 then StoreZero else Idle;
        case StoreZero => futex := 0; pc[t] := Wake;
        case Wake => pc[t] := Idle;
        case Asleep =>
      }
    }

    /** FUTEX_WAKE for one thread: `u` is woken, and the caller is done. */
    method WakeOne(t: nat, u: nat)
      requires Enabled(Abs(), Action.WakeOne(t, u))
      modifies pc
      ensures Abs() == Next(old(Abs()), Action.WakeOne(t, u))
    {
      pc[t] := Idle;
      pc[u] := Exchange;
    }

    /** A sleeper returns from its system call although nobody has woken it. */
    method WakeUp(t: nat)
      requires Enabled(Abs(), Action.WakeUp(t))
      modifies pc
      ensures Abs() == Next(old(Abs()), Action.WakeUp(t))
    {
      pc[t] := Exchange;
    }
  }
}
