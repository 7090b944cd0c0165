/** The global clock, its overflow and the barrier at which it is reset (stm_internal.h), for any number of
    threads. A step is one access to the clock, or one stretch of a thread under `quiesce_mutex`. */
module ClockBarrier {
  import opened Counting

  /** Outside: registered, between transactions. Running: in an attempt that has incremented the clock `taken`
      times. Full: has read a clock that is too high. Waiting and Woken are inside `stm_quiesce_barrier`: asleep
      on the condition variable, and about to get the mutex back. */
  datatype Pc = Out | Outside | Running(taken: nat) | Full | Waiting | Woken

  /** `max` is VERSION_MAX; `most` is how many timestamps one attempt may take: one in the write-back designs, two
      in the write-through design, whose rollback may need one of its own. */
  datatype State = State(max: nat, most: nat, clock: nat, registered: nat, quiesce: bool, pc: seq<Pc>)

  /** Unregister wakes the waiting thread `woken`, if anybody waits. */
  datatype Action =
    | Register(t: nat) | Unregister(t: nat, woken: nat) | Start(t: nat) | Take(t: nat) | Finish(t: nat)
    | Enter(t: nat) | Wake(t: nat) | Resume(t: nat)

  predicate NobodyWaits(s: State) {
    forall u :: 0 <= u < |s.pc| ==> !s.pc[u].Waiting?
  }

  predicate Enabled(s: State, a: Action) {
    && a.t < |s.pc|
    && match a
       case Register(t) => s.pc[t].Out?
       case Unregister(t, u) => s.pc[t].Outside? && (!s.quiesce || NobodyWaits(s) || (u < |s.pc| && s.pc[u].Waiting?))
       case Start(t) => s.pc[t].Outside?
       case Take(t) => s.pc[t].Running? && s.pc[t].taken < s.most
       case Finish(t) => s.pc[t].Running?
       case Enter(t) => s.pc[t].Full?
       case Wake(t) => s.pc[t].Waiting?
       case Resume(t) => s.pc[t].Woken?
  }

  function Less(n: nat): nat {
    if n > 0 then n - 1 else 0
  }

  /** pthread_cond_broadcast. */
  function WakeAll(pc: seq<Pc>): (r: seq<Pc>)
    ensures |r| == |pc| && forall u :: 0 <= u < |pc| ==> r[u] == if pc[u].Waiting? then Woken else pc[u]
  {
    seq(|pc|, u requires 0 <= u < |pc| => if pc[u].Waiting? then Woken else pc[u])
  }

  /** The loop of `stm_quiesce_barrier`, up to where the thread waits or leaves. */
  function Barrier(s: State, t: nat): State
    requires t < |s.pc|
  {
    if s.quiesce && s.registered == 0 then
      s.(clock := 0, quiesce := false, registered := 1, pc := WakeAll(s.pc)[t := Outside])
    else if s.quiesce then s.(pc := s.pc[t := Waiting])
    else s.(registered := s.registered + 1, pc := s.pc[t := Outside])
  }

  function Next(s: State, a: Action): (r: State)
    requires Enabled(s, a)
    ensures |r.pc| == |s.pc| && r.max == s.max && r.most == s.most
  {
    match a
    case Register(t) => s.(registered := s.registered + 1, pc := s.pc[t := Outside])
    case Unregister(t, u) =>
      var pc := s.pc[t := Out];
      s.(registered := Less(s.registered), pc := if s.quiesce && u < |pc| && pc[u].Waiting? then pc[u := Woken] else pc)
    case Start(t) => s.(pc := s.pc[t := if s.clock >= s.max then Full else Running(0)])
    case Take(t) => s.(clock := s.clock + 1, pc := s.pc[t := Running(s.pc[t].taken + 1)])
    case Finish(t) => s.(pc := s.pc[t := Outside])
    case Enter(t) => Barrier(s.(registered := Less(s.registered), quiesce := true), t)
    case Wake(t) => s.(pc := s.pc[t := Woken])
    case Resume(t) => Barrier(s, t)
  }

  predicate Initial(s: State) {
    s.clock == 0 && s.registered == 0 && !s.quiesce && forall t :: 0 <= t < |s.pc| ==> s.pc[t].Out?
  }

  // ---- the invariant ----

  predicate InBarrier(pc: Pc) {
    pc.Waiting? || pc.Woken?
  }

  /** Registered threads that are not inside the barrier. */
  function Elsewhere(pc: seq<Pc>): nat {
    if pc == [] then 0 else Elsewhere(pc[..|pc| - 1]) + One(!pc[|pc| - 1].Out? && !InBarrier(pc[|pc| - 1]))
  }

  /** Timestamps a thread may still take in its attempt. */
  function Due(most: nat, pc: Pc): nat {
    if pc.Running? && pc.taken < most then most - pc.taken else 0
  }

  function AllDue(most: nat, pc: seq<Pc>): nat {
    if pc == [] then 0 else AllDue(most, pc[..|pc| - 1]) + Due(most, pc[|pc| - 1])
  }

  ghost predicate CountOk(s: State) {
    s.registered == Elsewhere(s.pc)
  }

  /** Once the clock has reached the maximum, only the attempts that run already can move it. */
  ghost predicate ClockOk(s: State) {
    s.clock >= s.max > 0 ==> s.clock + AllDue(s.most, s.pc) <= s.max - 1 + s.most * |s.pc|
  }

  /** While somebody waits, somebody is not yet at the barrier, or is awake in it. */
  ghost predicate WaitersOk(s: State) {
    NobodyWaits(s) || (s.quiesce && (s.registered > 0 || exists u :: 0 <= u < |s.pc| && s.pc[u].Woken?))
  }

  ghost predicate Inv(s: State) {
    CountOk(s) && ClockOk(s) && WaitersOk(s)
  }

  lemma {:induction false} CountUpdate(most: nat, pc: seq<Pc>, t: nat, p: Pc)
    requires t < |pc|
    ensures Elsewhere(pc[t := p]) + One(!pc[t].Out? && !InBarrier(pc[t]))
            == Elsewhere(pc) + One(!p.Out? && !InBarrier(p))
    ensures AllDue(most, pc[t := p]) + Due(most, pc[t]) == AllDue(most, pc) + Due(most, p)
    decreases |pc|
  {
    var n := |pc| - 1;
    if t < n {
      CountUpdate(most, pc[..n], t, p);
      assert pc[t := p][..n] == pc[..n][t := p];
    } else {
      assert pc[t := p][..n] == pc[..n];
    }
  }

  lemma {:induction false} CountZero(pc: seq<Pc>, t: nat)
    requires t < |pc| && Elsewhere(pc) == 0
    ensures pc[t].Out? || InBarrier(pc[t])
    decreases |pc|
  {
    if t < |pc| - 1 { CountZero(pc[..|pc| - 1], t); }
  }

  lemma {:induction false} DueBound(most: nat, pc: seq<Pc>)
    ensures AllDue(most, pc) <= most * |pc|
    decreases |pc|
  {
    if pc != [] {
      DueBound(most, pc[..|pc| - 1]);
      assert most * |pc| == most * (|pc| - 1) + most;
    }
  }

  lemma {:induction false} CountWoken(most: nat, pc: seq<Pc>)
    ensures Elsewhere(WakeAll(pc)) == Elsewhere(pc) && AllDue(most, WakeAll(pc)) == AllDue(most, pc)
    decreases |pc|
  {
    if pc != [] {
      CountWoken(most, pc[..|pc| - 1]);
      assert WakeAll(pc)[..|pc| - 1] == WakeAll(pc[..|pc| - 1]);
    }
  }

  lemma {:induction false} CountNone(most: nat, pc: seq<Pc>)
    requires forall t :: 0 <= t < |pc| ==> pc[t].Out?
    ensures Elsewhere(pc) == 0 && AllDue(most, pc) == 0
    decreases |pc|
  {
    if pc != [] { CountNone(most, pc[..|pc| - 1]); }
  }

  lemma InitialInv(s: State)
    requires Initial(s)
    ensures Inv(s)
  {
    CountNone(s.most, s.pc);
  }

  lemma {:induction false} CountPositive(pc: seq<Pc>, t: nat)
    requires t < |pc| && !pc[t].Out? && !InBarrier(pc[t])
    ensures Elsewhere(pc) > 0
    decreases |pc|
  {
    if t < |pc| - 1 { CountPositive(pc[..|pc| - 1], t); }
  }

  /** The counts after a thread has gone through the loop of the barrier. */
  lemma BarrierCounts(s: State, t: nat)
    requires t < |s.pc| && s.pc[t].Woken? && s.registered == Elsewhere(s.pc) && ClockOk(s)
    ensures CountOk(Barrier(s, t)) && ClockOk(Barrier(s, t))
  {
    CountWoken(s.most, s.pc);
    CountUpdate(s.most, s.pc, t, Waiting);
    CountUpdate(s.most, s.pc, t, Outside);
    CountUpdate(s.most, WakeAll(s.pc), t, Outside);
    DueBound(s.most, WakeAll(s.pc)[t := Outside]);
    hide Elsewhere, AllDue;
  }

  lemma CountsKept(s: State, a: Action)
    requires Inv(s) && Enabled(s, a)
    ensures CountOk(Next(s, a)) && ClockOk(Next(s, a))
  {
    var r := Next(s, a);
    if a.Resume? {
      BarrierCounts(s, a.t);
    } else if a.Enter? {
      EnterCounts(s, a.t);
    } else if a.Unregister? {
      CountPositive(s.pc, a.t);
      CountUpdate(s.most, s.pc, a.t, Out);
      if s.quiesce && a.woken < |s.pc| && s.pc[a.t := Out][a.woken].Waiting? {
        CountUpdate(s.most, s.pc[a.t := Out], a.woken, Woken);
      }
      hide Elsewhere, AllDue;
    } else {
      CountUpdate(s.most, s.pc, a.t, r.pc[a.t]);
      DueBound(s.most, r.pc);
      DueBound(s.most, s.pc);
      hide Elsewhere, AllDue;
      assert r.pc == s.pc[a.t := r.pc[a.t]];
    }
  }

  /** Entering is giving up one's place outside and then going through the loop like a woken thread. */
  lemma EnterCounts(s: State, t: nat)
    requires CountOk(s) && ClockOk(s) && t < |s.pc| && s.pc[t].Full?
    ensures var r := Next(s, Enter(t)); CountOk(r) && ClockOk(r)
  {
    var s1 := s.(registered := Less(s.registered), quiesce := true, pc := s.pc[t := Woken]);
    CountPositive(s.pc, t);
    CountUpdate(s.most, s.pc, t, Woken);
    hide Elsewhere, AllDue;
    BarrierCounts(s1, t);
    EnterIsBarrier(s, t);
  }

  lemma EnterIsBarrier(s: State, t: nat)
    requires t < |s.pc| && s.pc[t].Full?
    ensures Next(s, Enter(t))
            == Barrier(s.(registered := Less(s.registered), quiesce := true, pc := s.pc[t := Woken]), t)
  {
    assert WakeAll(s.pc[t := Woken])[t := Outside] == WakeAll(s.pc)[t := Outside];
  }

  lemma WaitersKept(s: State, a: Action)
    requires Inv(s) && Enabled(s, a)
    ensures WaitersOk(Next(s, a))
  {
    var r := Next(s, a);
    CountsKept(s, a);
    if !NobodyWaits(s) && s.registered == 0 {
      var u :| 0 <= u < |s.pc| && s.pc[u].Woken?;
      assert u != a.t ==> r.pc[u].Woken? || NobodyWaits(r);
    }
    if a.Wake? {
      assert r.pc[a.t].Woken?;
    }
    if a.Unregister? && s.quiesce && a.woken < |s.pc| && s.pc[a.woken].Waiting? {
      assert r.pc[a.woken].Woken?;
    }
    if a.Unregister? && s.quiesce && NobodyWaits(s) {
      assert forall u :: 0 <= u < |r.pc| ==> r.pc[u].Waiting? ==> s.pc[u].Waiting?;
    }
    if a.Finish? || a.Start? || a.Take? { CountPositive(s.pc, a.t); }
    hide Elsewhere, AllDue;
  }

  // ---- every run ----

  function Exec(s: State, run: seq<Action>): (r: State)
    ensures |r.pc| == |s.pc| && r.max == s.max && r.most == s.most
    decreases |run|
  {
    if run == [] then s else
      var before := Exec(s, run[..|run| - 1]);
      if Enabled(before, run[|run| - 1]) then Next(before, run[|run| - 1]) else before
  }

  lemma {:induction false} ExecInv(s: State, run: seq<Action>)
    requires Inv(s)
    ensures Inv(Exec(s, run))
    decreases |run|
  {
    hide CountOk, ClockOk, WaitersOk, Enabled, Next;
    if run != [] {
      ExecInv(s, run[..|run| - 1]);
      var before := Exec(s, run[..|run| - 1]);
      if Enabled(before, run[|run| - 1]) {
        CountsKept(before, run[|run| - 1]);
        WaitersKept(before, run[|run| - 1]);
      }
    }
  }

  ghost predicate Reachable(s: State) {
    exists s0: State, run: seq<Action> :: Initial(s0) && s == Exec(s0, run)
  }

  lemma ReachableInv(s: State)
    requires Reachable(s)
    ensures Inv(s)
  {
    hide Inv, Initial;
    var s0: State, run: seq<Action> :| Initial(s0) && s == Exec(s0, run);
    InitialInv(s0);
    ExecInv(s0, run);
  }

  /** When no attempt takes more than `most` timestamps, the clock passes VERSION_MAX by less than `most` for each
      thread. That attempts take one in the write-back designs and up to two in the write-through design is shown
      for the transactional machines, which tell when it is reached. */
  lemma ClockIsBounded(s: State)
    requires Reachable(s) && s.max > 0
    ensures s.clock <= s.max - 1 + s.most * |s.pc|
  {
    ReachableInv(s);
    assert s.most * |s.pc| >= 0;
  }

  lemma ReachableNext(s: State, a: Action)
    requires Reachable(s) && Enabled(s, a)
    ensures Reachable(Next(s, a))
  {
    hide Initial, Enabled, Next;
    var s0: State, run: seq<Action> :| Initial(s0) && s == Exec(s0, run);
    assert (run + [a])[..|run + [a]| - 1] == run;
    assert Next(s, a) == Exec(s0, run + [a]);
  }

  predicate Resets(s: State, a: Action) {
    && Enabled(s, a)
    && ((a.Enter? && Less(s.registered) == 0) || (a.Resume? && s.quiesce && s.registered == 0))
  }

  /** The clock is reset only when every registered thread is inside the barrier, so that no transaction runs,
      and everybody who waits is released. */
  lemma RolloverIsAlone(s: State, a: Action)
    requires Reachable(s) && Enabled(s, a)
    ensures Resets(s, a) ==>
              && Next(s, a).clock == 0
              && (forall u :: 0 <= u < |s.pc| && u != a.t ==> s.pc[u].Out? || InBarrier(s.pc[u]))
              && NobodyWaits(Next(s, a))
    ensures !Resets(s, a) ==> s.clock <= Next(s, a).clock
  {
    ReachableInv(s);
    if Resets(s, a) {
      var pc := s.pc[a.t := Woken];
      CountUpdate(s.most, s.pc, a.t, Woken);
      if a.Enter? { CountPositive(s.pc, a.t); }
      forall u | 0 <= u < |s.pc| && u != a.t
        ensures s.pc[u].Out? || InBarrier(s.pc[u])
      {
        CountZero(pc, u);
        assert pc[u] == s.pc[u];
      }
    }
    hide Elsewhere, AllDue;
  }

  /** After the reset everybody is outside, or on the way there. */
  lemma ResetOpens(s: State, a: Action)
    requires Reachable(s) && Resets(s, a)
    ensures forall u :: 0 <= u < |s.pc| ==> !s.pc[u].Running? && !Next(s, a).pc[u].Running?
  {
    RolloverIsAlone(s, a);
    hide Elsewhere, AllDue, Reachable;
  }

  lemma {:induction false} CountWitness(pc: seq<Pc>) returns (t: nat)
    requires Elsewhere(pc) > 0
    ensures t < |pc| && !pc[t].Out? && !InBarrier(pc[t])
    decreases |pc|
  {
    if !pc[|pc| - 1].Out? && !InBarrier(pc[|pc| - 1]) { t := |pc| - 1; } else { t := CountWitness(pc[..|pc| - 1]); }
  }

  /** Nobody waits at the barrier for ever unless a thread that is registered stays away from it. */
  lemma BarrierNotStuck(s: State, u: nat) returns (t: nat)
    requires Reachable(s) && u < |s.pc| && s.pc[u].Waiting?
    ensures t < |s.pc| && (s.pc[t].Woken? || (!s.pc[t].Out? && !InBarrier(s.pc[t])))
  {
    ReachableInv(s);
    if s.registered > 0 {
      t := CountWitness(s.pc);
    } else {
      t :| 0 <= t < |s.pc| && s.pc[t].Woken?;
    }
  }

  // ---- the program ----

  /** The clock, the counters guarded by `quiesce_mutex`, and the threads. */
  class Registry {
    const max: nat
    const most: nat
    var clock: nat
    var registered: nat
    var quiesce: bool
    var pc: array<Pc>

    ghost function Abs(): State
      reads this, pc
    {
      State(max, most, clock, registered, quiesce, pc[..])
    }

    constructor (n: nat, max: nat, most: nat)
      ensures Initial(Abs()) && pc.Length == n && this.max == max && this.most == most && fresh(pc)
    {
      this.max, this.most, clock, registered, quiesce := max, most, 0, 0, false;
      pc := new Pc[n](_ => Out);
    }

    /** `stm_quiesce_enter_thread`. */
    method Register(t: nat)
      requires Enabled(Abs(), Action.Register(t))
      modifies this`registered, pc
      ensures Abs() == Next(old(Abs()), Action.Register(t))
    {
      registered := registered + 1;
      pc[t] := Outside;
    }

    /** `stm_quiesce_exit_thread`: when the barrier is closed, the waiting thread u is signalled. */
    method Unregister(t: nat, u: nat)
      requires Enabled(Abs(), Action.Unregister(t, u))
      modifies this`registered, pc
      ensures Abs() == Next(old(Abs()), Action.Unregister(t, u))
    {
      registered := if registered > 0 then registered - 1 else 0;
      pc[t] := Out;
      if quiesce && u < pc.Length && pc[u].Waiting? {
        pc[u] := Woken;
      }
    }

    /** The end of an attempt. */
    method Finish(t: nat)
      requires Enabled(Abs(), Action.Finish(t))
      modifies pc
      ensures Abs() == Next(old(Abs()), Action.Finish(t))
    {
      pc[t] := Outside;
    }

    /** A thread that waits on the condition variable is woken, and has the mutex again. */
    method Wake(t: nat)
      requires Enabled(Abs(), Action.Wake(t))
      modifies pc
      ensures Abs() == Next(old(Abs()), Action.Wake(t))
    {
      pc[t] := Woken;
    }

    method Resume(t: nat)
      requires Enabled(Abs(), Action.Resume(t))
      modifies this`clock, this`registered, this`quiesce, pc
      ensures pc == old(pc) && Abs() == Next(old(Abs()), Action.Resume(t))
    {
      Loop(t);
    }

    /** The start of an attempt: one reading of the clock. */
    method Start(t: nat)
      requires Enabled(Abs(), Action.Start(t))
      modifies pc
      ensures Abs() == Next(old(Abs()), Action.Start(t))
    {
      pc[t] := if clock >= max then Full else Running(0);
    }

    /** The fetch-and-increment. */
    method Take(t: nat) returns (timestamp: nat)
      requires Enabled(Abs(), Action.Take(t))
      modifies this`clock, pc
      ensures Abs() == Next(old(Abs()), Action.Take(t)) && timestamp == clock
    {
      clock := clock + 1;
      timestamp := clock;
      pc[t] := Running(pc[t].taken + 1);
    }

    /** `stm_quiesce_barrier` from its beginning. */
    method Enter(t: nat)
      requires Enabled(Abs(), Action.Enter(t))
      modifies this`clock, this`registered, this`quiesce, pc
      ensures pc == old(pc) && Abs() == Next(old(Abs()), Action.Enter(t))
    {
      registered := if registered > 0 then registered - 1 else 0;
      if !quiesce {
        quiesce := true;
      }
      Loop(t);
    }

    /** Its loop, each time the thread has the mutex. */
    method Loop(t: nat)
      requires t < pc.Length
      modifies this`clock, this`registered, this`quiesce, pc
      ensures pc == old(pc) && Abs() == Barrier(old(Abs()), t)
    {
      if quiesce && registered == 0 {
        clock := 0;
        quiesce := false;
        Broadcast();
      } else if quiesce {
        pc[t] := Waiting;
        return;
      }
      registered := registered + 1;
      pc[t] := Outside;
    }

    method Broadcast()
      modifies pc
      ensures pc[..] == WakeAll(old(pc[..]))
    {
      for u := 0 to pc.Length
        invariant forall v :: 0 <= v < u ==> pc[v] == if old(pc[v]).Waiting? then Woken else old(pc[v])
        invariant forall v :: u <= v < pc.Length ==> pc[v] == old(pc[v])
      {
        if pc[u].Waiting? {
          pc[u] := Woken;
        }
      }
    }
  }
}
