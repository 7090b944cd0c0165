/** The commit-time locking design together with the barrier at which the clock is reset: runs that go on past
    VERSION_MAX. A thread has access to the transactional memory only while it is registered and not in the
    barrier, and the reset is `rollover_clock`. */
module CtlReset {
  import opened CommitHistory
  import opened CtlMachine
  import opened CtlInvariant
  import CtlTheorems
  import CtlClock
  import B = ClockBarrier

  /** `past` records the histories that ended with a reset. */
  datatype Whole = Whole(stm: State, gate: B.State, past: seq<History>)

  /** An access of thread t to the memory, or what a thread does at the barrier. */
  datatype Action = Access(t: nat, c: Command) | Gate(a: B.Action)

  predicate AtGate(a: B.Action) {
    a.Register? || a.Unregister? || a.Enter? || a.Wake? || a.Resume?
  }

  predicate Enabled(s: Whole, a: Action) {
    match a
    case Access(t, _) =>
      Shape(s.stm) && t < |s.stm.txs| && t < |s.gate.pc| && (s.gate.pc[t].Outside? || s.gate.pc[t].Running?)
    case Gate(g) => AtGate(g) && B.Enabled(s.gate, g)
  }

  /** What the barrier notices of an access: the reading of the clock with which an attempt begins, each timestamp,
      and the end of the attempt. */
  function Noticed(g: B.State, t: nat, c: Command, stm: State, stm': State): B.State
    requires t < |g.pc| && t < |stm'.txs|
  {
    if g.pc[t].Outside? then (if c.Begin? then B.Next(g, B.Start(t)) else g)
    else if stm'.sh.clock > stm.sh.clock && B.Enabled(g, B.Take(t)) then B.Next(g, B.Take(t))
    else if stm'.txs[t].pc.Idle? && B.Enabled(g, B.Finish(t)) then B.Next(g, B.Finish(t))
    else g
  }

  function Next(s: Whole, a: Action): Whole
    requires Enabled(s, a)
  {
    match a
    case Access(t, c) =>
      var stm' := CtlMachine.Next(s.stm, t, c);
      s.(stm := stm', gate := Noticed(s.gate, t, c, s.stm, stm'))
    case Gate(g) =>
      if B.Resets(s.gate, g) then Whole(CtlTheorems.RolledOver(s.stm), B.Next(s.gate, g), s.past + [s.stm.sh.h])
      else s.(gate := B.Next(s.gate, g))
  }

  predicate Initial(s: Whole) {
    && CtlInvariant.Initial(s.stm) && B.Initial(s.gate) && s.past == []
    && s.gate.max == s.stm.sh.max && s.gate.most == 1 && |s.gate.pc| == |s.stm.txs|
  }

  // ---- the invariant ----

  predicate Agrees(pc: Pc, at: B.Pc) {
    if at.Running? then !pc.Idle? && at.taken + CtlClock.Due(pc) <= 1 else pc.Idle?
  }

  /** A history of a run that ended with nobody active. */
  ghost predicate Closed(h: History) {
    exists u: State :: Ended(u, h)
  }

  ghost predicate Ended(u: State, h: History) {
    CtlTheorems.Reachable(u) && u.sh.h == h && forall i :: 0 <= i < |u.txs| ==> u.txs[i].pc.Idle?
  }

  function Last(h: History): seq<Word> {
    MemoryAt(h, |h.commits|)
  }

  /** The history after the k-th. */
  function After(s: Whole, k: nat): History {
    if k + 1 < |s.past| then s.past[k + 1] else s.stm.sh.h
  }

  /** Each history begins with the memory that the one before ended with. */
  ghost predicate PastOk(s: Whole) {
    forall k :: 0 <= k < |s.past| ==> Closed(s.past[k]) && After(s, k).init == Last(s.past[k])
  }

  ghost predicate InStep(s: Whole) {
    && CtlTheorems.Reachable(s.stm) && B.Reachable(s.gate)
    && s.gate.max == s.stm.sh.max && s.gate.most == 1 && s.gate.clock == s.stm.sh.clock
    && |s.gate.pc| == |s.stm.txs|
    && forall t :: 0 <= t < |s.gate.pc| ==> Agrees(s.stm.txs[t].pc, s.gate.pc[t])
  }

  ghost predicate Inv(s: Whole) {
    InStep(s) && PastOk(s)
  }

  lemma InitialInv(s: Whole)
    requires Initial(s)
    ensures Inv(s)
  {
    assert s.stm == CtlTheorems.Exec(s.stm, []) && s.gate == B.Exec(s.gate, []);
  }

  /** An access of a thread between transactions: it begins one, or not. */
  lemma OutsideKeeps(s: Whole, t: nat, c: Command)
    requires InStep(s) && Enabled(s, Access(t, c)) && s.gate.pc[t].Outside?
    ensures InStep(Next(s, Access(t, c)))
  {
    var stm := s.stm;
    assert TxShape(stm.sh, stm.txs[t]) && Agrees(stm.txs[t].pc, s.gate.pc[t]);
    CtlClock.ReachableNext(stm, t, c);
    IdleStays(stm.sh, t, stm.txs[t], c);
    if c.Begin? { B.ReachableNext(s.gate, B.Start(t)); }
    hide CtlTheorems.Reachable, B.Reachable, Shape, Step;
  }

  /** An access within a transaction. */
  lemma RunningKeeps(s: Whole, t: nat, c: Command)
    requires InStep(s) && Enabled(s, Access(t, c)) && s.gate.pc[t].Running?
    ensures InStep(Next(s, Access(t, c)))
  {
    var stm := s.stm;
    assert TxShape(stm.sh, stm.txs[t]) && Agrees(stm.txs[t].pc, s.gate.pc[t]);
    CtlClock.ReachableNext(stm, t, c);
    CtlClock.StepTakes(stm.sh, t, stm.txs[t], c);
    if B.Enabled(s.gate, B.Take(t)) { B.ReachableNext(s.gate, B.Take(t)); }
    if B.Enabled(s.gate, B.Finish(t)) { B.ReachableNext(s.gate, B.Finish(t)); }
    hide CtlTheorems.Reachable, B.Reachable, Shape, Step;
  }

  /** An access is a step of the memory, and at most a step of the barrier. */
  lemma AccessKeeps(s: Whole, t: nat, c: Command)
    requires Inv(s) && Enabled(s, Access(t, c))
    ensures Inv(Next(s, Access(t, c)))
  {
    var s' := Next(s, Access(t, c));
    if s.gate.pc[t].Outside? { OutsideKeeps(s, t, c); } else { RunningKeeps(s, t, c); }
    HistoryStays(s.stm, t, c);
    hide InStep, CtlMachine.Next, Shape, Noticed, Closed;
    forall k | 0 <= k < |s'.past|
      ensures Closed(s'.past[k]) && After(s', k).init == Last(s'.past[k])
    {
      assert Closed(s.past[k]) && After(s, k).init == Last(s.past[k]);
    }
  }

  /** An idle thread does nothing but begin, and only below VERSION_MAX. */
  lemma IdleStays(sh: Shared, i: nat, tx: Tx, c: Command)
    requires SharedShape(sh) && TxShape(sh, tx) && tx.pc.Idle?
    ensures var r := Step(sh, i, tx, c);
            r.sh == sh && (r.tx.pc.Idle? <==> !(c.Begin? && sh.clock < sh.max)) && CtlClock.Due(r.tx.pc) <= 1
  {
  }

  lemma HistoryStays(s: State, i: nat, c: Command)
    requires Shape(s) && i < |s.txs|
    ensures CtlMachine.Next(s, i, c).sh.h.init == s.sh.h.init
  {
    hide Step, SetsShape;
    assert TxShape(s.sh, s.txs[i]);
    ShapeOfStep(s.sh, i, s.txs[i], c);
  }

  /** At the reset every transaction is over, and memory goes on as it is. */
  lemma ResetKeeps(s: Whole, g: B.Action)
    requires Inv(s) && Enabled(s, Gate(g)) && B.Resets(s.gate, g)
    ensures Inv(Next(s, Gate(g)))
    ensures forall i :: 0 <= i < |s.stm.txs| ==> s.stm.txs[i].pc.Idle?
  {
    var s' := Next(s, Gate(g));
    B.RolloverIsAlone(s.gate, g);
    B.ReachableNext(s.gate, g);
    B.ResetOpens(s.gate, g);
    forall i | 0 <= i < |s.stm.txs|
      ensures s.stm.txs[i].pc.Idle?
    {
      assert Agrees(s.stm.txs[i].pc, s.gate.pc[i]);
    }
    CtlTheorems.RolloverStartsAfresh(s.stm);
    CtlTheorems.InitialReachable(s'.stm);
    assert Ended(s.stm, s.stm.sh.h);
    hide CtlTheorems.Reachable, B.Reachable, B.Next, B.Enabled, Ended;
    forall k | 0 <= k < |s'.past|
      ensures Closed(s'.past[k]) && After(s', k).init == Last(s'.past[k])
    {
      if k < |s.past| { assert Closed(s.past[k]) && After(s, k).init == Last(s.past[k]); }
    }
  }

  lemma GateKeeps(s: Whole, g: B.Action)
    requires Inv(s) && Enabled(s, Gate(g)) && !B.Resets(s.gate, g)
    ensures Inv(Next(s, Gate(g)))
  {
    var s' := Next(s, Gate(g));
    B.ReachableNext(s.gate, g);
    hide CtlTheorems.Reachable, B.Reachable;
    forall t | 0 <= t < |s'.gate.pc|
      ensures Agrees(s'.stm.txs[t].pc, s'.gate.pc[t])
    {
      assert Agrees(s.stm.txs[t].pc, s.gate.pc[t]);
    }
    forall k | 0 <= k < |s'.past|
      ensures Closed(s'.past[k]) && After(s', k).init == Last(s'.past[k])
    {
      assert Closed(s.past[k]) && After(s, k).init == Last(s.past[k]);
    }
  }

  // ---- every run, with resets ----

  function Exec(s: Whole, run: seq<Action>): Whole
    decreases |run|
  {
    if run == [] then s else
      var before := Exec(s, run[..|run| - 1]);
      if Enabled(before, run[|run| - 1]) then Next(before, run[|run| - 1]) else before
  }

  lemma {:induction false} ExecInv(s: Whole, run: seq<Action>)
    requires Inv(s)
    ensures Inv(Exec(s, run))
    decreases |run|
  {
    hide Inv, Next;
    if run != [] {
      ExecInv(s, run[..|run| - 1]);
      var before, a := Exec(s, run[..|run| - 1]), run[|run| - 1];
      if Enabled(before, a) {
        if a.Access? { AccessKeeps(before, a.t, a.c); }
        else if B.Resets(before.gate, a.a) { ResetKeeps(before, a.a); }
        else { GateKeeps(before, a.a); }
      }
    }
  }

  ghost predicate Reachable(s: Whole) {
    exists s0: Whole, run: seq<Action> :: Initial(s0) && s == Exec(s0, run)
  }

  lemma ReachableInv(s: Whole)
    requires Reachable(s)
    ensures Inv(s)
  {
    hide Inv, Initial;
    var s0: Whole, run: seq<Action> :| Initial(s0) && s == Exec(s0, run);
    InitialInv(s0);
    ExecInv(s0, run);
  }

  /** Whatever is true of all reachable states of the design is true after any number of resets: the memory is
      always in such a state; and the clock is where the barrier sees it. */
  lemma StaysReachable(s: Whole)
    requires Reachable(s)
    ensures CtlTheorems.Reachable(s.stm)
    ensures s.stm.sh.max > 0 ==> s.stm.sh.clock <= s.stm.sh.max - 1 + |s.stm.txs|
  {
    ReachableInv(s);
    hide Initial, Exec, PastOk;
    if s.stm.sh.max > 0 { BoundedByGate(s); }
  }

  lemma BoundedByGate(s: Whole)
    requires InStep(s) && s.stm.sh.max > 0
    ensures s.stm.sh.clock <= s.stm.sh.max - 1 + |s.stm.txs|
  {
    B.ClockIsBounded(s.gate);
    hide CtlTheorems.Reachable, B.Reachable, Agrees;
  }

  /** The clock is reset only when no transaction is active. */
  lemma ResetIsAlone(s: Whole, g: B.Action)
    requires Reachable(s) && Enabled(s, Gate(g)) && B.Resets(s.gate, g)
    ensures forall i :: 0 <= i < |s.stm.txs| ==> s.stm.txs[i].pc.Idle?
    ensures Next(s, Gate(g)).stm.sh.clock == 0 && Next(s, Gate(g)).stm.sh.mem == s.stm.sh.mem
  {
    ReachableInv(s);
    ResetKeeps(s, g);
    hide Inv, B.Next;
  }

  /** Serializability across resets: in every history, of the past or of the present, the t-th committed memory is
      the result of running the t-th transaction alone on its predecessor, and each history begins with the memory
      that the one before ended with. */
  lemma SerializableThroughout(s: Whole, k: nat, t: nat)
    requires Reachable(s) && k < |s.past| && 0 < t <= |s.past[k].commits|
    ensures var c := s.past[k].commits[t - 1];
            if c.status.Committed?
            then c.start < t && Replay(MemoryAt(s.past[k], t - 1), c.log) == Legal(MemoryAt(s.past[k], t))
            else MemoryAt(s.past[k], t) == MemoryAt(s.past[k], t - 1)
    ensures After(s, k).init == MemoryAt(s.past[k], |s.past[k].commits|)
  {
    ReachableInv(s);
    assert Closed(s.past[k]) && After(s, k).init == Last(s.past[k]);
    hide Inv, Reachable;
    var u: State :| Ended(u, s.past[k]);
    CtlTheorems.Serializable(u, t);
  }
  // ---- nothing is excluded by the barrier, and resets do happen ----

  /** No reset has been asked for, and every thread may have access. */
  ghost predicate Open(w: Whole) {
    && Reachable(w) && w.past == [] && !w.gate.quiesce && w.gate.registered == |w.gate.pc|
    && |w.gate.pc| == |w.stm.txs| && forall t :: 0 <= t < |w.gate.pc| ==> w.gate.pc[t].Outside? || w.gate.pc[t].Running?
  }

  lemma ReachableNext(s: Whole, a: Action)
    requires Reachable(s) && Enabled(s, a)
    ensures Reachable(Next(s, a))
  {
    hide Initial, Enabled, Next;
    var s0: Whole, run: seq<Action> :| Initial(s0) && s == Exec(s0, run);
    assert (run + [a])[..|run + [a]| - 1] == run;
    assert Next(s, a) == Exec(s0, run + [a]);
  }

  /** The first k threads register. */
  lemma {:induction false} AllRegister(stm: State, k: nat) returns (w: Whole)
    requires CtlInvariant.Initial(stm) && k <= |stm.txs|
    ensures Reachable(w) && w.stm == stm && w.past == [] && !w.gate.quiesce && w.gate.registered == k
    ensures w.gate.pc == seq(|stm.txs|, t => if t < k then B.Outside else B.Out)
    decreases k
  {
    if k == 0 {
      w := Whole(stm, B.State(stm.sh.max, 1, 0, 0, false, seq(|stm.txs|, _ => B.Out)), []);
      assert Initial(w) && w == Exec(w, []);
      assert w.gate.pc == seq(|stm.txs|, t => if t < 0 then B.Outside else B.Out);
    } else {
      var v := AllRegister(stm, k - 1);
      ReachableNext(v, Gate(B.Register(k - 1)));
      w := Next(v, Gate(B.Register(k - 1)));
    }
    hide Reachable, CtlTheorems.Reachable;
  }

  /** An access that does not meet VERSION_MAX leaves the barrier open. */
  lemma OpenAccess(w: Whole, t: nat, c: Command) returns (w': Whole)
    requires Open(w) && Shape(w.stm) && t < |w.stm.txs|
    ensures Open(w') && w'.stm == CtlMachine.Next(w.stm, t, c)
  {
    ReachableInv(w);
    assert InStep(w) && TxShape(w.stm.sh, w.stm.txs[t]);
    hide Inv, PastOk;
    if w.gate.pc[t].Outside? {
      w' := OpenOutside(w, t, c);
    } else {
      ReachableNext(w, Access(t, c));
      w' := Next(w, Access(t, c));
    }
    hide Reachable, CtlTheorems.Reachable, B.Reachable, Shape, CtlMachine.Next;
  }

  lemma OpenOutside(w: Whole, t: nat, c: Command) returns (w': Whole)
    requires Open(w) && InStep(w) && Shape(w.stm) && t < |w.stm.txs| && w.gate.pc[t].Outside?
    ensures Open(w') && w'.stm == CtlMachine.Next(w.stm, t, c)
  {
    assert TxShape(w.stm.sh, w.stm.txs[t]) && Agrees(w.stm.txs[t].pc, w.gate.pc[t]);
    IdleStays(w.stm.sh, t, w.stm.txs[t], c);
    if c.Begin? && w.stm.sh.clock >= w.stm.sh.max {
      w' := w;
      IdleSame(w.stm, t, c);
    } else {
      ReachableNext(w, Access(t, c));
      w' := Next(w, Access(t, c));
    }
    hide Reachable, CtlTheorems.Reachable, B.Reachable, Shape, Step;
  }

  lemma IdleSame(s: State, i: nat, c: Command)
    requires Shape(s) && i < |s.txs| && s.txs[i].pc.Idle? && s.sh.clock >= s.sh.max
    ensures CtlMachine.Next(s, i, c) == s
  {
    assert s.txs[i := s.txs[i]] == s.txs;
    assert TxShape(s.sh, s.txs[i]);
  }

  /** Every reachable state of the design is one of the whole. */
  lemma Covers(s: State) returns (w: Whole)
    requires CtlTheorems.Reachable(s)
    ensures Open(w) && w.stm == s
  {
    hide CtlInvariant.Initial;
    var s0: State, run: seq<CtlTheorems.Turn> :|
      CtlInvariant.Initial(s0) && (forall k :: 0 <= k < |run| ==> run[k].thread < |s0.txs|)
      && s == CtlTheorems.Exec(s0, run);
    w := CoversRun(s0, run);
  }

  lemma {:induction false} CoversRun(s0: State, run: seq<CtlTheorems.Turn>) returns (w: Whole)
    requires CtlInvariant.Initial(s0) && forall k :: 0 <= k < |run| ==> run[k].thread < |s0.txs|
    ensures Shape(s0) && Open(w) && w.stm == CtlTheorems.Exec(s0, run)
    decreases |run|
  {
    CtlClock.InitialShape(s0);
    if run == [] {
      w := AllRegister(s0, |s0.txs|);
    } else {
      var n := |run| - 1;
      var v := CoversRun(s0, run[..n]);
      hide Open, CtlInvariant.Initial, CtlMachine.Next;
      w := OpenAccess(v, run[n].thread, run[n].command);
    }
  }


  /** One thread alone: after max transactions the clock is at VERSION_MAX, and it is reset when the thread wants to
      begin the next. */
  lemma ResetHappens(max: nat) returns (w: Whole)
    requires max > 0
    ensures Reachable(w) && |w.past| == 1 && w.stm.sh.clock == 0 && |w.past[0].commits| == max
  {
    var s := CtlClock.LoneReachesMax(max);
    var v := Covers(s);
    CtlClock.ReachableShape(s);
    w := LoneReset(v);
  }

  lemma LoneReset(v: Whole) returns (w: Whole)
    requires Open(v) && Shape(v.stm) && |v.stm.txs| == 1 && v.stm.txs[0].pc.Idle? && v.stm.sh.clock >= v.stm.sh.max
    ensures Reachable(w) && w.past == [v.stm.sh.h] && w.stm.sh.clock == 0
  {
    ReachableInv(v);
    assert InStep(v) && Agrees(v.stm.txs[0].pc, v.gate.pc[0]);
    IdleSame(v.stm, 0, Begin(false));
    hide Inv, PastOk, Exec, Shape, CtlMachine.Next, CtlTheorems.Reachable, B.Reachable;
    ReachableNext(v, Access(0, Begin(false)));
    var v1 := Next(v, Access(0, Begin(false)));
    assert v1.gate.pc[0].Full? && v1.past == [] && v1.gate.registered == 1 && v1.stm == v.stm;
    ReachableNext(v1, Gate(B.Enter(0)));
    w := Next(v1, Gate(B.Enter(0)));
    hide Reachable;
  }
}
