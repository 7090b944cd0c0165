/** The ticket reader/writer lock (spinlocks/ticket_rw_lock.c) with its 16-bit counters, for up to 2^16 threads.
    One step is one access; an increment of a plain field is a load and a store. */
module TicketRwLock {
  import opened Counting

  const M: nat := 0x1_0000

  /** LoadWriterTurn .. StoreTurns: `writer_unlock`. LoadReaderTurn, StoreReaderTurn: the increment at the end
      of `reader_lock`. */
  datatype Pc =
    | Idle | WaitWrite | Writing | LoadWriterTurn | LoadReaderTurn2(w: nat) | StoreTurns(w: nat, r: nat)
    | WaitRead | LoadReaderTurn | StoreReaderTurn(r: nat) | Reading

  /** `number` is the thread's 16-bit ticket, `ticket` the same without wrapping around. */
  datatype Thread = Thread(pc: Pc, number: nat, ticket: nat)

  /** `issued`, `left` and `entered` record the counters without wrapping around: the tickets given out, the
      threads that have left, and the threads that have been let in by `reader_turn`. */
  datatype State = State(number: nat, writerTurn: nat, readerTurn: nat, threads: seq<Thread>,
                         issued: nat, left: nat, entered: nat)

  datatype Action = Read(t: nat) | Write(t: nat) | Step(t: nat)

  predicate Enabled(s: State, a: Action) {
    a.t < |s.threads| && (s.threads[a.t].pc.Idle? <==> !a.Step?)
  }

  function Inc(x: nat): nat {
    (x + 1) % M
  }

  function Put(s: State, t: nat, pc: Pc): State
    requires t < |s.threads|
  {
    s.(threads := s.threads[t := s.threads[t].(pc := pc)])
  }

  /** The fetch-and-add on `number`. */
  function Draw(s: State, t: nat, pc: Pc): State
    requires t < |s.threads|
  {
    s.(number := Inc(s.number), issued := s.issued + 1, threads := s.threads[t := Thread(pc, s.number, s.issued)])
  }

  function Next(s: State, a: Action): (r: State)
    requires Enabled(s, a)
    ensures |r.threads| == |s.threads|
  {
    match a
    case Read(t) => Draw(s, t, WaitRead)
    case Write(t) => Draw(s, t, WaitWrite)
    case Step(t) =>
      var th := s.threads[t];
      match th.pc
      case WaitWrite => if th.number != s.writerTurn then s else Put(s, t, Writing)
      case Writing => Put(s, t, LoadWriterTurn)
      case LoadWriterTurn => Put(s, t, LoadReaderTurn2(Inc(s.writerTurn)))
      case LoadReaderTurn2(w) => Put(s, t, StoreTurns(w, Inc(s.readerTurn)))
      case StoreTurns(w, r) =>
        Put(s, t, Idle).(writerTurn := w, readerTurn := r, left := s.left + 1, entered := s.entered + 1)
      case WaitRead => if th.number != s.readerTurn then s else Put(s, t, LoadReaderTurn)
      case LoadReaderTurn => Put(s, t, StoreReaderTurn(Inc(s.readerTurn)))
      case StoreReaderTurn(r) => Put(s, t, Reading).(readerTurn := r, entered := s.entered + 1)
      case Reading => Put(s, t, Idle).(writerTurn := Inc(s.writerTurn), left := s.left + 1)
      case Idle => s
  }

  /** The lock at its start, with any number of threads. */
  predicate Unused(s: State) {
    && s.number == s.writerTurn == s.readerTurn == 0 && s.issued == s.left == s.entered == 0
    && forall t :: 0 <= t < |s.threads| ==> s.threads[t].pc == Idle
  }

  predicate Initial(s: State) {
    Unused(s) && |s.threads| <= M
  }

  // ---- the invariant ----

  predicate InWriter(pc: Pc) {
    pc.Writing? || pc.LoadWriterTurn? || pc.LoadReaderTurn2? || pc.StoreTurns?
  }

  predicate InReader(pc: Pc) {
    pc.LoadReaderTurn? || pc.StoreReaderTurn? || pc.Reading?
  }

  /** The threads with a ticket, and those that `reader_turn` has let in and that have not left. */
  function Active(ts: seq<Thread>): nat {
    if ts == [] then 0 else Active(ts[..|ts| - 1]) + One(!ts[|ts| - 1].pc.Idle?)
  }

  function Readers(ts: seq<Thread>): nat {
    if ts == [] then 0 else Readers(ts[..|ts| - 1]) + One(ts[|ts| - 1].pc.Reading?)
  }

  /** Tickets below `entered` have been let in; the next to be let in is number `entered`. */
  predicate ThreadOk(s: State, t: nat)
    requires t < |s.threads|
  {
    var th := s.threads[t];
    && (!th.pc.Idle? ==> th.ticket < s.issued && th.number == th.ticket % M)
    && (th.pc.WaitWrite? || th.pc.WaitRead? ==> th.ticket >= s.entered)
    && (InWriter(th.pc) ==> th.ticket == s.entered == s.left)
    && (th.pc.LoadReaderTurn2? ==> th.pc.w == (s.left + 1) % M)
    && (th.pc.StoreTurns? ==> th.pc.w == (s.left + 1) % M && th.pc.r == (s.entered + 1) % M)
    && (th.pc.LoadReaderTurn? || th.pc.StoreReaderTurn? ==> th.ticket == s.entered)
    && (th.pc.StoreReaderTurn? ==> th.pc.r == (s.entered + 1) % M)
    && (th.pc.Reading? ==> th.ticket < s.entered)
  }

  ghost predicate ThreadsOk(s: State) {
    && (forall t :: 0 <= t < |s.threads| ==> ThreadOk(s, t))
    && (forall t, u :: 0 <= t < |s.threads| && 0 <= u < |s.threads| && t != u ==> Differ(s.threads[t], s.threads[u]))
  }

  /** No two threads have the same ticket. */
  predicate Differ(th: Thread, other: Thread) {
    !th.pc.Idle? && !other.pc.Idle? ==> th.ticket != other.ticket
  }

  ghost predicate CountsOk(s: State) {
    && s.number == s.issued % M && s.writerTurn == s.left % M && s.readerTurn == s.entered % M
    && s.issued == s.left + Active(s.threads) && s.entered == s.left + Readers(s.threads)
    && |s.threads| <= M
  }

  /** Thread t has ticket n and has not been let in by `reader_turn`. */
  predicate Keeps(s: State, t: nat, n: nat) {
    t < |s.threads| && !s.threads[t].pc.Idle? && !s.threads[t].pc.Reading? && s.threads[t].ticket == n
  }

  ghost predicate Kept(s: State, n: nat) {
    exists t :: Keeps(s, t, n)
  }

  /** Every ticket that has been given out and not been let in is some thread's. */
  ghost predicate TicketsOk(s: State) {
    forall n :: s.entered <= n < s.issued ==> Kept(s, n)
  }

  ghost predicate Inv(s: State) {
    ThreadsOk(s) && CountsOk(s) && TicketsOk(s)
  }

  lemma {:induction false} CountUpdate(ts: seq<Thread>, t: nat, th: Thread)
    requires t < |ts|
    ensures Active(ts[t := th]) + One(!ts[t].pc.Idle?) == Active(ts) + One(!th.pc.Idle?)
    ensures Readers(ts[t := th]) + One(ts[t].pc.Reading?) == Readers(ts) + One(th.pc.Reading?)
    decreases |ts|
  {
    var n := |ts| - 1;
    if t < n {
      CountUpdate(ts[..n], t, th);
      assert ts[t := th][..n] == ts[..n][t := th];
    } else {
      assert ts[t := th][..n] == ts[..n];
    }
  }

  lemma {:induction false} CountBounds(ts: seq<Thread>)
    ensures Readers(ts) <= Active(ts) <= |ts|
    decreases |ts|
  {
    if ts != [] { CountBounds(ts[..|ts| - 1]); }
  }

  lemma {:induction false} ReaderCounted(ts: seq<Thread>, t: nat)
    requires t < |ts| && ts[t].pc.Reading?
    ensures Readers(ts) > 0
    decreases |ts|
  {
    if t < |ts| - 1 { ReaderCounted(ts[..|ts| - 1], t); }
  }

  lemma {:induction false} NoneActive(ts: seq<Thread>)
    requires forall t :: 0 <= t < |ts| ==> ts[t].pc.Idle?
    ensures Active(ts) == Readers(ts) == 0
    decreases |ts|
  {
    if ts != [] { NoneActive(ts[..|ts| - 1]); }
  }

  lemma InitialInv(s: State)
    requires Initial(s)
    ensures Inv(s)
  {
    NoneActive(s.threads);
  }

  /** Numbers that agree in 16 bits and are less than 2^16 apart are equal. */
  lemma SameTurn(a: nat, b: nat)
    requires b <= a < b + M && a % M == b % M
    ensures a == b
  {
    var d := a - b;
    assert (b + d) % M == b % M;
    assert b == b / M * M + b % M && a == a / M * M + a % M;
  }

  lemma IncMod(x: nat)
    ensures Inc(x % M) == (x + 1) % M
  {
  }

  /** A ticket that is compared is less than 2^16 away from both turns. */
  lemma TicketNear(s: State, t: nat)
    requires Inv(s) && t < |s.threads| && (s.threads[t].pc.WaitWrite? || s.threads[t].pc.WaitRead?)
    ensures s.left <= s.entered <= s.threads[t].ticket < s.left + M
    ensures s.threads[t].number == s.writerTurn <==> s.threads[t].ticket == s.left
    ensures s.threads[t].number == s.readerTurn <==> s.threads[t].ticket == s.entered
  {
    assert ThreadOk(s, t);
    CountBounds(s.threads);
    var x := s.threads[t].ticket;
    if x % M == s.left % M { SameTurn(x, s.left); }
    if x % M == s.entered % M { SameTurn(x, s.entered); }
  }

  /** While a writer is in, nobody else is. */
  lemma WriterAlone(s: State, t: nat, u: nat)
    requires Inv(s) && t < |s.threads| && u < |s.threads| && t != u && InWriter(s.threads[t].pc)
    ensures !InWriter(s.threads[u].pc) && !InReader(s.threads[u].pc)
  {
    assert ThreadOk(s, t) && ThreadOk(s, u) && Differ(s.threads[t], s.threads[u]);
    if s.threads[u].pc.Reading? {
      ReaderCounted(s.threads, u);
    }
  }

  /** The 16-bit numbers are the unbounded ones, wrapped around. */
  lemma TurnsKept(s: State, a: Action)
    requires Inv(s) && Enabled(s, a)
    ensures var r := Next(s, a);
            r.number == r.issued % M && r.writerTurn == r.left % M && r.readerTurn == r.entered % M
  {
    assert ThreadOk(s, a.t);
    IncMod(s.issued);
    IncMod(s.left);
    IncMod(s.entered);
    hide ThreadsOk, TicketsOk, Inc, Active, Readers;
  }

  lemma CountsKept(s: State, a: Action)
    requires Inv(s) && Enabled(s, a)
    ensures CountsOk(Next(s, a))
  {
    var r := Next(s, a);
    TurnsKept(s, a);
    assert ThreadOk(s, a.t);
    CountUpdate(s.threads, a.t, r.threads[a.t]);
    assert s.threads[a.t := s.threads[a.t]] == s.threads;
    hide Active, Readers, ThreadsOk, TicketsOk, Inc, Keeps;
    assert r.threads == s.threads[a.t := r.threads[a.t]];
  }

  lemma OtherThreadKept(s: State, a: Action, u: nat)
    requires Inv(s) && Enabled(s, a) && u < |s.threads| && u != a.t
    ensures ThreadOk(Next(s, a), u)
  {
    assert ThreadOk(s, a.t) && ThreadOk(s, u) && Differ(s.threads[a.t], s.threads[u]);
    if s.threads[a.t].pc.WaitWrite? || s.threads[a.t].pc.WaitRead? { TicketNear(s, a.t); }
    if InWriter(s.threads[u].pc) { WriterAlone(s, u, a.t); }
    hide Active, Readers, ThreadsOk, TicketsOk, Inc;
  }

  lemma ThreadKept(s: State, a: Action, u: nat)
    requires Inv(s) && Enabled(s, a) && u < |s.threads|
    ensures ThreadOk(Next(s, a), u)
  {
    if a.t != u {
      OtherThreadKept(s, a, u);
    } else if a.Step? {
      assert ThreadOk(s, u);
      IncMod(s.left);
      IncMod(s.entered);
      if s.threads[u].pc.WaitWrite? || s.threads[u].pc.WaitRead? { TicketNear(s, u); }
    } else {
      CountBounds(s.threads);
    }
    hide Active, Readers, ThreadsOk, TicketsOk, Inc;
  }

  lemma DifferKept(s: State, a: Action, t: nat, u: nat)
    requires Inv(s) && Enabled(s, a) && t < |s.threads| && u < |s.threads| && t != u
    ensures Differ(Next(s, a).threads[t], Next(s, a).threads[u])
  {
    assert ThreadOk(s, t) && ThreadOk(s, u) && Differ(s.threads[t], s.threads[u]);
    hide ThreadsOk, CountsOk;
  }

  lemma TicketsKept(s: State, a: Action)
    requires Inv(s) && Enabled(s, a)
    ensures TicketsOk(Next(s, a))
  {
    var r := Next(s, a);
    assert ThreadOk(s, a.t);
    hide CountsOk, ThreadsOk;
    forall n | r.entered <= n < r.issued
      ensures Kept(r, n)
    {
      if n == s.issued {
        assert Keeps(r, a.t, n);
      } else {
        assert Kept(s, n);
        var t :| Keeps(s, t, n);
        assert Keeps(r, t, n);
      }
    }
  }

  lemma NextInv(s: State, a: Action)
    requires Inv(s) && Enabled(s, a)
    ensures Inv(Next(s, a))
  {
    var r := Next(s, a);
    CountsKept(s, a);
    TicketsKept(s, a);
    forall u | 0 <= u < |r.threads|
      ensures ThreadOk(r, u)
    {
      ThreadKept(s, a, u);
    }
    forall t, u | 0 <= t < |r.threads| && 0 <= u < |r.threads| && t != u
      ensures Differ(r.threads[t], r.threads[u])
    {
      DifferKept(s, a, t, u);
    }
    hide Next, CountsOk, ThreadOk, TicketsOk;
  }

  // ---- every run ----

  function Exec(s: State, run: seq<Action>): State
    decreases |run|
  {
    if run == [] then s else
      var before := Exec(s, run[..|run| - 1]);
      if Enabled(before, run[|run| - 1]) then Next(before, run[|run| - 1]) else before
  }

  lemma {:induction false} ExecInv(s: State, run: seq<Action>)
    requires Inv(s)
    ensures Inv(Exec(s, run))
    decreases |run|
  {
    hide Inv, Enabled, Next;
    if run != [] {
      ExecInv(s, run[..|run| - 1]);
      var before := Exec(s, run[..|run| - 1]);
      if Enabled(before, run[|run| - 1]) {
        NextInv(before, run[|run| - 1]);
      }
    }
  }

  ghost predicate Reachable(s: State) {
    exists s0: State, run: seq<Action> :: Initial(s0) && s == Exec(s0, run)
  }

  lemma ReachableInv(s: State)
    requires Reachable(s)
    ensures Inv(s)
  {
    hide Inv, Initial;
    var s0: State, run: seq<Action> :| Initial(s0) && s == Exec(s0, run);
    InitialInv(s0);
    ExecInv(s0, run);
  }

  /** A writer is alone: no other writer and no reader is inside, however often the counters have wrapped. */
  lemma WritersExclusive(s: State, t: nat, u: nat)
    requires Reachable(s) && t < |s.threads| && u < |s.threads| && t != u && s.threads[t].pc.Writing?
    ensures !s.threads[u].pc.Writing? && !s.threads[u].pc.Reading?
  {
    ReachableInv(s);
    WriterAlone(s, t, u);
  }

  /** Whoever is let in has the least ticket of all that are not yet in, a writer only when all before it have
      left. */
  lemma TicketOrder(s: State, t: nat, u: nat)
    requires Reachable(s) && t < |s.threads| && u < |s.threads| && t != u
    requires (s.threads[t].pc.WaitWrite? || s.threads[t].pc.WaitRead?)
    requires Next(s, Step(t)).threads[t].pc.Writing? || Next(s, Step(t)).threads[t].pc.LoadReaderTurn?
    requires !s.threads[u].pc.Idle?
    ensures s.threads[u].pc.WaitWrite? || s.threads[u].pc.WaitRead? ==> s.threads[t].ticket < s.threads[u].ticket
    ensures s.threads[t].pc.WaitWrite? ==> s.threads[t].ticket < s.threads[u].ticket
  {
    ReachableInv(s);
    TicketNear(s, t);
    assert ThreadOk(s, u) && Differ(s.threads[t], s.threads[u]);
    if s.threads[t].pc.WaitWrite? && s.threads[u].pc.Reading? {
      ReaderCounted(s.threads, u);
    }
  }

  /** The plain, not atomic, accesses to the turns do no harm: what is stored is one more than what is there. */
  lemma TurnsNotLost(s: State, t: nat)
    requires Reachable(s) && t < |s.threads|
    ensures s.threads[t].pc.StoreReaderTurn? ==> s.threads[t].pc.r == Inc(s.readerTurn)
    ensures s.threads[t].pc.StoreTurns? ==>
            s.threads[t].pc.w == Inc(s.writerTurn) && s.threads[t].pc.r == Inc(s.readerTurn)
  {
    ReachableInv(s);
    assert ThreadOk(s, t);
    IncMod(s.left);
    IncMod(s.entered);
  }

  lemma {:induction false} SomeReader(ts: seq<Thread>) returns (t: nat)
    requires Readers(ts) > 0
    ensures t < |ts| && ts[t].pc.Reading?
    decreases |ts|
  {
    if ts[|ts| - 1].pc.Reading? { t := |ts| - 1; } else { t := SomeReader(ts[..|ts| - 1]); }
  }

  /** No deadlock: when a thread is not idle, some thread that is not idle can go on. */
  lemma SomebodyMoves(s: State, i: nat) returns (k: nat)
    requires Reachable(s) && i < |s.threads| && !s.threads[i].pc.Idle?
    ensures k < |s.threads| && !s.threads[k].pc.Idle? && Next(s, Step(k)).threads[k].pc != s.threads[k].pc
  {
    ReachableInv(s);
    k := i;
    if s.threads[i].pc.WaitWrite? || s.threads[i].pc.WaitRead? {
      TicketNear(s, i);
      assert ThreadOk(s, i);
      assert Kept(s, s.entered);
      var next :| Keeps(s, next, s.entered);
      k := next;
      if s.threads[k].pc.WaitWrite? || s.threads[k].pc.WaitRead? { TicketNear(s, k); }
      if s.threads[k].pc.WaitWrite? && s.left < s.entered { k := SomeReader(s.threads); }
    }
    hide ThreadsOk, TicketsOk, CountsOk;
  }

  // ---- what is asked for is got ----

  datatype Wish = Nothing | ToRead | ToWrite

  /** What thread t has asked for last. */
  function Asked(s: State, run: seq<Action>, t: nat): Wish
    decreases |run|
  {
    if run == [] then Nothing else
      var a := run[|run| - 1];
      if a.Step? || a.t != t || !Enabled(Exec(s, run[..|run| - 1]), a) then Asked(s, run[..|run| - 1], t)
      else if a.Read? then ToRead else ToWrite
  }

  /** Whoever is in, or on the way in, is what it has asked to be. */
  lemma {:induction false} AsAsked(s: State, run: seq<Action>, t: nat)
    requires Initial(s) && t < |s.threads|
    ensures var r := Exec(s, run);
            && |r.threads| == |s.threads|
            && (r.threads[t].pc.WaitRead? || InReader(r.threads[t].pc) ==> Asked(s, run, t).ToRead?)
            && (r.threads[t].pc.WaitWrite? || InWriter(r.threads[t].pc) ==> Asked(s, run, t).ToWrite?)
    decreases |run|
  {
    if run != [] { AsAsked(s, run[..|run| - 1], t); }
  }

  lemma ReachableNext(s: State, a: Action)
    requires Reachable(s) && Enabled(s, a)
    ensures Reachable(Next(s, a))
  {
    hide Initial, Enabled, Next;
    var s0: State, run: seq<Action> :| Initial(s0) && s == Exec(s0, run);
    assert (run + [a])[..|run + [a]| - 1] == run;
    assert Next(s, a) == Exec(s0, run + [a]);
  }

  /** The state after a, and m steps of its thread. */
  function Alone(s: State, a: Action, m: nat): State
    requires Enabled(s, a)
  {
    if m == 0 then Next(s, a) else
      var before := Alone(s, a, m - 1);
      if Enabled(before, Step(a.t)) then Next(before, Step(a.t)) else before
  }

  lemma {:induction false} AloneReachable(s: State, a: Action, m: nat)
    requires Reachable(s) && Enabled(s, a)
    ensures Reachable(Alone(s, a, m))
    decreases m
  {
    hide Reachable, Next;
    if m == 0 {
      ReachableNext(s, a);
    } else {
      AloneReachable(s, a, m - 1);
      if Enabled(Alone(s, a, m - 1), Step(a.t)) { ReachableNext(Alone(s, a, m - 1), Step(a.t)); }
    }
  }

  /** With nobody waiting, the next ticket is the next to be let in. */
  lemma NobodyAhead(s: State)
    requires Reachable(s) && forall t :: 0 <= t < |s.threads| ==> s.threads[t].pc.Idle? || s.threads[t].pc.Reading?
    ensures s.issued == s.entered && s.number == s.readerTurn
    ensures (forall t :: 0 <= t < |s.threads| ==> s.threads[t].pc.Idle?) ==>
            s.left == s.issued && s.number == s.writerTurn
  {
    ReachableInv(s);
    CountBounds(s.threads);
    assert s.entered < s.issued ==> Kept(s, s.entered);
    if forall t :: 0 <= t < |s.threads| ==> s.threads[t].pc.Idle? { NoneActive(s.threads); }
    hide Active, Readers, ThreadsOk;
  }

  /** Readers share: while the others read, a thread that asks to read reads too after three more steps. */
  lemma ReadersShare(s: State, t: nat)
    requires Reachable(s) && t < |s.threads| && s.threads[t].pc.Idle?
    requires forall u :: 0 <= u < |s.threads| ==> s.threads[u].pc.Idle? || s.threads[u].pc.Reading?
    ensures var r := Alone(s, Read(t), 3);
            && Reachable(r) && |r.threads| == |s.threads| && r.threads[t].pc.Reading?
            && forall u :: 0 <= u < |s.threads| && u != t ==> r.threads[u] == s.threads[u]
  {
    NobodyAhead(s);
    AloneReachable(s, Read(t), 3);
    hide Reachable;
    var s1 := Next(s, Read(t));
    var s2 := Next(s1, Step(t));
    var s3 := Next(s2, Step(t));
    assert Alone(s, Read(t), 0) == s1 && Alone(s, Read(t), 1) == s2 && Alone(s, Read(t), 2) == s3;
    assert Alone(s, Read(t), 3) == Next(s3, Step(t));
  }

  /** All threads may read at once. */
  lemma {:induction false} AllRead(n: nat, k: nat) returns (s: State)
    requires k <= n <= M
    ensures Reachable(s) && |s.threads| == n
    ensures forall t :: 0 <= t < n ==> if t < k then s.threads[t].pc.Reading? else s.threads[t].pc.Idle?
    decreases k
  {
    if k == 0 {
      s := State(0, 0, 0, seq(n, _ => Thread(Idle, 0, 0)), 0, 0, 0);
      assert Initial(s) && s == Exec(s, []);
    } else {
      var r := AllRead(n, k - 1);
      ReadersShare(r, k - 1);
      s := Alone(r, Read(k - 1), 3);
    }
    hide Reachable, Alone;
  }

  /** A reader leaves with one step, which changes nothing for the others. */
  lemma ReaderLeaves(s: State, t: nat)
    requires t < |s.threads| && s.threads[t].pc.Reading?
    ensures Next(s, Step(t)).threads == s.threads[t := s.threads[t].(pc := Idle)]
  {
  }

  /** A thread that asks to write when nobody is there writes after one step, and
      leaves with four. */
  lemma WritesAlone(s: State, t: nat)
    requires Reachable(s) && t < |s.threads| && forall u :: 0 <= u < |s.threads| ==> s.threads[u].pc.Idle?
    ensures var r := Alone(s, Write(t), 1);
            && |r.threads| == |s.threads| && r.threads == s.threads[t := r.threads[t]] && r.threads[t].pc.Writing?
            && Alone(s, Write(t), 5).threads == s.threads[t := r.threads[t].(pc := Idle)]
  {
    NobodyAhead(s);
    hide Reachable;
    var s1 := Next(s, Write(t));
    var s2 := Next(s1, Step(t));
    var s3 := Next(s2, Step(t));
    var s4 := Next(s3, Step(t));
    var s5 := Next(s4, Step(t));
    assert Alone(s, Write(t), 0) == s1 && Alone(s, Write(t), 1) == s2 && Alone(s, Write(t), 2) == s3;
    assert Alone(s, Write(t), 3) == s4 && Alone(s, Write(t), 4) == s5 && Alone(s, Write(t), 5) == Next(s5, Step(t));
  }

  /** The steps a thread still makes until it is idle. */
  function Rank(pc: Pc): nat {
    match pc
    case Idle => 0
    case WaitWrite => 5
    case Writing => 4
    case LoadWriterTurn => 3
    case LoadReaderTurn2(_) => 2
    case StoreTurns(_, _) => 1
    case WaitRead => 4
    case LoadReaderTurn => 3
    case StoreReaderTurn(_) => 2
    case Reading => 1
  }

  function Total(s: State): nat {
    Sum(seq(|s.threads|, t requires 0 <= t < |s.threads| => Rank(s.threads[t].pc)))
  }

  lemma StepFalls(s: State, k: nat)
    requires k < |s.threads| && !s.threads[k].pc.Idle? && Next(s, Step(k)).threads[k].pc != s.threads[k].pc
    ensures Total(Next(s, Step(k))) < Total(s)
  {
    var v := seq(|s.threads|, t requires 0 <= t < |s.threads| => Rank(s.threads[t].pc));
    var r := Next(s, Step(k));
    SumUpdate(v, k, Rank(r.threads[k].pc));
    assert v[k := Rank(r.threads[k].pc)] == seq(|r.threads|, t requires 0 <= t < |r.threads| => Rank(r.threads[t].pc));
  }

  predicate Waits(pc: Pc) {
    pc.WaitWrite? || pc.WaitRead?
  }

  /** Every thread that waits can get in: some run of steps, in which nobody else asks, lets it in as what it has
      asked to be. */
  lemma {:induction false} EntryPossible(s: State, i: nat) returns (r: State, run: seq<Action>)
    requires Reachable(s) && i < |s.threads| && Waits(s.threads[i].pc)
    ensures (forall k :: 0 <= k < |run| ==> run[k].Step?) && r == Exec(s, run) && |r.threads| == |s.threads|
    ensures r.threads[i].pc == if s.threads[i].pc.WaitWrite? then Writing else LoadReaderTurn
    decreases Total(s)
  {
    var k := SomebodyMoves(s, i);
    StepFalls(s, k);
    ReachableNext(s, Step(k));
    var s1 := Next(s, Step(k));
    assert s1.threads[i].pc == s.threads[i].pc || k == i;
    if k == i {
      r, run := s1, [];
      assert Exec(s1, []) == s1;
    } else {
      hide Reachable, Total;
      r, run := EntryPossible(s1, i);
    }
    hide Next, Reachable, Total;
    ExecOne(s, Step(k), run);
    run := [Step(k)] + run;
  }

  lemma {:induction false} ExecOne(s: State, a: Action, run: seq<Action>)
    requires Enabled(s, a)
    ensures Exec(s, [a] + run) == Exec(Next(s, a), run)
    decreases |run|
  {
    var all := [a] + run;
    if run == [] {
      assert all[..0] == [] && Exec(s, []) == s;
    } else {
      ExecOne(s, a, run[..|run| - 1]);
      assert all[..|all| - 1] == [a] + run[..|run| - 1];
    }
  }

  // ---- too many threads ----

  /** A state that n threads can bring about. */
  ghost predicate Possible(s: State, n: nat) {
    exists s0: State, run: seq<Action> :: Unused(s0) && |s0.threads| == n && s == Exec(s0, run)
  }

  lemma PossibleNext(s: State, n: nat, a: Action)
    requires Possible(s, n) && Enabled(s, a)
    ensures Possible(Next(s, a), n)
  {
    hide Unused, Enabled, Next;
    var s0: State, run: seq<Action> :| Unused(s0) && |s0.threads| == n && s == Exec(s0, run);
    assert (run + [a])[..|run + [a]| - 1] == run;
    assert Next(s, a) == Exec(s0, run + [a]);
  }

  /** While thread 0 writes, k - 1 others have drawn tickets. */
  lemma {:induction false} Crowd(n: nat, k: nat) returns (s: State)
    requires 0 < k <= M && k < n
    ensures Possible(s, n) && |s.threads| == n && s.threads[0].pc.Writing? && s.number == k % M && s.writerTurn == 0
    ensures forall t :: k <= t < n ==> s.threads[t].pc.Idle?
    decreases k
  {
    if k == 1 {
      var s0 := State(0, 0, 0, seq(n, _ => Thread(Idle, 0, 0)), 0, 0, 0);
      assert Unused(s0) && s0 == Exec(s0, []);
      assert Possible(s0, n);
      PossibleNext(s0, n, Write(0));
      var s1 := Next(s0, Write(0));
      PossibleNext(s1, n, Step(0));
      s := Next(s1, Step(0));
    } else {
      var t := Crowd(n, k - 1);
      PossibleNext(t, n, Write(k - 1));
      s := Next(t, Write(k - 1));
    }
    hide Possible;
  }

  /** The next ticket wraps around to that of the writer inside. */
  lemma TwoWriters(n: nat) returns (s: State)
    requires n > M
    ensures Possible(s, n) && |s.threads| == n && s.threads[0].pc.Writing? && s.threads[M].pc.Writing?
  {
    var s0 := Crowd(n, M);
    PossibleNext(s0, n, Write(M));
    var s1 := Next(s0, Write(M));
    PossibleNext(s1, n, Step(M));
    s := Next(s1, Step(M));
    hide Possible;
  }

  predicate Clash(s: State, t: nat, u: nat) {
    && t < |s.threads| && u < |s.threads| && t != u
    && s.threads[t].pc.Writing? && (s.threads[u].pc.Writing? || s.threads[u].pc.Reading?)
  }

  /** No writer is ever inside together with another writer or a reader. */
  ghost predicate Exclusive(n: nat) {
    forall s: State, t: nat, u: nat :: Possible(s, n) ==> !Clash(s, t, u)
  }

  /** The 16-bit tickets exclude writers for up to 2^16 threads, and not for more. */
  lemma ExclusiveIffFewThreads(n: nat)
    ensures Exclusive(n) <==> n <= M
  {
    if n <= M {
      forall s: State, t: nat, u: nat | Possible(s, n)
        ensures !Clash(s, t, u)
      {
        var s0: State, run: seq<Action> :| Unused(s0) && |s0.threads| == n && s == Exec(s0, run);
        assert Initial(s0) && Reachable(s);
        if Clash(s, t, u) { WritersExclusive(s, t, u); }
      }
    } else {
      var s := TwoWriters(n);
      assert Clash(s, 0, M);
    }
  }

  // ---- the program ----

  /** The lock and the threads that use it. */
  class Machine {
    var number: nat
    var writerTurn: nat
    var readerTurn: nat
    var threads: array<Thread>
    var issued: nat
    ghost var left: nat
    ghost var entered: nat

    ghost function Abs(): State
      reads this, threads
    {
      State(number, writerTurn, readerTurn, threads[..], issued, left, entered)
    }

    constructor (n: nat)
      requires n <= M
      ensures Initial(Abs()) && threads.Length == n && fresh(threads)
    {
      number, writerTurn, readerTurn, issued, left, entered := 0, 0, 0, 0, 0, 0;
      threads := new Thread[n](_ => Thread(Idle, 0, 0));
    }

    /** The fetch-and-add with which `reader_lock` and `writer_lock` begin. */
    method Draw(t: nat, a: Action)
      requires Enabled(Abs(), a) && !a.Step? && a.t == t
      modifies this`number, this`issued, threads
      ensures threads == old(threads) && Abs() == Next(old(Abs()), a)
    {
      threads[t] := Thread(if a.Read? then WaitRead else WaitWrite, number, issued);
      number := (number + 1) % M;
      issued := issued + 1;
    }

    method Step(t: nat)
      requires Enabled(Abs(), Action.Step(t))
      modifies this`writerTurn, this`readerTurn, this`left, this`entered, threads
      ensures threads == old(threads) && Abs() == Next(old(Abs()), Action.Step(t))
    {
      var th := threads[t];
      match th.pc {
        case WaitWrite => if th.number == writerTurn { threads[t] := th.(pc := Writing); }
        case Writing => threads[t] := th.(pc := LoadWriterTurn);
        case LoadWriterTurn => threads[t] := th.(pc := LoadReaderTurn2((writerTurn + 1) % M));
        case LoadReaderTurn2(w) => threads[t] := th.(pc := StoreTurns(w, (readerTurn + 1) % M));
        case StoreTurns(w, r) =>
          writerTurn, readerTurn := w, r;
          threads[t], left, entered := th.(pc := Idle), left + 1, entered + 1;
        case WaitRead => if th.number == readerTurn { threads[t] := th.(pc := LoadReaderTurn); }
        case LoadReaderTurn => threads[t] := th.(pc := StoreReaderTurn((readerTurn + 1) % M));
        case StoreReaderTurn(r) =>
          readerTurn := r;
          threads[t], entered := th.(pc := Reading), entered + 1;
        case Reading =>
          writerTurn := (writerTurn + 1) % M;
          threads[t], left := th.(pc := Idle), left + 1;
        case Idle =>
      }
    }
  }
}
