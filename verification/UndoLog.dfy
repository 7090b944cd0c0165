/** The undo log of the write-through design (stm_wt.h), for the words under one lock: the entries chained from
    the lock word, first to last. Writes with an empty mask only take the lock. When such an entry heads the
    chain, the first write that matches another entry saves the old word in the head instead, and the
    rollback can then spoil the head's own word; `WriteRollsBack` says exactly when. */
module UndoLog {
  import opened CommitHistory

  datatype Entry = Entry(addr: nat, value: Word, mask: Word)

  /** The memory and the chain; empty while the lock is free. */
  datatype Log = Log(mem: seq<Word>, entries: seq<Entry>)

  predicate Valid(g: Log) {
    && (forall k :: 0 <= k < |g.entries| ==> g.entries[k].addr < |g.mem|)
    && (forall j, k :: 0 <= j < k < |g.entries| ==> g.entries[j].addr != g.entries[k].addr)
    && (forall k :: 0 < k < |g.entries| ==> g.entries[k].mask != 0)
  }

  /** The walk along the chain from entry k. */
  function Match(es: seq<Entry>, a: nat, k: nat): (r: nat)
    requires k <= |es|
    ensures k <= r <= |es| && (r < |es| ==> es[r].addr == a)
    ensures forall j :: k <= j < r ==> es[j].addr != a
    decreases |es| - k
  {
    if k == |es| || es[k].addr == a then k else Match(es, a, k + 1)
  }

  function StoreWord(m: seq<Word>, a: nat, value: Word, mask: Word): seq<Word>
    requires a < |m|
  {
    m[a := if mask == ALL_BITS then value else Merge(m[a], value, mask)]
  }

  /** `stm_wt_write`. */
  function Put(g: Log, a: nat, value: Word, mask: Word): (r: Log)
    requires a < |g.mem|
    ensures |r.mem| == |g.mem|
  {
    var k := Match(g.entries, a, 0);
    if g.entries != [] && mask == 0 then g
    else if k < |g.entries| then
      var head := g.entries[0];
      Log(StoreWord(g.mem, a, value, mask),
          if head.mask == 0 then g.entries[0 := head.(value := g.mem[a], mask := mask)] else g.entries)
    else if mask == 0 then Log(g.mem, [Entry(a, 0, 0)])
    else Log(StoreWord(g.mem, a, value, mask), g.entries + [Entry(a, g.mem[a], mask)])
  }

  /** The words after the first n entries have been undone. */
  function Undo(m: seq<Word>, es: seq<Entry>, n: nat): (r: seq<Word>)
    requires n <= |es| && forall k :: 0 <= k < |es| ==> es[k].addr < |m|
    ensures |r| == |m|
  {
    if n == 0 then m else
      var before := Undo(m, es, n - 1);
      var e := es[n - 1];
      if e.mask != 0 then before[e.addr := e.value] else before
  }

  /** The memory after `stm_wt_rollback`. */
  function RolledBack(g: Log): seq<Word>
    requires Valid(g)
  {
    Undo(g.mem, g.entries, |g.entries|)
  }

  /** With one entry per address, only that entry decides. */
  lemma {:induction false} UndoAt(m: seq<Word>, es: seq<Entry>, n: nat, b: nat)
    requires n <= |es| && Valid(Log(m, es)) && b < |m|
    ensures var k := Match(es, b, 0);
            Undo(m, es, n)[b] == if k < n && es[k].mask != 0 then es[k].value else m[b]
  {
    if n > 0 {
      UndoAt(m, es, n - 1, b);
    }
  }

  lemma WriteValid(g: Log, a: nat, value: Word, mask: Word)
    requires Valid(g) && a < |g.mem|
    ensures Valid(Put(g, a, value, mask))
  {
  }

  /** The branch that goes wrong: the chain is headed by an entry with an empty mask, the write matches
      another entry, and the two words differ. */
  predicate Spoils(g: Log, a: nat, mask: Word)
    requires Valid(g) && a < |g.mem|
  {
    && mask != 0 && g.entries != [] && g.entries[0].mask == 0
    && 0 < Match(g.entries, a, 0) < |g.entries|
    && g.mem[a] != g.mem[g.entries[0].addr]
  }

  /** One write keeps what the rollback brings back, if and only if it is not of that kind. */
  lemma WriteRollsBack(g: Log, a: nat, value: Word, mask: Word)
    requires Valid(g) && a < |g.mem|
    ensures Valid(Put(g, a, value, mask))
    ensures RolledBack(Put(g, a, value, mask)) == RolledBack(g) <==> !Spoils(g, a, mask)
  {
    WriteValid(g, a, value, mask);
    var t := Put(g, a, value, mask);
    hide Merge;
    if Spoils(g, a, mask) {
      var h := g.entries[0].addr;
      UndoAt(g.mem, g.entries, |g.entries|, h);
      UndoAt(t.mem, t.entries, |t.entries|, h);
      assert Match(g.entries, h, 0) == 0 && Match(t.entries, h, 0) == 0;
      assert RolledBack(t)[h] != RolledBack(g)[h];
    } else {
      forall b | 0 <= b < |g.mem|
        ensures RolledBack(t)[b] == RolledBack(g)[b]
      {
        WriteRollsBackAt(g, a, value, mask, b);
      }
    }
  }

  lemma WriteRollsBackAt(g: Log, a: nat, value: Word, mask: Word, b: nat)
    requires Valid(g) && a < |g.mem| && b < |g.mem| && !Spoils(g, a, mask) && Valid(Put(g, a, value, mask))
    ensures RolledBack(Put(g, a, value, mask))[b] == RolledBack(g)[b]
  {
    hide Merge, Undo;
    var t := Put(g, a, value, mask);
    UndoAt(g.mem, g.entries, |g.entries|, b);
    UndoAt(t.mem, t.entries, |t.entries|, b);
    if |t.entries| == |g.entries| {
      MatchSame(g.entries, t.entries, b);
    } else {
      MatchAppend(g.entries, t.entries, b);
    }
  }

  lemma MatchSame(es: seq<Entry>, es': seq<Entry>, b: nat)
    requires |es'| == |es| && forall k :: 0 <= k < |es| ==> es'[k].addr == es[k].addr
    ensures Match(es', b, 0) == Match(es, b, 0)
  {
  }

  lemma MatchAppend(es: seq<Entry>, es': seq<Entry>, b: nat)
    requires |es'| == |es| + 1 && es'[..|es|] == es
    ensures Match(es', b, 0) == if Match(es, b, 0) < |es| then Match(es, b, 0) else if es'[|es|].addr == b then |es|
            else |es'|
  {
    assert forall k :: 0 <= k < |es| ==> es'[k] == es[k];
  }

  // ---- transactions ----

  datatype Store = Store(addr: nat, value: Word, mask: Word)

  predicate InRange(ws: seq<Store>, n: nat) {
    forall k :: 0 <= k < |ws| ==> ws[k].addr < n
  }

  function Run(g: Log, ws: seq<Store>): (r: Log)
    requires Valid(g) && InRange(ws, |g.mem|)
    ensures Valid(r) && |r.mem| == |g.mem|
    decreases |ws|
  {
    if ws == [] then g else
      var w := ws[|ws| - 1];
      var before := Run(g, ws[..|ws| - 1]);
      WriteValid(before, w.addr, w.value, w.mask);
      Put(before, w.addr, w.value, w.mask)
  }

  /** Stores with non-empty masks, like those of `int_stm_store`, are always undone: the rollback brings back
      the memory as it was when the lock was taken. */
  lemma {:induction false} RollbackRestores(m: seq<Word>, ws: seq<Store>)
    requires InRange(ws, |m|) && forall k :: 0 <= k < |ws| ==> ws[k].mask != 0
    ensures var g := Run(Log(m, []), ws);
            Valid(g) && RolledBack(g) == m && forall k :: 0 <= k < |g.entries| ==> g.entries[k].mask != 0
    decreases |ws|
  {
    if ws != [] {
      var w := ws[|ws| - 1];
      RollbackRestores(m, ws[..|ws| - 1]);
      WriteRollsBack(Run(Log(m, []), ws[..|ws| - 1]), w.addr, w.value, w.mask);
    }
  }

  /** Whether store k of a transaction is one of the kind that goes wrong, in the state it meets. */
  predicate SpoilsAt(m: seq<Word>, ws: seq<Store>, k: nat)
    requires InRange(ws, |m|) && k < |ws|
  {
    Spoils(Run(Log(m, []), ws[..k]), ws[k].addr, ws[k].mask)
  }

  /** A store that goes wrong leaves a saved word in the head for good. */
  lemma {:induction false} HeadSaved(m: seq<Word>, ws: seq<Store>, k: nat)
    requires InRange(ws, |m|) && k < |ws| && SpoilsAt(m, ws, k)
    ensures var es := Run(Log(m, []), ws).entries; es != [] && es[0].mask != 0
    decreases |ws|
  {
    var n := |ws| - 1;
    hide Merge, Run;
    RunNext(m, ws);
    if k < n {
      assert ws[..n][..k] == ws[..k];
      HeadSaved(m, ws[..n], k);
    }
  }

  lemma RunNext(m: seq<Word>, ws: seq<Store>)
    requires InRange(ws, |m|) && ws != []
    ensures var w := ws[|ws| - 1]; Run(Log(m, []), ws) == Put(Run(Log(m, []), ws[..|ws| - 1]), w.addr, w.value, w.mask)
  {
  }

  lemma SpoilsPrefix(m: seq<Word>, ws: seq<Store>, n: nat, k: nat)
    requires InRange(ws, |m|) && k < n <= |ws|
    ensures InRange(ws[..n], |m|) && SpoilsAt(m, ws[..n], k) == SpoilsAt(m, ws, k)
  {
    hide Run, Spoils;
    assert ws[..n][..k] == ws[..k];
  }

  lemma SpoilsOnce(m: seq<Word>, ws: seq<Store>, k: nat, n: nat)
    requires InRange(ws, |m|) && k < n < |ws| && SpoilsAt(m, ws, k)
    ensures !SpoilsAt(m, ws, n)
  {
    SpoilsPrefix(m, ws, n, k);
    hide Run, Match;
    HeadSaved(m, ws[..n], k);
  }

  /** The last store alone: it keeps what the rollback brings back if and only if it does not go wrong. */
  lemma LastStore(m: seq<Word>, ws: seq<Store>)
    requires InRange(ws, |m|) && ws != []
    ensures var n := |ws| - 1;
            RolledBack(Run(Log(m, []), ws)) == RolledBack(Run(Log(m, []), ws[..n])) <==> !SpoilsAt(m, ws, n)
  {
    var w := ws[|ws| - 1];
    RunNext(m, ws);
    hide Run, Put, RolledBack, Spoils, Valid;
    WriteRollsBack(Run(Log(m, []), ws[..|ws| - 1]), w.addr, w.value, w.mask);
  }

  /** The rollback brings back the memory as it was when the lock was taken. */
  predicate Restored(m: seq<Word>, ws: seq<Store>)
    requires InRange(ws, |m|)
  {
    RolledBack(Run(Log(m, []), ws)) == m
  }

  predicate Unspoilt(m: seq<Word>, ws: seq<Store>)
    requires InRange(ws, |m|)
  {
    forall k :: 0 <= k < |ws| ==> !SpoilsAt(m, ws, k)
  }

  lemma UnspoiltNext(m: seq<Word>, ws: seq<Store>)
    requires InRange(ws, |m|) && ws != []
    ensures Unspoilt(m, ws) <==> Unspoilt(m, ws[..|ws| - 1]) && !SpoilsAt(m, ws, |ws| - 1)
    ensures Unspoilt(m, ws[..|ws| - 1]) || !SpoilsAt(m, ws, |ws| - 1)
  {
    var n := |ws| - 1;
    hide SpoilsAt;
    forall k | 0 <= k < n
      ensures SpoilsAt(m, ws, k) == SpoilsAt(m, ws[..n], k)
      ensures SpoilsAt(m, ws, k) ==> !SpoilsAt(m, ws, n)
    {
      SpoilsPrefix(m, ws, n, k);
      if SpoilsAt(m, ws, k) { SpoilsOnce(m, ws, k, n); }
    }
  }

  /** For all stores: the memory is restored if and only if no store went wrong. Only one can, and no later
      store puts its word right. */
  lemma {:induction false} RollbackRestoresIffUnspoilt(m: seq<Word>, ws: seq<Store>)
    requires InRange(ws, |m|)
    ensures Restored(m, ws) <==> Unspoilt(m, ws)
    decreases |ws|
  {
    if ws != [] {
      RollbackRestoresIffUnspoilt(m, ws[..|ws| - 1]);
      LastStore(m, ws);
      UnspoiltNext(m, ws);
      hide Run, RolledBack, Unspoilt, SpoilsAt;
    }
  }

  lemma RunThree(m: seq<Word>, w0: Store, w1: Store, w2: Store)
    requires w0.addr < |m| && w1.addr < |m| && w2.addr < |m|
    ensures var g := Put(Log(m, []), w0.addr, w0.value, w0.mask);
            var h := Put(g, w1.addr, w1.value, w1.mask);
            Run(Log(m, []), [w0, w1, w2]) == Put(h, w2.addr, w2.value, w2.mask)
  {
    assert [w0, w1, w2][..2] == [w0, w1] && [w0, w1][..1] == [w0] && [w0][..0] == [];
    RunNext(m, [w0]);
    RunNext(m, [w0, w1]);
    RunNext(m, [w0, w1, w2]);
    assert Run(Log(m, []), []) == Log(m, []);
    hide Run, Put;
  }

  /** Taking the lock of [p, q] with word 0 and an empty mask, writing word 1 twice, rolling back: word 0 has the
      value that was first written to word 1. */
  lemma SpoiltExample(p: Word, q: Word, v: Word, w: Word)
    ensures var ws := [Store(0, 0, 0), Store(1, v, ALL_BITS), Store(1, w, ALL_BITS)];
            && RolledBack(Run(Log([p, q], []), ws)) == [v, q]
            && (Restored([p, q], ws) <==> v == p)
  {
    hide Run, Put, Match, Undo, Merge;
    var w0, w1, w2 := Store(0, 0, 0), Store(1, v, ALL_BITS), Store(1, w, ALL_BITS);
    RunThree([p, q], w0, w1, w2);
    SpoiltSteps(p, q, v, w);
    SpoiltUndo(p, q, v, w);
  }

  lemma SpoiltUndo(p: Word, q: Word, v: Word, w: Word)
    ensures Undo([p, w], [Entry(0, v, ALL_BITS), Entry(1, q, ALL_BITS)], 2) == [v, q]
  {
    var es := [Entry(0, v, ALL_BITS), Entry(1, q, ALL_BITS)];
    assert Undo([p, w], es, 1) == [v, w];
  }

  lemma SpoiltSteps(p: Word, q: Word, v: Word, w: Word)
    ensures Put(Log([p, q], []), 0, 0, 0) == Log([p, q], [Entry(0, 0, 0)])
    ensures Put(Log([p, q], [Entry(0, 0, 0)]), 1, v, ALL_BITS) == Log([p, v], [Entry(0, 0, 0), Entry(1, q, ALL_BITS)])
    ensures Put(Log([p, v], [Entry(0, 0, 0), Entry(1, q, ALL_BITS)]), 1, w, ALL_BITS)
         == Log([p, w], [Entry(0, v, ALL_BITS), Entry(1, q, ALL_BITS)])
  {
    var es := [Entry(0, 0, 0), Entry(1, q, ALL_BITS)];
    hide Merge;
    assert Match(es, 1, 1) == 1 && Match(es, 1, 0) == 1;
    assert es[0 := Entry(0, v, ALL_BITS)] == [Entry(0, v, ALL_BITS), Entry(1, q, ALL_BITS)];
    assert [p, v][1 := w] == [p, w] && [p, q][1 := v] == [p, v];
  }

  // ---- the code ----

  /** The memory and the undo log of the transaction that holds the lock. */
  class Transaction {
    const mem: array<Word>
    var entries: seq<Entry>

    ghost function View(): Log
      reads this, mem
    {
      Log(mem[..], entries)
    }

    constructor (mem: array<Word>)
      ensures this.mem == mem && entries == []
    {
      this.mem := mem;
      entries := [];
    }

    /** The loop over the chain. */
    method Find(a: nat) returns (k: nat)
      ensures k == Match(entries, a, 0)
    {
      k := 0;
      while k < |entries| && entries[k].addr != a
        invariant k <= |entries| && Match(entries, a, k) == Match(entries, a, 0)
      {
        k := k + 1;
      }
    }

    method Store(a: nat, value: Word, mask: Word)
      requires Valid(View()) && a < mem.Length
      modifies this`entries, mem
      ensures Valid(View()) && View() == Put(old(View()), a, value, mask)
    {
      WriteValid(View(), a, value, mask);
      hide Merge, Valid, Match;
      if entries != [] && mask == 0 {
        return;
      }
      var k := Find(a);
      if k < |entries| {
        if entries[0].mask == 0 {
          entries := entries[0 := entries[0].(value := mem[a], mask := mask)];
        }
        mem[a] := if mask == ALL_BITS then value else Merge(mem[a], value, mask);
      } else if mask == 0 {
        entries := [Entry(a, 0, 0)];
      } else {
        entries := entries + [Entry(a, mem[a], mask)];
        mem[a] := if mask == ALL_BITS then value else Merge(mem[a], value, mask);
      }
    }

    /** `stm_wt_rollback`: the entries are undone in the order in which they were made. */
    method Rollback()
      requires Valid(View())
      modifies this`entries, mem
      ensures mem[..] == RolledBack(old(View())) && entries == []
    {
      ghost var was := mem[..];
      for n := 0 to |entries|
        invariant entries == old(entries) && |was| == mem.Length
        invariant mem[..] == Undo(was, entries, n)
      {
        if entries[n].mask != 0 {
          mem[entries[n].addr] := entries[n].value;
        }
      }
      entries := [];
    }
  }
}
