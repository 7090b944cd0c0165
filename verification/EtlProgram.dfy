/** The encounter-time locking designs as the C programs have them: the clock, memory and the lock array are
    shared and changed in place, access by access. Every method is one access and is proved against the step
    function of the machine, whose runs are what the theorems are about. */
module EtlProgram {
  import opened CommitHistory
  import opened EtlMachine
  import opened EtlInvariant
  import opened EtlTheorems

  class Stm {
    const design: Design
    const max: nat
    var clock: nat
    const mem: array<Word>
    const locks: array<LockWord>
    const txs: array<Tx>
    const lockOf: seq<nat>
    var vers: seq<Stamp>
    var h: History
    var finished: seq<Finished>

    /** `vers`, `h` and `finished` only record the past. */
    function Sh(): Shared
      reads this, mem, locks
    {
      Shared(design, max, clock, mem[..], locks[..], vers, h, finished)
    }

    ghost function Abs(): State
      reads this, mem, locks, txs
    {
      State(Sh(), txs[..])
    }

    ghost predicate Valid()
      reads this, mem, locks, txs
    {
      && (mem as object) != (txs as object) && (mem as object) != (locks as object)
      && Shape(Abs()) && h.lockOf == lockOf
    }

    /** The state after thread i has made the access r. */
    ghost predicate Made(s: State, i: nat, r: After)
      reads this, mem, locks, txs
    {
      && design == r.sh.design && max == r.sh.max
      && clock == r.sh.clock && vers == r.sh.vers && h == r.sh.h && finished == r.sh.finished
      && mem[..] == r.sh.mem && locks[..] == r.sh.locks
      && i < |s.txs| && txs[..] == s.txs[i := r.tx]
    }

    constructor (design: Design, max: nat, size: nat, init: seq<Word>, lockOf: seq<nat>, nlocks: nat, threads: nat)
      requires |lockOf| == |init| && forall a :: 0 <= a < |lockOf| ==> lockOf[a] < nlocks
      ensures Valid() && Initial(Abs()) && mem[..] == init && txs.Length == threads
      ensures fresh(mem) && fresh(locks) && fresh(txs)
    {
      this.design, this.max, clock := design, max, 0;
      mem := new Word[|init|](a requires 0 <= a < |init| => init[a]);
      locks := new LockWord[nlocks](_ => Free(Stamp(0, 0)));
      txs := new Tx[threads](_ => Tx(Idle, false, 0, 0, [], [], [], size));
      this.lockOf := lockOf;
      vers, h, finished := seq(nlocks, _ => Stamp(0, 0)), History(lockOf, init, []), [];
    }

    /** GET_LOCK. */
    method Lock(a: nat) returns (l: nat)
      requires Valid() && a < mem.Length
      ensures l == Lk(Sh(), a) && l < locks.Length
    {
      l := lockOf[a];
    }

    /** `stm_has_read`. */
    method HasReadUnder(i: nat, l: nat) returns (found: bool)
      requires i < txs.Length
      ensures found == HasRead(txs[i].rset, l)
    {
      var k := 0;
      while k < |txs[i].rset|
        invariant k <= |txs[i].rset| && forall j :: 0 <= j < k ==> txs[i].rset[j].lock != l
      {
        if txs[i].rset[k].lock == l {
          return true;
        }
        k := k + 1;
      }
      return false;
    }

    /** The walk along the chain: the entry for the word if there is one, and the last entry visited. */
    method Walk(es: seq<WEntry>, e: nat, a: nat) returns (k: nat)
      requires e < |es|
      ensures k == ChainFind(es, e, a)
    {
      k := e;
      while es[k].addr != a && k < es[k].next < |es|
        invariant k < |es| && ChainFind(es, k, a) == ChainFind(es, e, a)
        decreases |es| - k
      {
        k := es[k].next;
      }
      if es[k].addr != a {
        k := |es|;
      }
    }

    method WalkToEnd(es: seq<WEntry>, e: nat) returns (k: nat)
      requires e < |es|
      ensures k == ChainLast(es, e)
    {
      k := e;
      while k < es[k].next < |es|
        invariant k < |es| && ChainLast(es, k) == ChainLast(es, e)
        decreases |es| - k
      {
        k := es[k].next;
      }
    }

    method GiveUp(i: nat)
      requires Valid() && i < txs.Length
      modifies txs
      ensures Made(old(Abs()), i, Rollback(old(Sh()), old(txs[i])))
    {
      var tx := txs[i];
      txs[i] := tx.(pc := if tx.entries == [] then Idle else Undo(0, 0));
    }

    /** A full write set: the capacity doubles for the next attempt. */
    method GrowAndGiveUp(i: nat)
      requires Valid() && i < txs.Length
      modifies txs
      ensures Made(old(Abs()), i, Overflow(old(Sh()), old(txs[i])))
    {
      var tx := txs[i];
      txs[i] := tx.(pc := if tx.entries == [] then Idle else Undo(0, 0), size := 2 * tx.size);
    }

    // ---- read ----

    /** The value of a word under an own lock goes to the program. */
    method Own(i: nat, a: nat, x: Word)
      requires Valid() && i < txs.Length
      modifies txs
      ensures Made(old(Abs()), i, ReturnOwn(old(Sh()), old(txs[i]), a, x))
    {
      var tx := txs[i];
      txs[i] := tx.(pc := Active, log := tx.log + [Read(a, x, UnderOwnLock(Base(Sh(), a)))]);
    }

    /** `restart_no_load` of the read. */
    method ReadAgain(i: nat, a: nat, l: LockWord)
      requires Valid() && i < txs.Length && a < mem.Length
      modifies txs
      ensures Made(old(Abs()), i, ReadWith(old(Sh()), i, old(txs[i]), a, l))
    {
      var tx := txs[i];
      if l.Free? {
        txs[i] := tx.(pc := RLoadValue(a, l.stamp));
      } else if l.owner != i || l.entry >= |tx.entries| {
        GiveUp(i);
      } else if design.WriteThrough? {
        txs[i] := tx.(pc := ROwn(a));
      } else {
        var k := Walk(tx.entries, l.entry, a);
        if k < |tx.entries| && tx.entries[k].mask != 0 {
          Own(i, a, tx.entries[k].value);
        } else {
          txs[i] := tx.(pc := ROwn(a));
        }
      }
    }

    /** The loads of lock, value and clock. */
    method Load(i: nat)
      requires Valid() && i < txs.Length && TxShape(Sh(), txs[i])
      requires var pc := txs[i].pc; pc.RLoadLock? || pc.RLoadValue? || pc.RClock? || pc.ROwn?
      modifies txs
      ensures Made(old(Abs()), i, StepLoads(old(Sh()), i, old(txs[i])))
    {
      hide ReadWith, ReturnOwn;
      match txs[i].pc {
        case RLoadLock(a) =>
          var l := Lock(a);
          ReadAgain(i, a, locks[l]);
        case RLoadValue(a, v) => txs[i] := txs[i].(pc := RReloadLock(a, v, mem[a]));
        case RClock(a, v, x) =>
          if clock >= max { GiveUp(i); } else { txs[i] := txs[i].(pc := RExtend(a, v, x, clock, 0)); }
        case ROwn(a) => Own(i, a, mem[a]);
      }
    }

    /** The read set with one more entry, unless the transaction is read-only. */
    method Added(i: nat, a: nat, v: Stamp) returns (rset: seq<REntry>)
      requires Valid() && i < txs.Length && a < mem.Length
      ensures rset == WithRead(Sh(), txs[i], a, v)
    {
      var l := Lock(a);
      rset := if txs[i].readOnly then txs[i].rset else txs[i].rset + [REntry(l, v.version)];
    }

    /** The second load of the lock. */
    method Reload(i: nat)
      requires Valid() && i < txs.Length && txs[i].pc.RReloadLock? && TxShape(Sh(), txs[i])
      modifies txs
      ensures Made(old(Abs()), i, StepReload(old(Sh()), i, old(txs[i])))
    {
      hide ReadWith, WithRead;
      var tx := txs[i];
      var RReloadLock(a, v, x) := tx.pc;
      var k := Lock(a);
      var l := locks[k];
      if l != Free(v) {
        ReadAgain(i, a, l);
      } else if v.version <= tx.end {
        var rset := Added(i, a, v);
        txs[i] := tx.(rset := rset, pc := Active, log := tx.log + [Read(a, x, Memory(v.version, x))]);
      } else if tx.readOnly {
        GiveUp(i);
      } else if design.WriteThrough? {
        var rset := Added(i, a, v);
        txs[i] := tx.(pc := RClock(a, v, x), rset := rset);
      } else {
        txs[i] := tx.(pc := RClock(a, v, x));
      }
    }

    /** One turn of the loop of the validation. */
    method EntryIsValid(i: nat, k: nat) returns (valid: bool)
      requires Valid() && i < txs.Length && TxShape(Sh(), txs[i]) && k < |txs[i].rset|
      ensures valid == EntryValid(Sh(), i, txs[i], k)
    {
      var r := txs[i].rset[k];
      match locks[r.lock] {
        case Free(v) => valid := v.version == r.version;
        case Held(o, e) => valid := o == i && e < |txs[i].entries|;
      }
    }

    method Extend(i: nat)
      requires Valid() && i < txs.Length && txs[i].pc.RExtend? && TxShape(Sh(), txs[i])
      modifies txs
      ensures Made(old(Abs()), i, StepExtend(old(Sh()), i, old(txs[i])))
    {
      var tx := txs[i];
      var RExtend(a, v, x, now, k) := tx.pc;
      if k == |tx.rset| {
        if design.WriteThrough? {
          txs[i] := tx.(end := now, pc := Active, log := tx.log + [Read(a, x, Memory(v.version, x))]);
        } else {
          txs[i] := tx.(end := now, pc := RRecheck(a, v, x));
        }
      } else {
        var valid := EntryIsValid(i, k);
        if valid {
          txs[i] := tx.(pc := RExtend(a, v, x, now, k + 1));
        } else {
          GiveUp(i);
        }
      }
    }

    /** The third load of the lock, in the write-back design. */
    method Recheck(i: nat)
      requires Valid() && i < txs.Length && txs[i].pc.RRecheck? && TxShape(Sh(), txs[i])
      modifies txs
      ensures Made(old(Abs()), i, StepRecheck(old(Sh()), i, old(txs[i])))
    {
      hide ReadWith, WithRead;
      var tx := txs[i];
      var RRecheck(a, v, x) := tx.pc;
      var k := Lock(a);
      if locks[k] == Free(v) {
        var rset := Added(i, a, v);
        txs[i] := tx.(rset := rset, pc := Active, log := tx.log + [Read(a, x, Memory(v.version, x))]);
      } else {
        ReadAgain(i, a, locks[k]);
      }
    }

    // ---- write ----

    /** Going on with the write once the entry is there. */
    method Put(i: nat, es: seq<WEntry>, k: nat, value: Word, mask: Word)
      requires Valid() && i < txs.Length && k < |es|
      modifies txs
      ensures Made(old(Abs()), i, WriteEntry(old(Sh()), old(txs[i]), es, k, value, mask))
    {
      hide Merge, Join;
      var tx := txs[i];
      var e := es[k];
      var log := tx.log + [Op.Write(e.addr, value, mask)];
      if design.WriteBack? {
        if mask == 0 {
          txs[i] := tx.(pc := Active, entries := es, log := log);
        } else if mask == ALL_BITS {
          txs[i] := tx.(pc := Active, entries := es[k := e.(value := value, mask := ALL_BITS)], log := log);
        } else if e.mask != 0 {
          txs[i] := tx.(pc := Active, log := log,
                        entries := es[k := e.(value := Merge(e.value, value, mask), mask := Join(e.mask, mask))]);
        } else {
          txs[i] := tx.(pc := WLoad(k, value, mask), entries := es);
        }
      } else if e.mask != 0 && mask == ALL_BITS {
        txs[i] := tx.(pc := WStore(k, value, value, mask), entries := es);
      } else {
        txs[i] := tx.(pc := WLoad(k, value, mask), entries := es);
      }
    }

    /** The first load of the lock. */
    method Write(i: nat)
      requires Valid() && i < txs.Length && txs[i].pc.WLoadLock? && TxShape(Sh(), txs[i])
      modifies txs
      ensures Made(old(Abs()), i, StepWrite(old(Sh()), i, old(txs[i])))
    {
      hide WriteEntry, HasRead, ChainFind, ChainLast;
      var tx := txs[i];
      var WLoadLock(a, value, mask) := tx.pc;
      var l := Lock(a);
      match locks[l] {
        case Held(o, e) =>
          if o != i || e >= |tx.entries| {
            GiveUp(i);
          } else if mask == 0 {
            txs[i] := tx.(pc := Active, entries := tx.entries, log := tx.log + [Op.Write(a, value, mask)]);
          } else {
            var k := Walk(tx.entries, e, a);
            if k < |tx.entries| {
              Put(i, tx.entries, k, value, mask);
            } else if |tx.entries| == tx.size {
              GrowAndGiveUp(i);
            } else {
              var last := WalkToEnd(tx.entries, e);
              var prev := tx.entries[last];
              var es := tx.entries[last := prev.(next := |tx.entries|)] + [WEntry(a, 0, 0, prev.stamp, 0)];
              Put(i, es, |tx.entries|, value, mask);
            }
          }
        case Free(v) =>
          var read := HasReadUnder(i, l);
          if v.version > tx.end && read {
            GiveUp(i);
          } else if |tx.entries| == tx.size {
            GrowAndGiveUp(i);
          } else {
            txs[i] := tx.(pc := WCas(a, value, mask, v));
          }
      }
    }

    /** The compare-and-swap on the lock. */
    method Acquire(i: nat)
      requires Valid() && i < txs.Length && txs[i].pc.WCas? && TxShape(Sh(), txs[i])
      modifies locks, txs
      ensures Made(old(Abs()), i, StepCas(old(Sh()), i, old(txs[i])))
    {
      hide WriteEntry;
      var tx := txs[i];
      var WCas(a, value, mask, v) := tx.pc;
      var l := Lock(a);
      if locks[l] != Free(v) {
        txs[i] := tx.(pc := WLoadLock(a, value, mask));
      } else {
        locks[l] := Held(i, |tx.entries|);
        Put(i, tx.entries + [WEntry(a, 0, 0, v, 0)], |tx.entries|, value, mask);
      }
    }

    /** The load of the word under the lock. */
    method WriteLoad(i: nat)
      requires Valid() && i < txs.Length && txs[i].pc.WLoad? && TxShape(Sh(), txs[i])
      modifies txs
      ensures Made(old(Abs()), i, StepWLoad(old(Sh()), old(txs[i])))
    {
      hide Merge, Join;
      var tx := txs[i];
      var WLoad(k, value, mask) := tx.pc;
      var e := tx.entries[k];
      var x := mem[e.addr];
      var y := if mask != ALL_BITS then Merge(x, value, mask) else value;
      if design.WriteBack? {
        txs[i] := tx.(pc := Active, log := tx.log + [Op.Write(e.addr, value, mask)],
                      entries := tx.entries[k := e.(value := y, mask := Join(e.mask, mask))]);
      } else {
        txs[i] := tx.(pc := WStore(k, y, value, mask),
                      entries := if e.mask == 0 then tx.entries[k := e.(value := x, mask := mask)] else tx.entries);
      }
    }

    /** The store in place, in the write-through design. */
    method WriteStore(i: nat)
      requires Valid() && i < txs.Length && txs[i].pc.WStore? && TxShape(Sh(), txs[i])
      modifies mem, txs
      ensures Made(old(Abs()), i, StepWStore(old(Sh()), old(txs[i])))
    {
      var tx := txs[i];
      var WStore(k, y, value, mask) := tx.pc;
      var a := tx.entries[k].addr;
      mem[a] := y;
      txs[i] := tx.(pc := Active, entries := tx.entries, log := tx.log + [Op.Write(a, value, mask)]);
    }

    // ---- commit ----

    method TakeTimestamp(i: nat)
      requires Valid() && i < txs.Length && txs[i].pc.TakeTime?
      modifies this`clock, this`h, txs
      ensures Made(old(Abs()), i, StepTime(old(Sh()), i, old(txs[i])))
    {
      hide Updates;
      var tx := txs[i];
      var us := Updates(Sh(), tx.entries);
      var t := clock + 1;
      clock := t;
      h := h.(commits := h.commits + [CommitHistory.Commit(i, Pending, tx.start, us, tx.log)]);
      txs[i] := tx.(pc := Validate(t, 0));
    }

    method ValidateNext(i: nat)
      requires Valid() && i < txs.Length && txs[i].pc.Validate? && TxShape(Sh(), txs[i])
      modifies this`h, txs
      ensures Made(old(Abs()), i, StepValidate(old(Sh()), i, old(txs[i])))
    {
      var tx := txs[i];
      var Validate(t, k) := tx.pc;
      if (k == 0 && tx.start == t - 1) || k == |tx.rset| {
        h := Record(h, t, Committed);
        txs[i] := tx.(pc := Install(t, 0));
      } else {
        var valid := EntryIsValid(i, k);
        if valid {
          txs[i] := tx.(pc := Validate(t, k + 1));
        } else {
          h := Record(h, t, Aborted);
          txs[i] := tx.(pc := if tx.entries == [] then Idle else Undo(0, 0));
        }
      }
    }

    /** The store of a written word, in the write-back design, */
    method InstallNext(i: nat)
      requires Valid() && i < txs.Length && txs[i].pc.Install? && TxShape(Sh(), txs[i])
      modifies mem, txs
      ensures Made(old(Abs()), i, StepInstall(old(Sh()), old(txs[i])))
    {
      var tx := txs[i];
      var Install(t, k) := tx.pc;
      if k == |tx.entries| {
        txs[i] := tx.(pc := Idle);
      } else {
        var w := tx.entries[k];
        if design.WriteBack? && w.mask != 0 {
          mem[w.addr] := w.value;
        }
        txs[i] := tx.(pc := Release(t, k));
      }
    }

    /** and the release of the lock with the last entry under it. */
    method ReleaseNext(i: nat)
      requires Valid() && i < txs.Length && txs[i].pc.Release? && TxShape(Sh(), txs[i])
      modifies this`vers, locks, txs
      ensures Made(old(Abs()), i, StepRelease(old(Sh()), old(txs[i])))
    {
      var tx := txs[i];
      var Release(t, k) := tx.pc;
      if tx.entries[k].next == 0 {
        var l := Lock(tx.entries[k].addr);
        locks[l] := Free(Stamp(t, 0));
        vers := vers[l := Stamp(t, 0)];
      }
      txs[i] := tx.(pc := Install(t, k + 1));
    }

    // ---- rollback ----

    /** The word of an entry is restored, in the write-through design, */
    method UndoNext(i: nat)
      requires Valid() && i < txs.Length && txs[i].pc.Undo? && TxShape(Sh(), txs[i])
      modifies mem, txs
      ensures Made(old(Abs()), i, StepUndo(old(Sh()), old(txs[i])))
    {
      var tx := txs[i];
      var Undo(k, t) := tx.pc;
      if k == |tx.entries| {
        txs[i] := tx.(pc := Idle);
      } else {
        var w := tx.entries[k];
        if design.WriteThrough? && w.mask != 0 {
          mem[w.addr] := w.value;
        }
        txs[i] := tx.(pc := UndoLock(k, t));
      }
    }

    /** and its lock released: with the old stamp, with the next incarnation, or with a timestamp of its own. */
    method UndoRelease(i: nat)
      requires Valid() && i < txs.Length && txs[i].pc.UndoLock? && TxShape(Sh(), txs[i])
      modifies this`clock, this`h, this`vers, locks, txs
      ensures Made(old(Abs()), i, StepUndoLock(old(Sh()), i, old(txs[i])))
    {
      var tx := txs[i];
      var UndoLock(k, t) := tx.pc;
      var w := tx.entries[k];
      if w.next != 0 {
        txs[i] := tx.(pc := Undo(k + 1, t));
        return;
      }
      var st := w.stamp;
      if design.WriteThrough? {
        if st.incarnation + 1 <= INCARNATION_MAX {
          st := Stamp(st.version, st.incarnation + 1);
        } else if t == 0 {
          clock := clock + 1;
          h := h.(commits := h.commits + [CommitHistory.Commit(i, Aborted, tx.start, [], [])]);
          txs[i] := tx.(pc := UndoLock(k, clock));
          return;
        } else {
          st := Stamp(t, 0);
        }
      }
      var l := Lock(w.addr);
      locks[l] := Free(st);
      vers := vers[l := st];
      txs[i] := tx.(pc := Undo(k + 1, t));
    }

    /** What the program asks for between operations. */
    method User(i: nat, c: Command)
      requires Valid() && i < txs.Length && (txs[i].pc.Idle? || txs[i].pc.Active?)
      modifies this`finished, txs
      ensures Made(old(Abs()), i, StepUser(old(Sh()), i, old(txs[i]), c))
    {
      var tx := txs[i];
      if tx.pc.Idle? {
        if c.Begin? && clock < max { txs[i] := Tx(Active, c.readOnly, clock, clock, [], [], [], tx.size); }
      } else {
        match c {
          case Begin(_) =>
          case Load(a) =>
            if a < mem.Length { txs[i] := tx.(pc := RLoadLock(a)); }
          case Store(a, value, mask) =>
            if a < mem.Length && !tx.readOnly && !(design.WriteThrough? && mask == 0) {
              txs[i] := tx.(pc := WLoadLock(a, value, mask));
            }
          case Commit =>
            if tx.entries == [] {
              finished := finished + [Finished(i, tx.log, tx.start, tx.end, clock)];
              txs[i] := tx.(pc := Idle);
            } else {
              txs[i] := tx.(pc := TakeTime);
            }
          case Abort => GiveUp(i);
        }
      }
    }

    /** Thread i makes its next access. */
    method Access(i: nat, c: Command)
      requires Valid() && i < txs.Length && TxShape(Sh(), txs[i])
      modifies this`clock, this`vers, this`h, this`finished, mem, locks, txs
      ensures Made(old(Abs()), i, EtlMachine.Step(old(Sh()), i, old(txs[i]), c))
    {
      hide Shape, StepUser, StepLoads, StepReload, StepExtend, StepRecheck, StepWrite, StepCas, StepWLoad, StepWStore,
           StepTime, StepValidate, StepInstall, StepRelease, StepUndo, StepUndoLock;
      hide SetsShape;
      match txs[i].pc {
        case Idle => User(i, c);
        case Active => User(i, c);
        case RLoadLock(_) => Load(i);
        case RLoadValue(_, _) => Load(i);
        case RReloadLock(_, _, _) => Reload(i);
        case RClock(_, _, _) => Load(i);
        case RExtend(_, _, _, _, _) => Extend(i);
        case RRecheck(_, _, _) => Recheck(i);
        case ROwn(_) => Load(i);
        case WLoadLock(_, _, _) => Write(i);
        case WCas(_, _, _, _) => Acquire(i);
        case WLoad(_, _, _) => WriteLoad(i);
        case WStore(_, _, _, _) => WriteStore(i);
        case _ => Finish(i);
      }
    }

    /** The accesses of commit and rollback. */
    method Finish(i: nat)
      requires Valid() && i < txs.Length && TxShape(Sh(), txs[i])
      requires var pc := txs[i].pc;
               pc.TakeTime? || pc.Validate? || pc.Install? || pc.Release? || pc.Undo? || pc.UndoLock?
      modifies this`clock, this`vers, this`h, mem, locks, txs
      ensures Made(old(Abs()), i, EtlMachine.Step(old(Sh()), i, old(txs[i]), Begin(false)))
      ensures forall c :: EtlMachine.Step(old(Sh()), i, old(txs[i]), c)
                       == EtlMachine.Step(old(Sh()), i, old(txs[i]), Begin(false))
    {
      hide Shape, StepTime, StepValidate, StepInstall, StepRelease, StepUndo, StepUndoLock, SetsShape;
      match txs[i].pc {
        case TakeTime => TakeTimestamp(i);
        case Validate(_, _) => ValidateNext(i);
        case Install(_, _) => InstallNext(i);
        case Release(_, _) => ReleaseNext(i);
        case Undo(_, _) => UndoNext(i);
        case UndoLock(_, _) => UndoRelease(i);
      }
    }

    /** The same in a reachable state: the invariant, and with it what the theorems say, survives. */
    method Step(i: nat, c: Command)
      requires Valid() && Inv(Abs()) && i < txs.Length
      modifies this`clock, this`vers, this`h, this`finished, mem, locks, txs
      ensures Valid() && Inv(Abs()) && Abs() == Next(old(Abs()), i, c)
    {
      ghost var s := Abs();
      assert TxShape(Sh(), s.txs[i]);
      NextInv(s, i, c);
      ShapeOf(Next(s, i, c));
      SameLockOf(s.sh, i, s.txs[i], c);
      hide Inv, Shape, EtlMachine.Step;
      Access(i, c);
      assert Abs() == Next(s, i, c);
    }

    /** `rollover_clock`, called when no transaction is active: the clock and the lock array are zeroed. The idle
        descriptors are cleared along with them. */
    method Rollover()
      requires Valid() && Reachable(Abs()) && forall i :: 0 <= i < txs.Length ==> txs[i].pc.Idle?
      modifies this`clock, this`vers, this`h, this`finished, locks, txs
      ensures Valid() && Abs() == RolledOver(old(Abs())) && Initial(Abs())
    {
      ghost var s := Abs();
      RolloverStartsAfresh(s);
      hide Inv, Reachable, Initial, Shape, MemoryAt;
      clock := 0;
      ZeroLocks();
      ClearDescriptors();
      vers, h, finished := seq(locks.Length, _ => Stamp(0, 0)), History(lockOf, mem[..], []), [];
      assert Abs() == RolledOver(s);
      ShapeOfInitial(Abs());
    }

    method ZeroLocks()
      requires (locks as object) != (txs as object) && (locks as object) != (mem as object)
      modifies locks
      ensures locks[..] == seq(locks.Length, _ => Free(Stamp(0, 0)))
    {
      for l := 0 to locks.Length
        invariant forall k :: 0 <= k < l ==> locks[k] == Free(Stamp(0, 0))
      {
        locks[l] := Free(Stamp(0, 0));
      }
    }

    method ClearDescriptors()
      modifies txs
      ensures txs[..] == seq(txs.Length, k requires 0 <= k < |old(txs[..])| =>
                              Tx(Idle, false, 0, 0, [], [], [], old(txs[..])[k].size))
    {
      ghost var was := txs[..];
      for i := 0 to txs.Length
        invariant forall k :: 0 <= k < i ==> txs[k] == Tx(Idle, false, 0, 0, [], [], [], was[k].size)
        invariant forall k :: i <= k < txs.Length ==> txs[k] == was[k]
      {
        txs[i] := Tx(Idle, false, 0, 0, [], [], [], txs[i].size);
      }
    }
  }

  lemma ShapeOfInitial(s: State)
    requires Initial(s)
    ensures Shape(s)
  {
  }

  lemma ShapeOf(s: State)
    requires Inv(s)
    ensures Shape(s)
  {
  }

  /** The map from words to locks is fixed. */
  lemma SameLockOf(sh: Shared, i: nat, tx: Tx, c: Command)
    requires SharedShape(sh) && TxShape(sh, tx)
    ensures EtlMachine.Step(sh, i, tx, c).sh.h.lockOf == sh.h.lockOf
  {
    hide SetsShape, WriteEntry;
    if tx.pc.WCas? {
      var WCas(a, value, mask, v) := tx.pc;
      var taken := sh.(locks := sh.locks[Lk(sh, a) := Held(i, |tx.entries|)]);
      WriteEntryKeepsLocks(taken, tx, Acquired(tx.entries, a, v), |tx.entries|, value, mask);
    } else if !tx.pc.Release? && !tx.pc.UndoLock? {
      StepKeepsLocks(sh, i, tx, c);
      hide EtlMachine.Step;
    }
  }
}
