/** The commit-time locking design as the C program has it: the clock, memory and the lock array are shared and
    changed in place, access by access. Every method is one access and is proved against the step function of
    the machine, whose runs are what the theorems are about. */
module CtlProgram {
  import opened CommitHistory
  import opened CtlMachine
  import opened CtlInvariant
  import opened CtlTheorems

  class Stm {
    const max: nat
    var clock: nat
    const mem: array<Word>
    const locks: array<LockWord>
    const txs: array<Tx>
    const lockOf: seq<nat>
    ghost var vers: seq<nat>
    ghost var h: History
    ghost var finished: seq<Finished>

    ghost function Sh(): Shared
      reads this, mem, locks
    {
      Shared(max, clock, mem[..], locks[..], vers, h, finished)
    }

    ghost function Abs(): State
      reads this, mem, locks, txs
    {
      State(Sh(), txs[..])
    }

    ghost predicate Valid()
      reads this, mem, locks, txs
    {
      && (mem as object) != (txs as object) && (mem as object) != (locks as object)
      && Shape(Abs()) && h.lockOf == lockOf
    }

    /** The state after thread i has made the access r. */
    ghost predicate Made(s: State, i: nat, r: After)
      reads this, mem, locks, txs
    {
      && max == r.sh.max && clock == r.sh.clock && vers == r.sh.vers && h == r.sh.h && finished == r.sh.finished
      && mem[..] == r.sh.mem && locks[..] == r.sh.locks
      && i < |s.txs| && txs[..] == s.txs[i := r.tx]
    }

    constructor (max: nat, init: seq<Word>, lockOf: seq<nat>, nlocks: nat, threads: nat)
      requires |lockOf| == |init| && forall a :: 0 <= a < |lockOf| ==> lockOf[a] < nlocks
      ensures Valid() && Initial(Abs()) && mem[..] == init && txs.Length == threads
      ensures fresh(mem) && fresh(locks) && fresh(txs)
    {
      this.max, clock := max, 0;
      mem := new Word[|init|](a requires 0 <= a < |init| => init[a]);
      locks := new LockWord[nlocks](_ => Free(0));
      txs := new Tx[threads](_ => Tx(Idle, false, 0, 0, [], [], [], [], 0, []));
      this.lockOf := lockOf;
      vers, h, finished := seq(nlocks, _ => 0), History(lockOf, init, []), [];
    }

    /** GET_LOCK. */
    method Lock(a: nat) returns (l: nat)
      requires Valid() && a < mem.Length
      ensures l == Lk(Sh(), a) && l < locks.Length
    {
      l := lockOf[a];
    }

    /** `stm_has_written`. */
    method HasWritten(i: nat, a: nat) returns (k: nat)
      requires i < txs.Length
      ensures k == Find(txs[i].writes, a)
    {
      k := 0;
      while k < |txs[i].writes| && txs[i].writes[k].addr != a
        invariant k <= |txs[i].writes| && FindFrom(txs[i].writes, a, k) == Find(txs[i].writes, a)
      {
        k := k + 1;
      }
    }

    /** `stm_has_read`. */
    method HasReadUnder(i: nat, l: nat) returns (found: bool)
      requires i < txs.Length
      ensures found == HasRead(txs[i].rset, l)
    {
      var k := 0;
      while k < |txs[i].rset|
        invariant k <= |txs[i].rset| && forall j :: 0 <= j < k ==> txs[i].rset[j].lock != l
      {
        if txs[i].rset[k].lock == l {
          return true;
        }
        k := k + 1;
      }
      return false;
    }

    /** `restart_no_load` of the read. */
    method ReadAgain(i: nat, a: nat, l: LockWord)
      requires Valid() && i < txs.Length && a < mem.Length
      modifies txs
      ensures Made(old(Abs()), i, ReadWith(old(Sh()), old(txs[i]), a, l))
    {
      txs[i] := txs[i].(pc := if l.Held? then RLoadLock(a) else RLoadValue(a, l.version));
    }

    /** The end of the read: record it and return the value, merged with the transaction's own writes. */
    method ReadDone(i: nat, a: nat, v: nat, x: Word) returns (value: Word)
      requires Valid() && i < txs.Length && a < mem.Length
      modifies txs
      ensures value == Overlay(old(txs[i]).writes, a, x)
      ensures Made(old(Abs()), i, FinishRead(old(Sh()), old(txs[i]), a, v, x))
    {
      var tx := txs[i];
      var l := Lock(a);
      var k := HasWritten(i, a);
      value := if k < |tx.writes| then Merge(x, tx.writes[k].value, tx.writes[k].mask) else x;
      txs[i] := tx.(pc := Active, log := tx.log + [Read(a, value, Memory(v, x))],
                    rset := if tx.readOnly then tx.rset else tx.rset + [REntry(l, v)]);
    }

    method GiveUp(i: nat)
      requires Valid() && i < txs.Length
      modifies txs
      ensures Made(old(Abs()), i, Rollback(old(Sh()), old(txs[i])))
    {
      var tx := txs[i];
      txs[i] := tx.(pc := if tx.acquired > 0 then Undo(|tx.writes|) else Idle);
    }

    /** The loads of lock, value and clock of `stm_wbctl_read`. */
    method Load(i: nat)
      requires Valid() && i < txs.Length
      requires var pc := txs[i].pc; pc.RLoadLock? || pc.RLoadValue? || pc.RClock?
      modifies txs
      ensures Made(old(Abs()), i, StepLoads(old(Sh()), old(txs[i])))
    {
      assert TxShape(Sh(), Abs().txs[i]);
      match txs[i].pc {
        case RLoadLock(a) =>
          var l := Lock(a);
          ReadAgain(i, a, locks[l]);
        case RLoadValue(a, v) => txs[i] := txs[i].(pc := RReloadLock(a, v, mem[a]));
        case RClock(a, v, x) =>
          if clock >= max { GiveUp(i); } else { txs[i] := txs[i].(pc := RExtend(a, v, x, clock, 0)); }
      }
    }

    /** The second load of the lock. */
    method Reload(i: nat)
      requires Valid() && i < txs.Length && txs[i].pc.RReloadLock? && TxShape(Sh(), txs[i])
      modifies txs
      ensures Made(old(Abs()), i, StepReload(old(Sh()), old(txs[i])))
    {
      var RReloadLock(a, v, x) := txs[i].pc;
      var k := Lock(a);
      var l := locks[k];
      if l != Free(v) {
        ReadAgain(i, a, l);
      } else if v <= txs[i].end {
        var value := ReadDone(i, a, v, x);
      } else if txs[i].readOnly {
        GiveUp(i);
      } else {
        txs[i] := txs[i].(pc := RClock(a, v, x));
      }
    }

    /** The third, after the snapshot has been extended. */
    method Recheck(i: nat)
      requires Valid() && i < txs.Length && txs[i].pc.RRecheck? && TxShape(Sh(), txs[i])
      modifies txs
      ensures Made(old(Abs()), i, StepRecheck(old(Sh()), old(txs[i])))
    {
      var RRecheck(a, v, x) := txs[i].pc;
      var k := Lock(a);
      if locks[k] == Free(v) {
        var value := ReadDone(i, a, v, x);
      } else {
        txs[i] := txs[i].(pc := RLoadValue(a, v));
      }
    }

    /** One turn of the loop of `stm_wbctl_validate`. */
    method EntryIsValid(i: nat, k: nat) returns (valid: bool)
      requires Valid() && i < txs.Length && TxShape(Sh(), txs[i]) && k < |txs[i].rset|
      ensures valid == EntryValid(Sh(), i, txs[i], k)
    {
      var r := txs[i].rset[k];
      match locks[r.lock] {
        case Free(v) => valid := v == r.version;
        case Held(o, e) => valid := o == i && e < |txs[i].writes| && txs[i].version[e] == r.version;
      }
    }

    method Extend(i: nat)
      requires Valid() && i < txs.Length && txs[i].pc.RExtend? && TxShape(Sh(), txs[i])
      modifies txs
      ensures Made(old(Abs()), i, StepExtend(old(Sh()), i, old(txs[i])))
    {
      var tx := txs[i];
      var RExtend(a, v, x, now, k) := tx.pc;
      if k == |tx.rset| {
        txs[i] := tx.(end := now, pc := RRecheck(a, v, x));
      } else {
        var valid := EntryIsValid(i, k);
        if valid {
          txs[i] := tx.(pc := RExtend(a, v, x, now, k + 1));
        } else {
          GiveUp(i);
        }
      }
    }

    /** `stm_wbctl_write`. */
    method Write(i: nat)
      requires Valid() && i < txs.Length && txs[i].pc.WLoadLock? && TxShape(Sh(), txs[i])
      modifies txs
      ensures Made(old(Abs()), i, StepWrite(old(Sh()), old(txs[i])))
    {
      hide Folded, Find, HasRead, Merge;
      var tx := txs[i];
      var WLoadLock(a, value, mask) := tx.pc;
      var l := Lock(a);
      match locks[l] {
        case Held(_, _) =>
        case Free(v) =>
          var k := HasWritten(i, a);
          var log := tx.log + [Op.Write(a, value, mask)];
          var read := HasReadUnder(i, l);
          if k < |tx.writes| {
            txs[i] := tx.(pc := Active, writes := tx.writes[k := Folded(tx.writes[k], value, mask)], log := log);
          } else if v > tx.end && read {
            GiveUp(i);
          } else {
            txs[i] := tx.(pc := Active, writes := tx.writes + [Update(a, value, mask)],
                          version := tx.version + [v], noDrop := tx.noDrop + [true], log := log);
          }
      }
    }

    /** The acquisition loop of `stm_wbctl_commit`: the load, */
    method AcquireLoad(i: nat)
      requires Valid() && i < txs.Length && txs[i].pc.AcqLoad? && TxShape(Sh(), txs[i])
      modifies txs
      ensures Made(old(Abs()), i, StepAcqLoad(old(Sh()), i, old(txs[i])))
    {
      var tx := txs[i];
      var k := tx.pc.k;
      var l := Lock(tx.writes[k - 1].addr);
      match locks[l] {
        case Free(v) => txs[i] := tx.(pc := AcqCas(k, v));
        case Held(o, e) =>
          if o == i && e < |tx.writes| {
            txs[i] := tx.(pc := NextAcquire(k));
          } else {
            GiveUp(i);
          }
      }
    }

    /** and the compare-and-swap. */
    method AcquireCas(i: nat)
      requires Valid() && i < txs.Length && txs[i].pc.AcqCas? && TxShape(Sh(), txs[i])
      modifies txs, locks
      ensures Made(old(Abs()), i, StepAcqCas(old(Sh()), i, old(txs[i])))
    {
      var tx := txs[i];
      var AcqCas(k, v) := tx.pc;
      var l := Lock(tx.writes[k - 1].addr);
      if locks[l] != Free(v) {
        txs[i] := tx.(pc := AcqLoad(k));
      } else {
        locks[l] := Held(i, k - 1);
        txs[i] := tx.(pc := NextAcquire(k), noDrop := tx.noDrop[k - 1 := false],
                      version := tx.version[k - 1 := v], acquired := tx.acquired + 1);
      }
    }

    /** The fetch-and-increment of the clock. */
    method TakeTimestamp(i: nat)
      requires Valid() && i < txs.Length && txs[i].pc.TakeTime?
      modifies this`clock, this`h, txs
      ensures Made(old(Abs()), i, StepTime(old(Sh()), i, old(txs[i])))
    {
      var tx := txs[i];
      var t := clock + 1;
      clock := t;
      h := h.(commits := h.commits + [CommitHistory.Commit(i, Pending, tx.start, tx.writes, tx.log)]);
      txs[i] := tx.(pc := Validate(t, 0));
    }

    /** Validation with the commit timestamp. */
    method ValidateNext(i: nat)
      requires Valid() && i < txs.Length && txs[i].pc.Validate? && TxShape(Sh(), txs[i])
      modifies this`h, txs
      ensures Made(old(Abs()), i, StepValidate(old(Sh()), i, old(txs[i])))
    {
      var tx := txs[i];
      var Validate(t, k) := tx.pc;
      if (k == 0 && tx.start == t - 1) || k == |tx.rset| {
        h := Record(h, t, Committed);
        txs[i] := tx.(pc := Install(t, 0));
      } else {
        var valid := EntryIsValid(i, k);
        if valid {
          txs[i] := tx.(pc := Validate(t, k + 1));
        } else {
          h := Record(h, t, Aborted);
          txs[i] := tx.(pc := if tx.acquired > 0 then Undo(|tx.writes|) else Idle);
        }
      }
    }

    /** Writing back: the store of a whole word, or the load before that of a part, */
    method InstallNext(i: nat)
      requires Valid() && i < txs.Length && txs[i].pc.Install? && TxShape(Sh(), txs[i])
      modifies mem, txs
      ensures Made(old(Abs()), i, StepInstall(old(Sh()), old(txs[i])))
    {
      var tx := txs[i];
      var Install(t, k) := tx.pc;
      if k == |tx.writes| {
        txs[i] := tx.(pc := Idle);
      } else {
        var w := tx.writes[k];
        if w.mask == ALL_BITS {
          mem[w.addr] := w.value;
          txs[i] := tx.(pc := Release(t, k));
        } else if w.mask != 0 {
          txs[i] := tx.(pc := Mix(t, k, mem[w.addr]));
        } else {
          txs[i] := tx.(pc := Release(t, k));
        }
      }
    }

    /** the store of a part of a word, */
    method InstallPart(i: nat)
      requires Valid() && i < txs.Length && txs[i].pc.Mix? && TxShape(Sh(), txs[i])
      modifies mem, txs
      ensures Made(old(Abs()), i, StepMix(old(Sh()), old(txs[i])))
    {
      var tx := txs[i];
      var Mix(t, k, x) := tx.pc;
      var w := tx.writes[k];
      mem[w.addr] := Merge(x, w.value, w.mask);
      txs[i] := tx.(pc := Release(t, k));
    }

    /** and the release of the lock if this entry is the one to drop it. */
    method ReleaseNext(i: nat)
      requires Valid() && i < txs.Length && txs[i].pc.Release? && TxShape(Sh(), txs[i])
      modifies this`vers, locks, txs
      ensures Made(old(Abs()), i, StepRelease(old(Sh()), old(txs[i])))
    {
      var tx := txs[i];
      var Release(t, k) := tx.pc;
      var l := Lock(tx.writes[k].addr);
      if !tx.noDrop[k] {
        locks[l] := Free(t);
        vers := vers[l := t];
      }
      txs[i] := tx.(pc := Install(t, k + 1));
    }

    /** One turn of the loop of `stm_wbctl_rollback`. */
    method UndoNext(i: nat)
      requires Valid() && i < txs.Length && txs[i].pc.Undo? && TxShape(Sh(), txs[i])
      modifies locks, txs
      ensures Made(old(Abs()), i, StepUndo(old(Sh()), old(txs[i])))
    {
      var tx := txs[i];
      var k := tx.pc.k;
      if k > 0 {
        if tx.noDrop[k - 1] {
          txs[i] := tx.(pc := Undo(k - 1));
        } else {
          var l := Lock(tx.writes[k - 1].addr);
          locks[l] := Free(tx.version[k - 1]);
          txs[i] := tx.(acquired := if tx.acquired > 0 then tx.acquired - 1 else 0,
                        pc := if tx.acquired <= 1 then Idle else Undo(k - 1));
        }
      }
    }

    /** What the program asks for between operations. */
    method User(i: nat, c: Command)
      requires Valid() && i < txs.Length && (txs[i].pc.Idle? || txs[i].pc.Active?)
      modifies this`finished, txs
      ensures Made(old(Abs()), i, StepUser(old(Sh()), i, old(txs[i]), c))
    {
      var tx := txs[i];
      if tx.pc.Idle? {
        if c.Begin? && clock < max { txs[i] := Tx(Active, c.readOnly, clock, clock, [], [], [], [], 0, []); }
      } else {
        match c {
          case Begin(_) =>
          case Load(a) =>
            if a < mem.Length {
              var k := HasWritten(i, a);
              if k < |tx.writes| && tx.writes[k].mask == ALL_BITS {
                txs[i] := tx.(log := tx.log + [Read(a, tx.writes[k].value, Buffer)]);
              } else {
                txs[i] := tx.(pc := RLoadLock(a));
              }
            }
          case Store(a, value, mask) =>
            if a < mem.Length && !tx.readOnly { txs[i] := tx.(pc := WLoadLock(a, value, mask)); }
          case Commit =>
            if tx.writes == [] {
              finished := finished + [Finished(i, tx.log, tx.start, tx.end, clock)];
              txs[i] := tx.(pc := Idle);
            } else {
              txs[i] := tx.(pc := AcqLoad(|tx.writes|));
            }
          case Abort => GiveUp(i);
        }
      }
    }

    /** Thread i makes its next access. */
    method Access(i: nat, c: Command)
      requires Valid() && i < txs.Length && TxShape(Sh(), txs[i])
      modifies this`clock, this`vers, this`h, this`finished, mem, locks, txs
      ensures Made(old(Abs()), i, CtlMachine.Step(old(Sh()), i, old(txs[i]), c))
    {
      hide Shape, StepUser, StepLoads, StepReload, StepExtend, StepRecheck, StepWrite, StepAcqLoad, StepAcqCas,
           StepTime, StepValidate, StepInstall, StepMix, StepRelease, StepUndo;
      hide SetsShape;
      match txs[i].pc {
        case Idle => User(i, c);
        case Active => User(i, c);
        case RLoadLock(_) => Load(i);
        case RLoadValue(_, _) => Load(i);
        case RReloadLock(_, _, _) => Reload(i);
        case RClock(_, _, _) => Load(i);
        case RExtend(_, _, _, _, _) => Extend(i);
        case RRecheck(_, _, _) => Recheck(i);
        case WLoadLock(_, _, _) => Write(i);
        case AcqLoad(_) => AcquireLoad(i);
        case AcqCas(_, _) => AcquireCas(i);
        case TakeTime => TakeTimestamp(i);
        case Validate(_, _) => ValidateNext(i);
        case Install(_, _) => InstallNext(i);
        case Mix(_, _, _) => InstallPart(i);
        case Release(_, _) => ReleaseNext(i);
        case Undo(_) => UndoNext(i);
      }
    }

    /** The same in a reachable state: the invariant, and with it opacity, survives. */
    method Step(i: nat, c: Command)
      requires Valid() && Inv(Abs()) && i < txs.Length
      modifies this`clock, this`vers, this`h, this`finished, mem, locks, txs
      ensures Valid() && Inv(Abs()) && Abs() == Next(old(Abs()), i, c)
    {
      ghost var s := Abs();
      assert TxShape(Sh(), s.txs[i]);
      NextInv(s, i, c);
      ShapeKept(s, i, c);
      SameLocks(s, i, c);
      hide Inv, Shape, CtlMachine.Step;
      Access(i, c);
      assert Abs() == Next(s, i, c);
    }

    /** `rollover_clock`, called when no transaction is active: the clock and the lock array are zeroed. The idle
        descriptors are cleared along with them. */
    method Rollover()
      requires Valid() && Reachable(Abs()) && forall i :: 0 <= i < txs.Length ==> txs[i].pc.Idle?
      modifies this`clock, this`vers, this`h, this`finished, locks, txs
      ensures Valid() && Abs() == RolledOver(old(Abs())) && Initial(Abs())
    {
      ghost var s := Abs();
      RolloverStartsAfresh(s);
      hide Inv, Reachable, Initial, Shape, MemoryAt;
      clock := 0;
      ZeroLocks();
      ClearDescriptors();
      vers, h, finished := seq(locks.Length, _ => 0), History(lockOf, mem[..], []), [];
      assert Abs() == RolledOver(s);
      ShapeOfInitial(Abs());
    }

    method ZeroLocks()
      requires (locks as object) != (txs as object) && (locks as object) != (mem as object)
      modifies locks
      ensures locks[..] == seq(locks.Length, _ => Free(0))
    {
      for l := 0 to locks.Length
        invariant forall k :: 0 <= k < l ==> locks[k] == Free(0)
      {
        locks[l] := Free(0);
      }
    }

    method ClearDescriptors()
      modifies txs
      ensures txs[..] == seq(txs.Length, k requires 0 <= k < |old(txs[..])| =>
                              Tx(Idle, false, 0, 0, [], [], [], [], 0, []))
    {
      ghost var was := txs[..];
      for i := 0 to txs.Length
        invariant forall k :: 0 <= k < i ==> txs[k] == Tx(Idle, false, 0, 0, [], [], [], [], 0, [])
        invariant forall k :: i <= k < txs.Length ==> txs[k] == was[k]
      {
        txs[i] := Tx(Idle, false, 0, 0, [], [], [], [], 0, []);
      }
    }
  }

  lemma ShapeOfInitial(s: State)
    requires Initial(s)
    ensures Shape(s)
  {
  }

  /** The map from words to locks is fixed. */
  lemma SameLocks(s: State, i: nat, c: Command)
    requires Shape(s) && i < |s.txs|
    ensures Next(s, i, c).sh.h.lockOf == s.sh.h.lockOf
  {
    hide CtlMachine.Step, SetsShape;
    ShapeOfStep(s.sh, i, s.txs[i], c);
  }
}
