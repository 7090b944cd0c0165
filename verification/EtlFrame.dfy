/** The kinds of change one access makes to the shared data, and the clauses about all threads after each. */
module EtlFrame {
  import opened CommitHistory
  import opened EtlMachine
  import opened EtlInvariant
  import opened EtlProof

  ghost predicate GoodAfter(sh: Shared, r: After) {
    SharedShape(r.sh) && TxShape(r.sh, r.tx) && SameFrame(sh, r.sh)
  }

  ghost predicate OthersLeftAlone(s: State, i: nat, sh': Shared) {
    forall j :: 0 <= j < |s.txs| && j != i ==> Env(s.sh, sh', j)
  }

  /** The bookkeeping about threads and locks. */
  ghost predicate BooksOk(s: State)
    requires SharedShape(s.sh)
  {
    OwnersOk(s) && PendingOk(s) && VersionsOk(s)
  }

  lemma ShapeAfter(s: State, i: nat, r: After)
    requires Inv(s) && i < |s.txs| && GoodAfter(s.sh, r)
    ensures Shape(State(r.sh, s.txs[i := r.tx]))
  {
    hide TxsOk, OwnersOk, PendingOk, VersionsOk, MemoryOk, PastOk, SetsShape;
  }

  /** The other threads keep their clauses; what is left are the acting thread and the clauses about all. */
  lemma Assemble(s: State, i: nat, r: After)
    requires Inv(s) && i < |s.txs| && GoodAfter(s.sh, r) && OthersLeftAlone(s, i, r.sh)
    requires TxOk(r.sh, i, r.tx) && PastOk(r.sh)
    requires Shape(State(r.sh, s.txs[i := r.tx]))
    requires BooksOk(State(r.sh, s.txs[i := r.tx])) && MemoryOk(State(r.sh, s.txs[i := r.tx]))
    ensures Inv(State(r.sh, s.txs[i := r.tx]))
  {
    hide OwnersOk, PendingOk, VersionsOk, MemoryOk, PastOk, TxOk, Env, TxShape, BasesFixed;
    var s' := State(r.sh, s.txs[i := r.tx]);
    forall j | 0 <= j < |s'.txs|
      ensures TxOk(r.sh, j, s'.txs[j])
    {
      if j != i {
        assert TxShape(s.sh, s.txs[j]) && TxShape(r.sh, s'.txs[j]) && TxOk(s.sh, j, s.txs[j]);
        AllBasesFixed(s, j);
        TxStable(s.sh, r.sh, j, s.txs[j]);
      }
    }
  }

  lemma GrowsSame(h: History)
    ensures Grows(h, h)
  {
  }

  /** The history is not touched: nor is what it says about the past. */
  lemma PastSame(sh: Shared, sh': Shared)
    requires SharedShape(sh) && SharedShape(sh') && sh'.h == sh.h && sh'.finished == sh.finished
             && |sh'.mem| == |sh.mem|
    requires PastOk(sh)
    ensures PastOk(sh')
  {
    hide LogOk, ReadsHold, EffectOk, OwnReadsAt;
    forall t | 0 < t <= sh'.clock
      ensures CommitOk(sh', t)
    {
      assert CommitOk(sh, t);
    }
    forall k | 0 <= k < |sh'.finished|
      ensures FinishedOk(sh', sh'.finished[k])
    {
      assert FinishedOk(sh, sh.finished[k]);
    }
  }

  // ---- lock words stay as they are ----

  /** The thread still accounts for its locks and its timestamp. */
  ghost predicate RoleKept(sh: Shared, i: nat, tx: Tx, tx': Tx) {
    && (tx.pc.Validate? ==> tx'.pc.Validate? && tx'.pc.t == tx.pc.t)
    && forall l {:trigger OwnLock(sh, i, l)} :: 0 <= l < |sh.locks| && OwnLock(sh, i, l) ==>
         CoversFrom(sh.h.lockOf, tx'.entries, Pos(tx'), l) && Ts(tx'.pc) == Ts(tx.pc)
  }

  /** Only words under own locks are stored to. */
  predicate OwnWords(sh: Shared, i: nat, mem': seq<Word>) {
    |mem'| == |sh.mem| && forall a :: 0 <= a < |mem'| ==> mem'[a] == sh.mem[a] || OwnLock(sh, i, Lk(sh, a))
  }

  lemma KeepBooks(s: State, i: nat, sh': Shared, tx': Tx)
    requires Inv(s) && i < |s.txs| && SharedShape(sh') && OwnWords(s.sh, i, sh'.mem)
    requires sh' == s.sh.(mem := sh'.mem, finished := sh'.finished) && RoleKept(s.sh, i, s.txs[i], tx')
    ensures BooksOk(State(sh', s.txs[i := tx'])) && OthersLeftAlone(s, i, sh')
  {
    hide TxsOk, PastOk, MemoryOk, TxShape, Grows, Touches, CoversFrom, Ts;
    var s' := State(sh', s.txs[i := tx']);
    GrowsSame(s.sh.h);
    forall l | 0 <= l < |s.sh.locks|
      ensures Owned(s', l)
    {
      assert Owned(s, l);
      assert OwnLock(s.sh, i, l) || !OwnLock(s.sh, i, l);
    }
    forall l, t {:trigger Touches(s.sh.h, t, l)} | 0 <= l < |s.sh.locks| && s.sh.vers[l].version < t <= s.sh.clock
        && !s.sh.h.commits[t - 1].status.Aborted? && Touches(s.sh.h, t, l)
      ensures Newest(s', l, t)
    {
      assert Newest(s, l, t);
      assert OwnLock(s.sh, i, l) || !OwnLock(s.sh, i, l);
    }
  }

  /** The words under the thread's locks are what it says they are. */
  ghost predicate OwnWordsOk(sh: Shared, i: nat, tx: Tx)
    requires SharedShape(sh)
  {
    forall a :: 0 <= a < |sh.mem| && OwnLock(sh, i, Lk(sh, a)) ==> sh.mem[a] == OwnerWord(sh, tx, a)
  }

  /** What a word is to hold does not depend on lock words or memory. */
  lemma SameOwnerWord(sh: Shared, sh': Shared, tx: Tx, a: nat)
    requires SharedShape(sh) && SharedShape(sh') && sh'.h == sh.h && sh'.design == sh.design
    requires Lk(sh, a) < |sh.vers| == |sh'.vers| && sh'.vers[Lk(sh, a)] == sh.vers[Lk(sh, a)]
    ensures OwnerWord(sh', tx, a) == OwnerWord(sh, tx, a)
  {
  }

  lemma KeepMemory(s: State, i: nat, sh': Shared, tx': Tx)
    requires Inv(s) && i < |s.txs| && SharedShape(sh') && TxShape(sh', tx') && OwnWords(s.sh, i, sh'.mem)
    requires sh' == s.sh.(mem := sh'.mem, finished := sh'.finished)
    requires Shape(State(sh', s.txs[i := tx'])) && OwnWordsOk(sh', i, tx')
    ensures MemoryOk(State(sh', s.txs[i := tx']))
  {
    hide TxsOk, PastOk, TxShape, OwnersOk, PendingOk, VersionsOk, ValueAt, OwnerWord;
    var s' := State(sh', s.txs[i := tx']);
    forall a | 0 <= a < |s.sh.mem|
      ensures WordOk(s', a)
    {
      assert WordOk(s, a);
      var w := s.sh.locks[Lk(s.sh, a)];
      if w.Held? && w.owner < |s.txs| {
        SameOwnerWord(s.sh, sh', s.txs[w.owner], a);
      }
    }
  }

  /** Everything after an access that leaves locks, clock and history alone. */
  lemma KeepInv(s: State, i: nat, sh': Shared, tx': Tx)
    requires Inv(s) && i < |s.txs| && SharedShape(sh') && TxShape(sh', tx') && OwnWords(s.sh, i, sh'.mem)
    requires sh' == s.sh.(mem := sh'.mem, finished := sh'.finished) && RoleKept(s.sh, i, s.txs[i], tx')
    requires OwnWordsOk(sh', i, tx') && TxOk(sh', i, tx') && PastOk(sh')
    ensures Inv(State(sh', s.txs[i := tx']))
  {
    var r := After(sh', tx');
    assert GoodAfter(s.sh, r);
    hide Inv, TxOk, PastOk, OwnWordsOk, OwnWords, RoleKept, TxShape, GoodAfter, BooksOk, OthersLeftAlone, MemoryOk,
         Shape;
    ShapeAfter(s, i, r);
    KeepBooks(s, i, sh', tx');
    KeepMemory(s, i, sh', tx');
    Assemble(s, i, r);
  }

  // ---- a lock is taken ----

  lemma TakeBooks(s: State, i: nat, l: nat, e: nat, tx': Tx)
    requires Inv(s) && i < |s.txs| && l < |s.sh.locks| && s.sh.locks[l].Free?
    requires RoleKept(s.sh, i, s.txs[i], tx') && CoversFrom(s.sh.h.lockOf, tx'.entries, Pos(tx'), l)
    requires SharedShape(s.sh.(locks := s.sh.locks[l := Held(i, e)]))
    ensures var sh' := s.sh.(locks := s.sh.locks[l := Held(i, e)]);
            BooksOk(State(sh', s.txs[i := tx'])) && OthersLeftAlone(s, i, sh')
  {
    hide TxsOk, PastOk, MemoryOk, TxShape, Grows, Touches, CoversFrom, Ts;
    var sh' := s.sh.(locks := s.sh.locks[l := Held(i, e)]);
    var s' := State(sh', s.txs[i := tx']);
    GrowsSame(s.sh.h);
    forall m | 0 <= m < |s.sh.locks|
      ensures Owned(s', m)
    {
      assert Owned(s, m);
      assert OwnLock(s.sh, i, m) || !OwnLock(s.sh, i, m);
    }
    forall m, t {:trigger Touches(s.sh.h, t, m)} | 0 <= m < |s.sh.locks| && s.sh.vers[m].version < t <= s.sh.clock
        && !s.sh.h.commits[t - 1].status.Aborted? && Touches(s.sh.h, t, m)
      ensures Newest(s', m, t)
    {
      assert Newest(s, m, t);
      assert OwnLock(s.sh, i, m) || !OwnLock(s.sh, i, m);
    }
  }

  lemma TakeMemory(s: State, i: nat, l: nat, e: nat, tx': Tx)
    requires Inv(s) && i < |s.txs| && l < |s.sh.locks| && s.sh.locks[l].Free?
    requires var sh' := s.sh.(locks := s.sh.locks[l := Held(i, e)]);
             SharedShape(sh') && TxShape(sh', tx') && Shape(State(sh', s.txs[i := tx'])) && OwnWordsOk(sh', i, tx')
    ensures MemoryOk(State(s.sh.(locks := s.sh.locks[l := Held(i, e)]), s.txs[i := tx']))
  {
    hide TxsOk, PastOk, TxShape, OwnersOk, PendingOk, VersionsOk, ValueAt, OwnerWord;
    var sh' := s.sh.(locks := s.sh.locks[l := Held(i, e)]);
    var s' := State(sh', s.txs[i := tx']);
    forall a | 0 <= a < |s.sh.mem|
      ensures WordOk(s', a)
    {
      assert WordOk(s, a);
      var w := s.sh.locks[Lk(s.sh, a)];
      if w.Held? && w.owner < |s.txs| {
        SameOwnerWord(s.sh, sh', s.txs[w.owner], a);
      }
    }
  }

  // ---- a lock is released ----

  lemma FreeBooks(s: State, i: nat, a: nat, st: Stamp, tx': Tx)
    requires Inv(s) && i < |s.txs| && a < |s.sh.mem| && OwnLock(s.sh, i, Lk(s.sh, a))
             && SharedShape(FreeLock(s.sh, a, st))
    requires NotAfter(s.sh.vers[Lk(s.sh, a)], st) && st.version <= s.sh.clock
    requires s.sh.design.WriteThrough? ==> Before(s.sh.vers[Lk(s.sh, a)], st)
    requires Ts(s.txs[i].pc) <= st.version || Ts(s.txs[i].pc) == 0
    requires !s.txs[i].pc.Validate?
    requires forall l {:trigger OwnLock(s.sh, i, l)} ::
             0 <= l < |s.sh.locks| && OwnLock(s.sh, i, l) && l != Lk(s.sh, a) ==>
               CoversFrom(s.sh.h.lockOf, tx'.entries, Pos(tx'), l) && Ts(tx'.pc) == Ts(s.txs[i].pc)
    ensures BooksOk(State(FreeLock(s.sh, a, st), s.txs[i := tx'])) && OthersLeftAlone(s, i, FreeLock(s.sh, a, st))
  {
    hide TxsOk, PastOk, MemoryOk, TxShape, Grows, Touches, CoversFrom, Ts;
    var sh' := FreeLock(s.sh, a, st);
    var s' := State(sh', s.txs[i := tx']);
    GrowsSame(s.sh.h);
    forall m | 0 <= m < |s.sh.locks|
      ensures Owned(s', m)
    {
      assert Owned(s, m);
      assert OwnLock(s.sh, i, m) || !OwnLock(s.sh, i, m);
    }
    forall m, t {:trigger Touches(s.sh.h, t, m)} | 0 <= m < |s.sh.locks| && sh'.vers[m].version < t <= s.sh.clock
        && !s.sh.h.commits[t - 1].status.Aborted? && Touches(s.sh.h, t, m)
      ensures Newest(s', m, t)
    {
      assert Newest(s, m, t);
      assert OwnLock(s.sh, i, m) || !OwnLock(s.sh, i, m);
    }
  }

  lemma FreeMemory(s: State, i: nat, a: nat, st: Stamp, tx': Tx)
    requires Inv(s) && i < |s.txs| && a < |s.sh.mem| && OwnLock(s.sh, i, Lk(s.sh, a))
    requires SharedShape(FreeLock(s.sh, a, st)) && Shape(State(FreeLock(s.sh, a, st), s.txs[i := tx']))
    requires OwnWordsOk(FreeLock(s.sh, a, st), i, tx')
    requires forall b :: 0 <= b < |s.sh.mem| && Lk(s.sh, b) == Lk(s.sh, a) ==>
             s.sh.mem[b] == ValueAt(s.sh.h, s.sh.clock, b)
    ensures MemoryOk(State(FreeLock(s.sh, a, st), s.txs[i := tx']))
  {
    hide TxsOk, PastOk, TxShape, OwnersOk, PendingOk, VersionsOk, ValueAt, OwnerWord;
    var sh' := FreeLock(s.sh, a, st);
    var s' := State(sh', s.txs[i := tx']);
    forall b | 0 <= b < |s.sh.mem|
      ensures WordOk(s', b)
    {
      assert WordOk(s, b);
      var w := s.sh.locks[Lk(s.sh, b)];
      if Lk(s.sh, b) != Lk(s.sh, a) && w.Held? && w.owner < |s.txs| {
        SameOwnerWord(s.sh, sh', s.txs[w.owner], b);
      }
    }
  }

  lemma FreeInv(s: State, i: nat, a: nat, st: Stamp, tx': Tx)
    requires Inv(s) && i < |s.txs| && a < |s.sh.mem| && OwnLock(s.sh, i, Lk(s.sh, a))
    requires GoodAfter(s.sh, After(FreeLock(s.sh, a, st), tx'))
    requires NotAfter(s.sh.vers[Lk(s.sh, a)], st) && st.version <= s.sh.clock
    requires s.sh.design.WriteThrough? ==> Before(s.sh.vers[Lk(s.sh, a)], st)
    requires Ts(s.txs[i].pc) <= st.version || Ts(s.txs[i].pc) == 0
    requires !s.txs[i].pc.Validate?
    requires forall l {:trigger OwnLock(s.sh, i, l)} ::
             0 <= l < |s.sh.locks| && OwnLock(s.sh, i, l) && l != Lk(s.sh, a) ==>
               CoversFrom(s.sh.h.lockOf, tx'.entries, Pos(tx'), l) && Ts(tx'.pc) == Ts(s.txs[i].pc)
    requires OwnWordsOk(FreeLock(s.sh, a, st), i, tx') && TxOk(FreeLock(s.sh, a, st), i, tx')
    requires forall b :: 0 <= b < |s.sh.mem| && Lk(s.sh, b) == Lk(s.sh, a) ==>
             s.sh.mem[b] == ValueAt(s.sh.h, s.sh.clock, b)
    ensures Inv(State(FreeLock(s.sh, a, st), s.txs[i := tx']))
  {
    var r := After(FreeLock(s.sh, a, st), tx');
    ShapeAfter(s, i, r);
    PastSame(s.sh, r.sh) by { hide TxsOk; }
    hide Inv, TxOk, PastOk, OwnWordsOk, TxShape, GoodAfter, BooksOk, OthersLeftAlone, MemoryOk, ValueAt, CoversFrom,
         Ts, Shape;
    FreeBooks(s, i, a, st, tx');
    FreeMemory(s, i, a, st, tx');
    Assemble(s, i, r);
  }

  // ---- a timestamp is taken ----

  lemma TickGrows(sh: Shared, c: CommitHistory.Commit)
    requires SharedShape(sh)
    ensures Grows(sh.h, Tick(sh, c).h) && SharedShape(Tick(sh, c))
  {
  }

  lemma TickTouches(h: History, c: CommitHistory.Commit, t: nat, l: nat)
    requires 0 < t <= |h.commits|
    ensures Touches(h.(commits := h.commits + [c]), t, l) == Touches(h, t, l)
  {
  }

  lemma TickNewTouches(h: History, c: CommitHistory.Commit, l: nat)
    ensures Touches(h.(commits := h.commits + [c]), |h.commits| + 1, l) == Covers(h.lockOf, c.writes, l)
  {
  }

  /** A timestamp taken for a commit covers locks of its thread only; one taken by a rollback covers none. */
  lemma TickBooks(s: State, i: nat, c: CommitHistory.Commit, tx': Tx)
    requires Inv(s) && i < |s.txs| && c.tid == i && !s.txs[i].pc.Validate? && !c.status.Committed?
    requires c.status.Pending? ==> tx'.pc.Validate? && tx'.pc.t == s.sh.clock + 1 && Ts(s.txs[i].pc) == 0
    requires c.status.Pending? ==> forall l :: Covers(s.sh.h.lockOf, c.writes, l) ==> OwnLock(s.sh, i, l)
    requires c.status.Aborted? ==> Ts(tx'.pc) == Ts(s.txs[i].pc)
    requires forall l {:trigger OwnLock(s.sh, i, l)} :: 0 <= l < |s.sh.locks| && OwnLock(s.sh, i, l) ==>
               CoversFrom(s.sh.h.lockOf, tx'.entries, Pos(tx'), l)
    requires SharedShape(Tick(s.sh, c))
    ensures BooksOk(State(Tick(s.sh, c), s.txs[i := tx']))
    ensures forall j :: 0 <= j < |s.txs| ==> Env(s.sh, Tick(s.sh, c), j)
  {
    hide TxsOk, PastOk, MemoryOk, TxShape, Grows, Touches, CoversFrom, Covers;
    var sh' := Tick(s.sh, c);
    var s' := State(sh', s.txs[i := tx']);
    TickGrows(s.sh, c);
    forall m | 0 <= m < |s.sh.locks|
      ensures Owned(s', m)
    {
      assert Owned(s, m);
      assert OwnLock(s.sh, i, m) || !OwnLock(s.sh, i, m);
    }
    forall m, t {:trigger Touches(sh'.h, t, m)} | 0 <= m < |s.sh.locks| && sh'.vers[m].version < t <= sh'.clock
        && !sh'.h.commits[t - 1].status.Aborted? && Touches(sh'.h, t, m)
      ensures Newest(s', m, t)
    {
      if t <= s.sh.clock {
        TickTouches(s.sh.h, c, t, m);
        assert Newest(s, m, t);
        assert OwnLock(s.sh, i, m) || !OwnLock(s.sh, i, m);
      } else {
        TickNewTouches(s.sh.h, c, m);
      }
    }
  }

  lemma TickOwnerWord(sh: Shared, c: CommitHistory.Commit, tx: Tx, a: nat)
    requires SharedShape(sh) && SharedShape(Tick(sh, c)) && !c.status.Committed?
             && (Ts(tx.pc) <= sh.clock || !Writing(tx.pc))
    requires Lk(sh, a) < |sh.vers| && sh.vers[Lk(sh, a)].version <= sh.clock
    ensures OwnerWord(Tick(sh, c), tx, a) == OwnerWord(sh, tx, a)
    ensures ValueAt(Tick(sh, c).h, sh.clock + 1, a) == ValueAt(sh.h, sh.clock, a)
  {
    hide Apply, Effect;
    ValueAppend(sh.h, c, sh.clock, a);
    ValueAppend(sh.h, c, sh.vers[Lk(sh, a)].version, a);
    if Writing(tx.pc) && 0 < Ts(tx.pc) {
      ValueAppend(sh.h, c, Ts(tx.pc) - 1, a);
    }
  }

  lemma StampBound(s: State, o: nat)
    requires Inv(s) && o < |s.txs|
    ensures Ts(s.txs[o].pc) <= s.sh.clock
    ensures Writing(s.txs[o].pc) || s.txs[o].pc.Validate? ==> 0 < Ts(s.txs[o].pc)
  {
    hide TxsOk, PastOk, MemoryOk, OwnersOk, PendingOk, VersionsOk;
    assert TxShape(s.sh, s.txs[o]);
  }

  lemma TickMemory(s: State, i: nat, c: CommitHistory.Commit, tx': Tx)
    requires Inv(s) && i < |s.txs| && !c.status.Committed? && SharedShape(Tick(s.sh, c))
    requires Shape(State(Tick(s.sh, c), s.txs[i := tx']))
    requires forall a :: 0 <= a < |s.sh.mem| && OwnLock(s.sh, i, Lk(s.sh, a)) ==>
               OwnerWord(s.sh, tx', a) == OwnerWord(s.sh, s.txs[i], a)
    requires Ts(tx'.pc) <= s.sh.clock || !Writing(tx'.pc)
    ensures MemoryOk(State(Tick(s.sh, c), s.txs[i := tx']))
  {
    hide TxsOk, PastOk, TxShape, OwnersOk, PendingOk, OwnerWord, ValueAt, Touches;
    var sh' := Tick(s.sh, c);
    var s' := State(sh', s.txs[i := tx']);
    forall a | 0 <= a < |s.sh.mem|
      ensures WordOk(s', a)
    {
      assert WordOk(s, a);
      var w := s.sh.locks[Lk(s.sh, a)];
      if w.Held? && w.owner < |s.txs| {
        StampBound(s, w.owner);
        TickOwnerWord(s.sh, c, s.txs[w.owner], a);
        if w.owner == i {
          TickOwnerWord(s.sh, c, tx', a);
        }
      } else {
        TickOwnerWord(s.sh, c, s.txs[i], a) by { StampBound(s, i); }
      }
    }
  }

  // ---- a timestamp is decided ----

  lemma RecordTouches(h: History, t: nat, st: Status, u: nat, l: nat)
    requires 0 < t <= |h.commits| && 0 < u <= |h.commits|
    ensures Touches(Record(h, t, st), u, l) == Touches(h, u, l)
  {
  }

  ghost predicate Decides(s: State, i: nat, st: Status, tx': Tx) {
    && i < |s.txs| && s.txs[i].pc.Validate? && !st.Pending?
    && 0 < s.txs[i].pc.t <= s.sh.clock && s.sh.clock == |s.sh.h.commits|
    && tx' == s.txs[i].(pc := if st.Committed? then Install(s.txs[i].pc.t, 0) else RollbackPc(s.txs[i]))
  }

  function Decided(s: State, i: nat, st: Status): Shared
    requires i < |s.txs| && s.txs[i].pc.Validate? && 0 < s.txs[i].pc.t <= |s.sh.h.commits|
  {
    s.sh.(h := Record(s.sh.h, s.txs[i].pc.t, st))
  }

  lemma StampPending(s: State, i: nat)
    requires Inv(s) && i < |s.txs| && s.txs[i].pc.Validate?
    ensures var t := s.txs[i].pc.t;
            0 < t <= s.sh.clock && s.sh.h.commits[t - 1].status.Pending? && s.sh.h.commits[t - 1].tid == i
            && s.sh.h.commits[t - 1].start == s.txs[i].start && s.sh.h.commits[t - 1].log == s.txs[i].log
            && SameAddresses(s.sh.h.commits[t - 1].writes, s.txs[i].entries)
  {
    hide PastOk, OwnersOk, VersionsOk, PendingOk, MemoryOk, LogOk, SnapshotOk, RunOk, PcOk, EntriesHeld, EntryValues,
         ChainsOk, EffectOk, OwnReadsAt;
    assert TxShape(s.sh, s.txs[i]) && TxOk(s.sh, i, s.txs[i]);
  }

  lemma DecideBooks(s: State, i: nat, st: Status, tx': Tx)
    requires Inv(s) && Decides(s, i, st, tx')
    ensures Grows(s.sh.h, Decided(s, i, st).h) && SharedShape(Decided(s, i, st))
    ensures BooksOk(State(Decided(s, i, st), s.txs[i := tx'])) && OthersLeftAlone(s, i, Decided(s, i, st))
  {
    hide TxsOk, PastOk, MemoryOk, TxShape, Grows, Touches;
    var t := s.txs[i].pc.t;
    var sh' := Decided(s, i, st);
    var s' := State(sh', s.txs[i := tx']);
    StampPending(s, i);
    RecordGrows(s.sh.h, t, st);
    forall m | 0 <= m < |s.sh.locks|
      ensures Owned(s', m)
    {
      assert Owned(s, m);
    }
    forall m, u {:trigger Touches(sh'.h, u, m)} | 0 <= m < |s.sh.locks| && sh'.vers[m].version < u <= sh'.clock
        && !sh'.h.commits[u - 1].status.Aborted? && Touches(sh'.h, u, m)
      ensures Newest(s', m, u)
    {
      RecordTouches(s.sh.h, t, st, u, m);
      assert Newest(s, m, u);
    }
  }
}
