/** The encoding of lock words (stm_internal.h) in 64-bit words, as arithmetic on numbers below 2^64: the owned
    bit, three bits of incarnation, and the timestamp. */
module LockWords {

  const WORDS: nat := 0x1_0000_0000_0000_0000
  const INCARNATION_MAX: nat := 7
  const MAX_THREADS: nat := 8192
  const VERSION_MAX: nat := (WORDS - 1) / 16 - MAX_THREADS

  predicate IsOwned(l: nat) {
    l % 2 == 1
  }

  /** `t << LOCK_BITS`, which drops what does not fit. */
  function SetTimestamp(t: nat): nat {
    t * 16 % WORDS
  }

  function GetTimestamp(l: nat): nat {
    l / 16
  }

  function GetIncarnation(l: nat): nat {
    l % 16 / 2
  }

  /** The word with its low bits replaced by an incarnation number. */
  function UpdIncarnation(l: nat, i: nat): nat {
    l - l % 16 + i * 2
  }

  /** A timestamp survives exactly as long as it exceeds VERSION_MAX by no more than MAX_THREADS. */
  lemma TimestampFits(t: nat)
    ensures GetTimestamp(SetTimestamp(t)) == t <==> t <= VERSION_MAX + MAX_THREADS
    ensures !IsOwned(SetTimestamp(t)) && GetIncarnation(SetTimestamp(t)) == 0 && SetTimestamp(t) < WORDS
  {
    if t <= VERSION_MAX + MAX_THREADS {
      assert t * 16 < WORDS;
    } else {
      assert SetTimestamp(t) < WORDS;
    }
    var q := t * 16 / WORDS;
    assert t * 16 == q * WORDS + SetTimestamp(t);
    assert SetTimestamp(t) == 16 * (t - q * (WORDS / 16));
  }

  /** A free word and its two parts. */
  function Build(t: nat, i: nat): nat {
    16 * t + 2 * i
  }

  lemma BuildParts(t: nat, i: nat)
    requires i <= INCARNATION_MAX
    ensures var l := Build(t, i); !IsOwned(l) && l % 16 == 2 * i && GetTimestamp(l) == t && GetIncarnation(l) == i
  {
    var l := Build(t, i);
    Remainder(l, t, 2 * i);
    assert l == 2 * (8 * t + i);
  }

  lemma Remainder(l: nat, q: nat, r: nat)
    requires l == 16 * q + r && r < 16
    ensures l / 16 == q && l % 16 == r
  {
  }

  lemma Divide(l: nat)
    ensures l == 16 * (l / 16) + l % 16 && l % 16 < 16
  {
  }

  lemma Even(l: nat, q: nat, r: nat)
    requires l == 16 * q + r && l % 2 == 0
    ensures r % 2 == 0
  {
    var h := l / 2;
    assert r == 2 * (h - 8 * q);
  }

  lemma Halve(r: nat)
    requires r % 2 == 0
    ensures r == 2 * (r / 2)
  {
  }

  lemma FreeWord(l: nat)
    requires !IsOwned(l)
    ensures l == Build(GetTimestamp(l), GetIncarnation(l)) && GetIncarnation(l) <= INCARNATION_MAX
    ensures l % 16 == 2 * GetIncarnation(l)
  {
    Divide(l);
    Even(l, l / 16, l % 16);
    Halve(l % 16);
  }

  lemma Updated(l: nat, i: nat)
    requires !IsOwned(l)
    ensures UpdIncarnation(l, i) == Build(GetTimestamp(l), i)
  {
    FreeWord(l);
    hide GetTimestamp, GetIncarnation, IsOwned;
  }

  lemma BuildFits(t: nat, j: nat, i: nat)
    requires Build(t, j) < WORDS && i <= INCARNATION_MAX
    ensures Build(t, i) < WORDS
  {
    var p := 0x1000_0000_0000_0000;
    assert WORDS == 16 * p;
    assert t < p;
  }

  /** A free word is its timestamp and its incarnation number, and changing the latter leaves the former. */
  lemma IncarnationUpdates(l: nat, i: nat)
    requires l < WORDS && !IsOwned(l) && i <= INCARNATION_MAX
    ensures var r := UpdIncarnation(l, i);
            r < WORDS && !IsOwned(r) && GetTimestamp(r) == GetTimestamp(l) && GetIncarnation(r) == i
    ensures UpdIncarnation(l, GetIncarnation(l)) == l
  {
    FreeWord(l);
    Updated(l, i);
    Updated(l, GetIncarnation(l));
    BuildParts(GetTimestamp(l), i);
    BuildFits(GetTimestamp(l), GetIncarnation(l), i);
    hide GetTimestamp, GetIncarnation, IsOwned, UpdIncarnation, Build;
  }

  /** Free words are ordered like pairs of timestamp and incarnation number. */
  lemma WordOrder(l: nat, m: nat)
    requires !IsOwned(l) && !IsOwned(m)
    ensures l < m <==> (GetTimestamp(l) < GetTimestamp(m)
                        || (GetTimestamp(l) == GetTimestamp(m) && GetIncarnation(l) < GetIncarnation(m)))
  {
    FreeWord(l);
    FreeWord(m);
    hide GetTimestamp, GetIncarnation, IsOwned;
  }
}
