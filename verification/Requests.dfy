/** What a program asks of its transactions, and what has to come of it. */
module Requests {
  import opened CommitHistory

  datatype Request = Get(a: nat) | Put(a: nat, value: Word, mask: Word)

  datatype Ending = NotBegun | Going | Committing | Aborting

  /** The present attempt of a thread as its program sees it: when and how it began, the loads and stores asked for
      since, and whether it has been told to commit or to abort. */
  datatype Attempt = Attempt(readOnly: bool, start: nat, requests: seq<Request>, ending: Ending)

  const None: Attempt := Attempt(false, 0, [], NotBegun)

  /** The operation is the one that was asked for. */
  predicate Answers(op: Op, r: Request) {
    match r
    case Get(a) => op.Read? && op.addr == a
    case Put(a, value, mask) => op == Write(a, value, mask)
  }

  predicate Matches(log: seq<Op>, rs: seq<Request>) {
    |log| == |rs| && forall k :: 0 <= k < |rs| ==> Answers(log[k], rs[k])
  }

  /** The content of word `a` after the stores asked for, when it was `x` before. */
  function Result(rs: seq<Request>, x: Word, a: nat): Word {
    if rs == [] then x else
      var before := Result(rs[..|rs| - 1], x, a);
      var r := rs[|rs| - 1];
      if r.Put? && r.a == a then Merge(before, r.value, r.mask) else before
  }

  /** A legal log of exactly these requests leaves in every word what the stores make of it, and every load has
      returned what the stores before it made of its word. */
  lemma {:induction false} LegalResult(m: seq<Word>, log: seq<Op>, rs: seq<Request>)
    requires Matches(log, rs) && Replay(m, log).Legal?
    ensures forall a :: 0 <= a < |m| ==> Replay(m, log).mem[a] == Result(rs, m[a], a)
    ensures forall k :: 0 <= k < |rs| && rs[k].Get? ==>
              rs[k].a < |m| && log[k].value == Result(rs[..k], m[rs[k].a], rs[k].a)
    decreases |log|
  {
    hide Merge;
    if log != [] {
      var n := |log| - 1;
      LegalResult(m, log[..n], rs[..n]);
      assert Answers(log[n], rs[n]);
      forall k | 0 <= k < |rs| && rs[k].Get?
        ensures rs[k].a < |m| && log[k].value == Result(rs[..k], m[rs[k].a], rs[k].a)
      {
        if k < n { assert rs[..n][..k] == rs[..k] && log[..n][k] == log[k] && rs[..n][k] == rs[k]; }
      }
    }
  }

  predicate NoPut(rs: seq<Request>) {
    forall k :: 0 <= k < |rs| ==> !rs[k].Put?
  }

  lemma {:induction false} NoPutNoChange(m: seq<Word>, log: seq<Op>, rs: seq<Request>)
    requires Matches(log, rs) && NoPut(rs) && Replay(m, log).Legal?
    ensures Replay(m, log).mem == m
    decreases |log|
  {
    if log != [] {
      var n := |log| - 1;
      NoPutNoChange(m, log[..n], rs[..n]);
      assert Answers(log[n], rs[n]) && !rs[n].Put?;
    }
  }

  lemma NothingAsked()
    ensures Matches([], [])
  {
  }

  /** The log answers all requests but the last, which is r. */
  predicate Owes(log: seq<Op>, rs: seq<Request>, r: Request) {
    |rs| > 0 && rs[|rs| - 1] == r && Matches(log, rs[..|rs| - 1])
  }

  lemma Paid(log: seq<Op>, rs: seq<Request>, op: Op, r: Request)
    requires Owes(log, rs, r) && Answers(op, r)
    ensures Matches(log + [op], rs)
  {
    assert rs == rs[..|rs| - 1] + [r];
  }

  lemma Asked(log: seq<Op>, rs: seq<Request>, r: Request)
    requires Matches(log, rs)
    ensures Owes(log, rs + [r], r)
  {
    assert (rs + [r])[..|rs|] == rs;
  }
}
