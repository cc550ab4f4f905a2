/** Openers and their nearest closers, searched pair by pair: what one-pass matching has to agree with. */
module Pairing {
  import opened Wrappers

  /** Whether the later of two delimiters closes the earlier one. */
  type Closes = (nat, nat) -> bool

  /** The nearest closer of delimiter i among the first n. */
  function FirstCloser(closes: Closes, i: nat, n: nat): (r: Option<nat>)
    requires i < n
    ensures r.Some? ==> i < r.value < n && closes(i, r.value) && forall k :: i < k < r.value ==> !closes(i, k)
    ensures r.None? ==> forall k :: i < k < n ==> !closes(i, k)
  {
    if n == i + 1 then None
    else if FirstCloser(closes, i, n - 1).Some? then FirstCloser(closes, i, n - 1)
    else if closes(i, n - 1) then Some(n - 1)
    else None
  }

  lemma FirstCloserNext(closes: Closes, i: nat, n: nat, m: nat)
    requires i < n && m == n + 1
    ensures FirstCloser(closes, i, m)
         == if FirstCloser(closes, i, n).Some? then FirstCloser(closes, i, n) else if closes(i, n) then Some(n) else None
  {
  }

  predicate ClosedBy(closes: Closes, i: nat, n: nat)
    requires i < n
  {
    FirstCloser(closes, i, n).None? && closes(i, n)
  }

  predicate Increasing(at: seq<nat>) {
    forall i, j :: 0 <= i < j < |at| ==> at[i] < at[j]
  }

  predicate Entry(closes: Closes, at: seq<nat>, end: seq<nat>, i: nat, n: nat, ends: map<nat, nat>)
    requires i < n <= |at| == |end|
  {
    var closer := FirstCloser(closes, i, n);
    && (at[i] in ends <==> closer.Some?)
    && (closer.Some? ==> ends[at[i]] == end[closer.value])
  }

  predicate StartsOne(at: seq<nat>, p: nat, n: nat)
    requires n <= |at|
  {
    exists i :: 0 <= i < n && at[i] == p
  }

  /** Exactly the closed openers among the first n have an entry: the end of their nearest closer. */
  ghost predicate Paired(closes: Closes, at: seq<nat>, end: seq<nat>, n: nat, ends: map<nat, nat>)
    requires n <= |at| == |end|
  {
    && (forall i :: 0 <= i < n ==> Entry(closes, at, end, i, n, ends))
    && (forall p :: p in ends ==> StartsOne(at, p, n))
  }

  lemma PairedNone(closes: Closes, at: seq<nat>, end: seq<nat>)
    requires |at| == |end|
    ensures Paired(closes, at, end, 0, map[])
  {
  }

  /** The new entries are exactly the openers delimiter n closes, with its end. */
  ghost predicate Closing(closes: Closes, at: seq<nat>, end: seq<nat>, n: nat, ends: map<nat, nat>, ends': map<nat, nat>)
    requires n < |at| == |end|
  {
    && (forall p :: p in ends ==> p in ends' && ends'[p] == ends[p])
    && (forall i :: 0 <= i < n && ClosedBy(closes, i, n) ==> at[i] in ends' && ends'[at[i]] == end[n])
    && (forall p :: p in ends' && p !in ends ==> exists i :: 0 <= i < n && at[i] == p && ClosedBy(closes, i, n))
  }

  lemma EntryNext(closes: Closes, at: seq<nat>, end: seq<nat>, i: nat, n: nat, m: nat, ends: map<nat, nat>, ends': map<nat, nat>)
    requires Increasing(at) && i < n < |at| == |end| && m == n + 1
    requires Entry(closes, at, end, i, n, ends) && Closing(closes, at, end, n, ends, ends')
    ensures Entry(closes, at, end, i, m, ends')
  {
    FirstCloserNext(closes, i, n, m);
    if at[i] in ends' && at[i] !in ends {
      var k :| 0 <= k < n && at[k] == at[i] && ClosedBy(closes, k, n);
      assert k == i;
    }
  }

  lemma NewEntry(closes: Closes, at: seq<nat>, end: seq<nat>, n: nat, m: nat, ends: map<nat, nat>, ends': map<nat, nat>)
    requires Increasing(at) && n < |at| == |end| && m == n + 1
    requires Paired(closes, at, end, n, ends) && Closing(closes, at, end, n, ends, ends')
    ensures Entry(closes, at, end, n, m, ends')
  {
    assert at[n] in ends ==> StartsOne(at, at[n], n);
  }

  lemma PairedNext(closes: Closes, at: seq<nat>, end: seq<nat>, n: nat, m: nat, ends: map<nat, nat>, ends': map<nat, nat>)
    requires Increasing(at) && n < |at| == |end| && m == n + 1
    requires Paired(closes, at, end, n, ends) && Closing(closes, at, end, n, ends, ends')
    ensures Paired(closes, at, end, m, ends')
  {
    forall i | 0 <= i < m ensures Entry(closes, at, end, i, m, ends') {
      if i < n {
        EntryNext(closes, at, end, i, n, m, ends, ends');
      } else {
        NewEntry(closes, at, end, n, m, ends, ends');
      }
    }
    forall p | p in ends' ensures StartsOne(at, p, m) {
      if p in ends {
        assert StartsOne(at, p, n);
      }
    }
  }
}
