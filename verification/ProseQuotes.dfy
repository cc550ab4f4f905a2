/**
 Prose quotes (proxyserver/tokenization/base.py, _quoted_span_ends): one pass with a list of openers per closing
 character gives every opener the end a search for its first closer would give.
 */
module ProseQuotes {
  import opened Wrappers
  import opened Pairing

  /** A quotation character, or an escaped one, and whether it stands inside a word. */
  datatype Mark = Mark(start: nat, end: nat, quote: char, escaped: bool, inWord: bool)

  predicate Apostrophe(c: char) {
    c == '\'' || c == '\U{2019}' || c == '\U{FF07}'
  }

  /** Escaped characters and apostrophes inside words quote nothing. */
  predicate Ignored(m: Mark) {
    m.escaped || (Apostrophe(m.quote) && m.inWord)
  }

  /** The characters that close what this one opens. */
  function Closers(c: char): string {
    if c == '"' || c == '\'' || c == '\U{FF02}' || c == '\U{FF07}' then [c]
    else if c == '\U{201C}' then "\U{201D}"
    else if c == '\U{2018}' then "\U{2019}"
    else if c == '\U{AB}' then "\U{BB}"
    else if c == '\U{2039}' then "\U{203A}"
    else if c == '\U{201E}' then "\U{201C}\U{201D}"
    else if c == '\U{201A}' then "\U{2018}\U{2019}"
    else if c == '\U{300C}' then "\U{300D}"
    else if c == '\U{300E}' then "\U{300F}"
    else if c == '\U{301D}' then "\U{301E}\U{301F}"
    else if c == '\U{FE41}' then "\U{FE42}"
    else if c == '\U{FE43}' then "\U{FE44}"
    else ""
  }

  predicate MarkCloser(opener: Mark, closer: Mark) {
    !Ignored(opener) && !Ignored(closer) && closer.quote in Closers(opener.quote)
  }

  function MarkCloses(marks: seq<Mark>): Closes {
    (i: nat, j: nat) => i < |marks| && j < |marks| && MarkCloser(marks[i], marks[j])
  }

  function MarkStarts(marks: seq<Mark>): (r: seq<nat>)
    ensures |r| == |marks| && forall i :: 0 <= i < |r| ==> r[i] == marks[i].start
  {
    seq(|marks|, i requires 0 <= i < |marks| => marks[i].start)
  }

  function MarkEnds(marks: seq<Mark>): (r: seq<nat>)
    ensures |r| == |marks| && forall i :: 0 <= i < |r| ==> r[i] == marks[i].end
  {
    seq(|marks|, i requires 0 <= i < |marks| => marks[i].end)
  }

  /** Opener i still waits for this closing character. */
  predicate Expects(marks: seq<Mark>, i: nat, n: nat, c: char)
    requires i < n <= |marks|
  {
    && !Ignored(marks[i]) && c in Closers(marks[i].quote)
    && forall j :: i < j < n ==> Ignored(marks[j]) || marks[j].quote != c
  }

  function Expected(pending: map<char, seq<nat>>, c: char): seq<nat> {
    if c in pending then pending[c] else []
  }

  /** The list of a closing character names exactly the openers that wait for it; `ids` says which. */
  ghost predicate Listed(marks: seq<Mark>, n: nat, c: char, starts: seq<nat>, ids: seq<nat>)
    requires n <= |marks|
  {
    && |starts| == |ids|
    && (forall k :: 0 <= k < |ids| ==> ids[k] < n && Expects(marks, ids[k], n, c) && starts[k] == marks[ids[k]].start)
    && (forall i :: 0 <= i < n && Expects(marks, i, n, c) ==> i in ids)
  }

  ghost predicate AllListed(marks: seq<Mark>, n: nat, pending: map<char, seq<nat>>, ids: map<char, seq<nat>>)
    requires n <= |marks|
  {
    forall c :: Listed(marks, n, c, Expected(pending, c), Expected(ids, c))
  }

  /** Every listed opener without an end gets this one. */
  function Fill(ends: map<nat, nat>, starts: seq<nat>, k: nat, end: nat): map<nat, nat>
    requires k <= |starts|
  {
    if k == 0 then ends
    else
      var earlier := Fill(ends, starts, k - 1, end);
      if starts[k - 1] in earlier then earlier else earlier[starts[k - 1] := end]
  }

  lemma {:induction false} FillUnder(before: map<nat, nat>, found: map<nat, nat>, starts: seq<nat>, k: nat, end: nat)
    requires k <= |starts|
    ensures Fill(found + before, starts, k, end) == Fill(found, starts, k, end) + before
  {
    if k > 0 {
      FillUnder(before, found, starts, k - 1, end);
    }
  }

  predicate Named(starts: seq<nat>, k: nat, p: nat)
    requires k <= |starts|
  {
    exists i :: 0 <= i < k && starts[i] == p
  }

  lemma {:induction false} FillIs(ends: map<nat, nat>, starts: seq<nat>, k: nat, end: nat)
    requires k <= |starts|
    ensures forall p :: p in ends ==> p in Fill(ends, starts, k, end) && Fill(ends, starts, k, end)[p] == ends[p]
    ensures forall i :: 0 <= i < k ==> starts[i] in Fill(ends, starts, k, end)
    ensures forall p :: p in Fill(ends, starts, k, end) && p !in ends ==> Named(starts, k, p) && Fill(ends, starts, k, end)[p] == end
  {
    if k > 0 {
      FillIs(ends, starts, k - 1, end);
      forall p ensures Named(starts, k, p) <==> Named(starts, k - 1, p) || starts[k - 1] == p {
      }
    }
  }

  lemma UnclosedExpects(marks: seq<Mark>, i: nat, n: nat)
    requires i < n < |marks| && ClosedBy(MarkCloses(marks), i, n)
    ensures Expects(marks, i, n, marks[n].quote)
  {
    assert MarkCloses(marks)(i, n);
    forall j | i < j < n ensures Ignored(marks[j]) || marks[j].quote != marks[n].quote {
      assert !MarkCloses(marks)(i, j);
    }
  }

  lemma ExpectedCloses(marks: seq<Mark>, i: nat, n: nat)
    requires i < n < |marks| && !Ignored(marks[n]) && Expects(marks, i, n, marks[n].quote)
    ensures MarkCloses(marks)(i, n)
  {
  }

  /** The openers listed for a quote are exactly the unclosed ones it closes. */
  lemma QuoteIsClosing(marks: seq<Mark>, n: nat, starts: seq<nat>, ids: seq<nat>, ends: map<nat, nat>)
    requires n < |marks| && !Ignored(marks[n]) && Listed(marks, n, marks[n].quote, starts, ids)
    requires Increasing(MarkStarts(marks)) && Paired(MarkCloses(marks), MarkStarts(marks), MarkEnds(marks), n, ends)
    ensures Closing(MarkCloses(marks), MarkStarts(marks), MarkEnds(marks), n, ends, Fill(ends, starts, |starts|, marks[n].end))
  {
    var ends' := Fill(ends, starts, |starts|, marks[n].end);
    FillIs(ends, starts, |starts|, marks[n].end);
    forall i | 0 <= i < n && ClosedBy(MarkCloses(marks), i, n)
      ensures marks[i].start in ends' && ends'[marks[i].start] == marks[n].end
    {
      assert Entry(MarkCloses(marks), MarkStarts(marks), MarkEnds(marks), i, n, ends);
      UnclosedExpects(marks, i, n);
      var k :| 0 <= k < |ids| && ids[k] == i;
      assert starts[k] == marks[i].start;
    }
    forall p | p in ends' && p !in ends
      ensures exists i :: 0 <= i < n && MarkStarts(marks)[i] == p && ClosedBy(MarkCloses(marks), i, n)
    {
      assert Named(starts, |starts|, p);
      var k :| 0 <= k < |starts| && starts[k] == p;
      assert Entry(MarkCloses(marks), MarkStarts(marks), MarkEnds(marks), ids[k], n, ends);
      ExpectedCloses(marks, ids[k], n);
      assert ClosedBy(MarkCloses(marks), ids[k], n) && MarkStarts(marks)[ids[k]] == p;
    }
  }

  lemma IgnoredCloses(marks: seq<Mark>, n: nat, ends: map<nat, nat>)
    requires n < |marks| && Ignored(marks[n])
    ensures Closing(MarkCloses(marks), MarkStarts(marks), MarkEnds(marks), n, ends, ends)
  {
  }

  // ---- The lists of waiting openers --------------------------------------------------------

  lemma ExpectsNext(marks: seq<Mark>, i: nat, n: nat, m: nat, c: char)
    requires i < n < |marks| && m == n + 1
    ensures Expects(marks, i, m, c) <==> Expects(marks, i, n, c) && (Ignored(marks[n]) || marks[n].quote != c)
  {
  }

  function Kept(q: char, c: char, list: seq<nat>): seq<nat> {
    if c == q then [] else list
  }

  function Joined(q: char, c: char, one: nat): seq<nat> {
    if c in Closers(q) then [one] else []
  }

  lemma ListKept(marks: seq<Mark>, n: nat, m: nat, c: char, starts: seq<nat>, ids: seq<nat>)
    requires n < |marks| && m == n + 1 && Listed(marks, n, c, starts, ids)
    requires Ignored(marks[n]) || marks[n].quote != c
    ensures forall k :: 0 <= k < |ids| ==> ids[k] < m && Expects(marks, ids[k], m, c) && starts[k] == marks[ids[k]].start
    ensures forall i :: 0 <= i < n && Expects(marks, i, m, c) ==> i in ids
  {
    forall k | 0 <= k < |ids| ensures ids[k] < m && Expects(marks, ids[k], m, c) {
      ExpectsNext(marks, ids[k], n, m, c);
    }
    forall i | 0 <= i < n && Expects(marks, i, m, c) ensures i in ids {
      ExpectsNext(marks, i, n, m, c);
    }
  }

  lemma ListNext(marks: seq<Mark>, n: nat, m: nat, c: char, starts: seq<nat>, ids: seq<nat>)
    requires n < |marks| && m == n + 1 && Listed(marks, n, c, starts, ids) && !Ignored(marks[n])
    ensures var q := marks[n].quote;
            Listed(marks, m, c, Kept(q, c, starts) + Joined(q, c, marks[n].start), Kept(q, c, ids) + Joined(q, c, n))
  {
    var q := marks[n].quote;
    if c != q {
      ListKept(marks, n, m, c, starts, ids);
    }
    var ids' := Kept(q, c, ids) + Joined(q, c, n);
    forall i | 0 <= i < m && Expects(marks, i, m, c) ensures i in ids' {
      if i < n {
        ExpectsNext(marks, i, n, m, c);
        assert i in Kept(q, c, ids);
      } else {
        assert Joined(q, c, n) == [n];
      }
    }
  }

  lemma AllListedIgnored(marks: seq<Mark>, n: nat, m: nat, pending: map<char, seq<nat>>, ids: map<char, seq<nat>>)
    requires n < |marks| && m == n + 1 && AllListed(marks, n, pending, ids) && Ignored(marks[n])
    ensures AllListed(marks, m, pending, ids)
  {
    forall c ensures Listed(marks, m, c, Expected(pending, c), Expected(ids, c)) {
      ListKept(marks, n, m, c, Expected(pending, c), Expected(ids, c));
    }
  }

  lemma ClosersDiffer(c: char)
    ensures |Closers(c)| <= 2 && (|Closers(c)| == 2 ==> Closers(c)[0] != Closers(c)[1])
  {
  }

  /** The lists once the quote has joined those of its first k closers. */
  ghost predicate Requeued(pending: map<char, seq<nat>>, after: map<char, seq<nat>>, q: char, k: nat, one: nat)
    requires k <= |Closers(q)|
  {
    forall c :: Expected(after, c) == Kept(q, c, Expected(pending, c)) + if c in Closers(q)[..k] then [one] else []
  }

  lemma RequeueNext(pending: map<char, seq<nat>>, after: map<char, seq<nat>>, q: char, k: nat, m: nat, one: nat)
    requires k < |Closers(q)| && m == k + 1 && Requeued(pending, after, q, k, one)
    ensures Requeued(pending, after[Closers(q)[k] := Expected(after, Closers(q)[k]) + [one]], q, m, one)
  {
    var closers := Closers(q);
    CloserIsNew(q, k);
    EmptyConcat(Kept(q, closers[k], Expected(pending, closers[k])));
  }

  lemma CloserIsNew(q: char, k: nat)
    requires k < |Closers(q)|
    ensures Closers(q)[k] !in Closers(q)[..k]
    ensures Closers(q)[..k + 1] == Closers(q)[..k] + [Closers(q)[k]]
  {
    ClosersDiffer(q);
  }

  /** Takes the waiting openers of a quote off the lists and puts the quote itself on the list of each of its closers. */
  method Requeue(pending: map<char, seq<nat>>, q: char, one: nat) returns (after: map<char, seq<nat>>)
    ensures forall c :: Expected(after, c) == Kept(q, c, Expected(pending, c)) + Joined(q, c, one)
  {
    after := pending - {q};
    var closers := Closers(q);
    for k := 0 to |closers|
      invariant Requeued(pending, after, q, k, one)
    {
      RequeueNext(pending, after, q, k, k + 1, one);
      after := after[closers[k] := Expected(after, closers[k]) + [one]];
    }
    assert closers[..|closers|] == closers;
  }

  lemma AllListedNext(marks: seq<Mark>, n: nat, m: nat, pending: map<char, seq<nat>>, ids: map<char, seq<nat>>,
                      pending': map<char, seq<nat>>, ids': map<char, seq<nat>>)
    requires n < |marks| && m == n + 1 && AllListed(marks, n, pending, ids) && !Ignored(marks[n])
    requires forall c :: Expected(pending', c) == Kept(marks[n].quote, c, Expected(pending, c)) + Joined(marks[n].quote, c, marks[n].start)
    requires forall c :: Expected(ids', c) == Kept(marks[n].quote, c, Expected(ids, c)) + Joined(marks[n].quote, c, n)
    ensures AllListed(marks, m, pending', ids')
  {
    forall c ensures Listed(marks, m, c, Expected(pending', c), Expected(ids', c)) {
      ListNext(marks, n, m, c, Expected(pending, c), Expected(ids, c));
    }
  }

  // ---- The pass ------------------------------------------------------------------------------

  method FillEnds(ends: map<nat, nat>, starts: seq<nat>, end: nat) returns (after: map<nat, nat>)
    ensures after == Fill(ends, starts, |starts|, end)
  {
    after := ends;
    for k := 0 to |starts|
      invariant after == Fill(ends, starts, k, end)
    {
      if starts[k] !in after {
        after := after[starts[k] := end];
      }
    }
  }

  /** One quote: it ends the openers that wait for it, and waits for its own closers. */
  method TakeQuote(marks: seq<Mark>, n: nat, pending: map<char, seq<nat>>, ghost ids: map<char, seq<nat>>, ends: map<nat, nat>,
                   ghost before: map<nat, nat>, ghost found: map<nat, nat>)
    returns (pending': map<char, seq<nat>>, ghost ids': map<char, seq<nat>>, ends': map<nat, nat>, ghost found': map<nat, nat>)
    requires n < |marks| && !Ignored(marks[n]) && AllListed(marks, n, pending, ids) && ends == found + before
    requires Increasing(MarkStarts(marks)) && Paired(MarkCloses(marks), MarkStarts(marks), MarkEnds(marks), n, found)
    ensures Closing(MarkCloses(marks), MarkStarts(marks), MarkEnds(marks), n, found, found')
    ensures ends' == found' + before
    ensures AllListed(marks, n + 1, pending', ids')
  {
    var q := marks[n].quote;
    var starts := Expected(pending, q);
    assert Listed(marks, n, q, starts, Expected(ids, q));
    ends' := FillEnds(ends, starts, marks[n].end);
    found' := Fill(found, starts, |starts|, marks[n].end);
    FillUnder(before, found, starts, |starts|, marks[n].end);
    QuoteIsClosing(marks, n, starts, Expected(ids, q), found);
    pending' := Requeue(pending, q, marks[n].start);
    ids' := IdsAfter(ids, q, n);
    AllListedNext(marks, n, n + 1, pending, ids, pending', ids');
  }

  ghost function IdsAfter(ids: map<char, seq<nat>>, q: char, n: nat): (r: map<char, seq<nat>>)
    ensures forall c :: Expected(r, c) == Kept(q, c, Expected(ids, c)) + Joined(q, c, n)
  {
    map c | c in ids.Keys + {q} + (set i | 0 <= i < |Closers(q)| :: Closers(q)[i]) ::
      Kept(q, c, Expected(ids, c)) + Joined(q, c, n)
  }

  /** One quotation character, ignored or not. */
  method NextMark(marks: seq<Mark>, n: nat, pending: map<char, seq<nat>>, ghost ids: map<char, seq<nat>>, ends: map<nat, nat>,
                  ghost before: map<nat, nat>, ghost found: map<nat, nat>)
    returns (pending': map<char, seq<nat>>, ghost ids': map<char, seq<nat>>, ends': map<nat, nat>, ghost found': map<nat, nat>)
    requires n < |marks| && AllListed(marks, n, pending, ids) && ends == found + before
    requires Increasing(MarkStarts(marks)) && Paired(MarkCloses(marks), MarkStarts(marks), MarkEnds(marks), n, found)
    ensures Paired(MarkCloses(marks), MarkStarts(marks), MarkEnds(marks), n + 1, found')
    ensures ends' == found' + before
    ensures AllListed(marks, n + 1, pending', ids')
  {
    pending', ids', ends', found' := pending, ids, ends, found;
    if Ignored(marks[n]) {
      IgnoredCloses(marks, n, found);
      AllListedIgnored(marks, n, n + 1, pending, ids);
    } else {
      pending', ids', ends', found' := TakeQuote(marks, n, pending, ids, ends, before, found);
    }
    PairedNext(MarkCloses(marks), MarkStarts(marks), MarkEnds(marks), n, n + 1, found, found');
  }

  /** Pairs every quote with the first later closer of its style; ends already found stay. */
  method PairQuotes(marks: seq<Mark>, before: map<nat, nat>) returns (ends: map<nat, nat>, ghost found: map<nat, nat>)
    requires Increasing(MarkStarts(marks))
    ensures ends == found + before
    ensures Paired(MarkCloses(marks), MarkStarts(marks), MarkEnds(marks), |marks|, found)
  {
    ends, found := before, map[];
    var pending: map<char, seq<nat>> := map[];
    ghost var ids: map<char, seq<nat>> := map[];
    PairedNone(MarkCloses(marks), MarkStarts(marks), MarkEnds(marks));
    for n := 0 to |marks|
      invariant ends == found + before
      invariant Paired(MarkCloses(marks), MarkStarts(marks), MarkEnds(marks), n, found)
      invariant AllListed(marks, n, pending, ids)
    {
      pending, ids, ends, found := NextMark(marks, n, pending, ids, ends, before, found);
    }
  }
}
