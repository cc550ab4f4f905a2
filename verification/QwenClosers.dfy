/**
 Values that close their own section in the Qwen coder dialect (proxyserver/tokenization/tool_parser.py,
 Qwen3CoderToolParser): exactly when the parser reports damage, and when it reads on and takes the rest of the value
 for further sections.
 */
module QwenClosers {
  import opened Wrappers
  import opened Text
  import opened Markup
  import opened Sections
  import opened ToolBlocks
  import opened QwenCalls
  import ToolTurns

  // ---- Scanning behind a part already read ------------------------------------------

  function Moved(span: Span, n: nat): Span {
    Span(span.start + n, span.nameEnd + n, span.close + n)
  }

  function AllMoved(spans: seq<Span>, n: nat): (r: seq<Span>)
    ensures |r| == |spans| && forall i :: 0 <= i < |r| ==> r[i] == Moved(spans[i], n)
  {
    seq(|spans|, i requires 0 <= i < |spans| => Moved(spans[i], n))
  }

  lemma AtBehind(u: string, tail: string, pattern: string, i: int)
    requires 0 <= i
    ensures At(u + tail, pattern, |u| + i) <==> At(tail, pattern, i)
  {
    if i + |pattern| <= |tail| {
      assert (u + tail)[|u| + i..|u| + i + |pattern|] == tail[i..i + |pattern|];
    }
  }

  function Behind(found: int, n: nat): int {
    if found < 0 then found else found + n
  }

  lemma FindBehind(text: string, u: string, tail: string, pattern: string, from: nat, there: nat)
    requires text == u + tail && there == |u| + from
    ensures Find(text, pattern, there) == Behind(Find(tail, pattern, from), |u|)
  {
    var r := Find(tail, pattern, from);
    if r < 0 {
      forall i | there <= i ensures !At(text, pattern, i) {
        AtBehind(u, tail, pattern, i - |u|);
      }
      FindNone(text, pattern, there);
    } else {
      AtBehind(u, tail, pattern, r);
      forall i | there <= i < |u| + r ensures !At(text, pattern, i) {
        AtBehind(u, tail, pattern, i - |u|);
      }
      FindIs(text, pattern, there, |u| + r);
    }
  }

  lemma NameEndBehind(text: string, u: string, tail: string, from: nat, there: nat)
    requires text == u + tail && there == |u| + from
    ensures NameEnd(text, there) == Behind(NameEnd(tail, from), |u|)
  {
    FindBehind(text, u, tail, ">", from, there);
  }

  lemma NameOkBehind(text: string, u: string, tail: string, from: nat, end: nat)
    requires text == u + tail && from <= end <= |tail|
    ensures NameOk(text, |u| + from, |u| + end) <==> NameOk(tail, from, end)
  {
    assert text[|u| + from..|u| + end] == tail[from..end];
    assert forall i :: from <= i < end ==> tail[i] == text[|u| + i];
    assert forall i :: |u| + from <= i < |u| + end ==> text[i] == tail[i - |u|];
  }

  lemma SectionSome(text: string, open: string, close: string, span: Span, start: nat, from: nat)
    requires At(text, open, start) && span.start == start && from == start + |open| && from <= span.nameEnd <= |text|
    requires NameEnd(text, from) == span.nameEnd && NameOk(text, from, span.nameEnd)
    requires Find(text, close, span.nameEnd + 1) == span.close
    ensures SectionAt(text, open, close, start) == Some(span)
  {
  }

  /** No section starts here: no opener, no usable name, or no closer. */
  ghost predicate NoSection(text: string, open: string, close: string, start: nat, from: nat, nameEnd: int) {
    || !At(text, open, start) || nameEnd < 0
    || (from <= nameEnd <= |text| && !NameOk(text, from, nameEnd))
    || Find(text, close, nameEnd + 1) < 0
  }

  lemma SectionNone(text: string, open: string, close: string, start: nat, from: nat, nameEnd: int)
    requires from == start + |open| && NameEnd(text, from) == nameEnd && NoSection(text, open, close, start, from, nameEnd)
    ensures SectionAt(text, open, close, start) == None
  {
  }

  lemma CloserMissing(text: string, open: string, close: string, s: nat, from: nat, nameEnd: nat)
    requires At(text, open, s) && from == s + |open| && NameEnd(text, from) == nameEnd && NameOk(text, from, nameEnd)
    requires SectionAt(text, open, close, s) == None
    ensures Find(text, close, nameEnd + 1) < 0
  {
  }

  lemma NameMissing(text: string, u: string, tail: string, open: string, close: string, s: nat, from: nat, nameEnd: nat,
                    fromThere: nat, nameEndThere: nat)
    requires text == u + tail && SectionAt(tail, open, close, s) == None && from == s + |open| && nameEnd == NameEnd(tail, from)
    requires At(tail, open, s) && fromThere == |u| + from && nameEndThere == |u| + nameEnd
    ensures nameEndThere <= |text| && (!NameOk(text, fromThere, nameEndThere) || Find(text, close, nameEndThere + 1) < 0)
  {
    if NameOk(tail, from, nameEnd) {
      CloserMissing(tail, open, close, s, from, nameEnd);
      FindBehind(text, u, tail, close, nameEnd + 1, nameEndThere + 1);
    } else {
      NameOkBehind(text, u, tail, from, nameEnd);
    }
  }

  lemma PartsMissing(text: string, u: string, tail: string, open: string, close: string, s: nat, from: nat, nameEnd: int,
                     there: nat, fromThere: nat, nameEndThere: int)
    requires text == u + tail && SectionAt(tail, open, close, s) == None && from == s + |open| && nameEnd == NameEnd(tail, from)
    requires there == |u| + s && fromThere == |u| + from && nameEndThere == Behind(nameEnd, |u|)
    ensures NameEnd(text, fromThere) == nameEndThere && NoSection(text, open, close, there, fromThere, nameEndThere)
  {
    NameEndBehind(text, u, tail, from, fromThere);
    if !At(tail, open, s) {
      AtBehind(u, tail, open, s);
    } else if nameEnd >= 0 {
      NameMissing(text, u, tail, open, close, s, from, nameEnd, fromThere, nameEndThere);
    }
  }

  lemma SectionBehindNone(text: string, u: string, tail: string, open: string, close: string, s: nat, there: nat)
    requires text == u + tail && there == |u| + s && SectionAt(tail, open, close, s) == None
    ensures SectionAt(text, open, close, there) == None
  {
    var nameEnd := NameEnd(tail, s + |open|);
    PartsMissing(text, u, tail, open, close, s, s + |open|, nameEnd, there, there + |open|, Behind(nameEnd, |u|));
    SectionNone(text, open, close, there, there + |open|, Behind(nameEnd, |u|));
  }

  lemma SectionParts(text: string, open: string, close: string, start: nat, span: Span, from: nat)
    requires SectionAt(text, open, close, start) == Some(span) && from == start + |open|
    ensures At(text, open, start) && span.start == start && from <= span.nameEnd < |text|
    ensures NameEnd(text, from) == span.nameEnd && NameOk(text, from, span.nameEnd)
    ensures Find(text, close, span.nameEnd + 1) == span.close
  {
  }

  lemma NameBehind(text: string, u: string, tail: string, open: string, close: string, s: nat, span: Span, moved: Span, from: nat,
                   there: nat, fromThere: nat)
    requires text == u + tail && SectionAt(tail, open, close, s) == Some(span) && from == s + |open|
    requires moved == Moved(span, |u|) && there == |u| + s && fromThere == |u| + from
    ensures At(text, open, there) && moved.start == there && fromThere <= moved.nameEnd <= |text|
    ensures NameEnd(text, fromThere) == moved.nameEnd && NameOk(text, fromThere, moved.nameEnd)
  {
    SectionParts(tail, open, close, s, span, from);
    AtBehind(u, tail, open, s);
    NameEndBehind(text, u, tail, from, fromThere);
    NameOkBehind(text, u, tail, from, span.nameEnd);
  }

  lemma CloserBehind(text: string, u: string, tail: string, open: string, close: string, s: nat, span: Span, moved: Span)
    requires text == u + tail && SectionAt(tail, open, close, s) == Some(span) && moved == Moved(span, |u|)
    ensures Find(text, close, moved.nameEnd + 1) == moved.close
  {
    SectionParts(tail, open, close, s, span, s + |open|);
    FindBehind(text, u, tail, close, span.nameEnd + 1, moved.nameEnd + 1);
  }

  lemma SectionBehindSome(text: string, u: string, tail: string, open: string, close: string, s: nat, there: nat, span: Span,
                          moved: Span)
    requires text == u + tail && there == |u| + s && SectionAt(tail, open, close, s) == Some(span) && moved == Moved(span, |u|)
    ensures SectionAt(text, open, close, there) == Some(moved)
  {
    NameBehind(text, u, tail, open, close, s, span, moved, s + |open|, there, there + |open|);
    CloserBehind(text, u, tail, open, close, s, span, moved);
    SectionSome(text, open, close, moved, there, there + |open|);
  }

  lemma MoveOne(before: seq<Span>, done: seq<Span>, span: Span, n: nat)
    ensures before + AllMoved(done, n) + [Moved(span, n)] == before + AllMoved(done + [span], n)
  {
    assert AllMoved(done + [span], n) == AllMoved(done, n) + [Moved(span, n)];
  }

  lemma SkipBehind(text: string, u: string, tail: string, open: string, close: string, from: nat, there: nat, done: seq<Span>,
                   longer: seq<Span>, next: nat, nextThere: nat)
    requires text == u + tail && there == |u| + from && from <= |tail| && SectionAt(tail, open, close, from) == None
    requires next == from + 1 && nextThere == there + 1
    ensures SpansFrom(tail, open, close, from, done) == SpansFrom(tail, open, close, next, done)
    ensures SpansFrom(text, open, close, there, longer) == SpansFrom(text, open, close, nextThere, longer)
  {
    SectionIsSkipped(tail, open, close, from, next, done);
    SectionBehindNone(text, u, tail, open, close, from, there);
    SectionIsSkipped(text, open, close, there, nextThere, longer);
  }

  lemma TakeBehind(text: string, u: string, tail: string, open: string, close: string, from: nat, there: nat, done: seq<Span>,
                   longer: seq<Span>, span: Span, moved: Span, next: nat, nextThere: nat, done': seq<Span>, longer': seq<Span>)
    requires text == u + tail && there == |u| + from
    requires SectionAt(tail, open, close, from) == Some(span) && next == span.close + |close|
    requires moved == Moved(span, |u|) && nextThere == moved.close + |close|
    requires done' == done + [span] && longer' == longer + [moved]
    ensures SpansFrom(tail, open, close, from, done) == SpansFrom(tail, open, close, next, done')
    ensures SpansFrom(text, open, close, there, longer) == SpansFrom(text, open, close, nextThere, longer')
  {
    SectionIsTaken(tail, open, close, from, next, span, done);
    SectionBehindSome(text, u, tail, open, close, from, there, span, moved);
    SectionIsTaken(text, open, close, there, nextThere, moved, longer);
  }

  /** The spans found behind a part already read, given those found in the rest alone. */
  ghost predicate FoundBehind(text: string, tail: string, open: string, close: string, from: nat, there: nat, before: seq<Span>,
                              n: nat, done: seq<Span>, longer: seq<Span>)
  {
    SpansFrom(text, open, close, there, longer) == before + AllMoved(SpansFrom(tail, open, close, from, done), n)
  }

  lemma SameBehind(text: string, tail: string, open: string, close: string, from: nat, there: nat, before: seq<Span>, n: nat,
                   done: seq<Span>, longer: seq<Span>, from': nat, there': nat, done': seq<Span>, longer': seq<Span>)
    requires SpansFrom(tail, open, close, from, done) == SpansFrom(tail, open, close, from', done')
    requires SpansFrom(text, open, close, there, longer) == SpansFrom(text, open, close, there', longer')
    requires FoundBehind(text, tail, open, close, from', there', before, n, done', longer')
    ensures FoundBehind(text, tail, open, close, from, there, before, n, done, longer)
  {
  }

  lemma NothingBehind(text: string, u: string, tail: string, open: string, close: string, from: nat, there: nat,
                      before: seq<Span>, done: seq<Span>, longer: seq<Span>)
    requires text == u + tail && there == |u| + from && longer == before + AllMoved(done, |u|) && from > |tail|
    ensures FoundBehind(text, tail, open, close, from, there, before, |u|, done, longer)
  {
  }

  lemma BehindSkipped(text: string, u: string, tail: string, open: string, close: string, from: nat, there: nat,
                      before: seq<Span>, done: seq<Span>, longer: seq<Span>, next: nat, nextThere: nat)
    requires text == u + tail && there == |u| + from && from <= |tail| && SectionAt(tail, open, close, from) == None
    requires next == from + 1 && nextThere == there + 1
    requires FoundBehind(text, tail, open, close, next, nextThere, before, |u|, done, longer)
    ensures FoundBehind(text, tail, open, close, from, there, before, |u|, done, longer)
  {
    SkipBehind(text, u, tail, open, close, from, there, done, longer, next, nextThere);
    SameBehind(text, tail, open, close, from, there, before, |u|, done, longer, next, nextThere, done, longer);
  }

  lemma BehindTaken(text: string, u: string, tail: string, open: string, close: string, from: nat, there: nat, before: seq<Span>,
                    done: seq<Span>, longer: seq<Span>, span: Span, moved: Span, next: nat, nextThere: nat, done': seq<Span>,
                    longer': seq<Span>)
    requires text == u + tail && there == |u| + from
    requires SectionAt(tail, open, close, from) == Some(span) && next == span.close + |close|
    requires moved == Moved(span, |u|) && nextThere == moved.close + |close|
    requires done' == done + [span] && longer' == longer + [moved]
    requires FoundBehind(text, tail, open, close, next, nextThere, before, |u|, done', longer')
    ensures FoundBehind(text, tail, open, close, from, there, before, |u|, done, longer)
  {
    TakeBehind(text, u, tail, open, close, from, there, done, longer, span, moved, next, nextThere, done', longer');
    SameBehind(text, tail, open, close, from, there, before, |u|, done, longer, next, nextThere, done', longer');
  }

  /** Behind a part already read the scan finds what it finds in the rest alone. */
  lemma {:induction false} SpansBehind(text: string, u: string, tail: string, open: string, close: string, from: nat, there: nat,
                                       before: seq<Span>, done: seq<Span>, longer: seq<Span>)
    requires text == u + tail && there == |u| + from && longer == before + AllMoved(done, |u|)
    ensures FoundBehind(text, tail, open, close, from, there, before, |u|, done, longer)
    decreases if from <= |tail| then |tail| + 1 - from else 0
  {
    if from > |tail| {
      NothingBehind(text, u, tail, open, close, from, there, before, done, longer);
    } else if SectionAt(tail, open, close, from) == None {
      SpansBehind(text, u, tail, open, close, from + 1, there + 1, before, done, longer);
      BehindSkipped(text, u, tail, open, close, from, there, before, done, longer, from + 1, there + 1);
    } else {
      var span := SectionAt(tail, open, close, from).value;
      var moved := Moved(span, |u|);
      var next, nextThere := span.close + |close|, moved.close + |close|;
      var done', longer' := done + [span], longer + [moved];
      MoveOne(before, done, span, |u|);
      SpansBehind(text, u, tail, open, close, next, nextThere, before, done', longer');
      BehindTaken(text, u, tail, open, close, from, there, before, done, longer, span, moved, next, nextThere, done', longer');
    }
  }

  lemma ContentBehind(text: string, u: string, tail: string, open: string, close: string, span: Span)
    requires text == u + tail && SpanInside(tail, open, close, span)
    ensures SpanInside(text, open, close, Moved(span, |u|))
    ensures Content(text, open, Moved(span, |u|)) == Content(tail, open, span)
  {
    var there := Moved(span, |u|);
    assert text[there.start + |open|..there.nameEnd] == tail[span.start + |open|..span.nameEnd];
    assert text[there.nameEnd + 1..there.close] == tail[span.nameEnd + 1..span.close];
  }

  lemma InsideBehind(text: string, u: string, tail: string, open: string, close: string, before: seq<Span>, found: seq<Span>,
                     all: seq<Span>)
    requires text == u + tail && all == before + AllMoved(found, |u|)
    requires Inside(text, open, close, before) && Inside(tail, open, close, found)
    ensures Inside(text, open, close, all)
  {
    assert forall k :: |before| <= k < |all| ==> all[k] == Moved(found[k - |before|], |u|);
  }

  lemma ContentsBehind(text: string, u: string, tail: string, open: string, close: string, before: seq<Span>, found: seq<Span>,
                       all: seq<Span>)
    requires text == u + tail && all == before + AllMoved(found, |u|)
    requires Inside(text, open, close, before) && Inside(tail, open, close, found)
    ensures Inside(text, open, close, all)
    ensures Contents(text, open, close, all) == Contents(text, open, close, before) + Contents(tail, open, close, found)
  {
    InsideBehind(text, u, tail, open, close, before, found, all);
    var first, rest := Contents(text, open, close, before), Contents(tail, open, close, found);
    var whole := Contents(text, open, close, all);
    forall k | 0 <= k < |all| ensures whole[k] == (first + rest)[k] {
      if k < |before| {
        assert all[k] == before[k];
      } else {
        var j := k - |before|;
        assert all[k] == Moved(found[j], |u|);
        ContentBehind(text, u, tail, open, close, found[j]);
      }
    }
  }

  lemma SliceBehind(text: string, u: string, tail: string, from: nat, end: nat)
    requires text == u + tail
    ensures Slice(text, |u| + from, |u| + end) == Slice(tail, from, end)
  {
    if from <= end <= |tail| {
      assert text[|u| + from..|u| + end] == tail[from..end];
    }
  }

  /** Nothing but complete sections and whitespace. */
  predicate OnlySections(tail: string, open: string, close: string) {
    var spans := SpansFrom(tail, open, close, 0, []);
    Blank(Slice(tail, 0, if spans == [] then |tail| else spans[0].start)) && NothingStranded(tail, close, spans)
  }

  lemma GapBehind(text: string, u: string, tail: string, close: string, before: seq<Span>, found: seq<Span>, all: seq<Span>, k: nat)
    requires text == u + tail && all == before + AllMoved(found, |u|) && before != [] && GapFrom(close, before) == |u|
    requires 0 < k < |all|
    ensures k < |before| ==> (GapBlank(text, close, all, k) <==> GapBlank(text, close, before, k))
    ensures k == |before| ==> (GapBlank(text, close, all, k) <==> Blank(Slice(tail, 0, found[0].start)))
    ensures k > |before| ==> (GapBlank(text, close, all, k) <==> GapBlank(tail, close, found, k - |before|))
  {
    if k == |before| {
      assert all[k] == Moved(found[0], |u|) && all[k - 1] == before[k - 1];
      SliceBehind(text, u, tail, 0, found[0].start);
    } else if k > |before| {
      var j := k - |before|;
      assert all[k] == Moved(found[j], |u|) && all[k - 1] == Moved(found[j - 1], |u|);
      SliceBehind(text, u, tail, found[j - 1].close + |close|, found[j].start);
    }
  }

  lemma GapsBehind(text: string, u: string, tail: string, close: string, before: seq<Span>, found: seq<Span>, all: seq<Span>)
    requires text == u + tail && all == before + AllMoved(found, |u|) && before != [] && GapFrom(close, before) == |u|
    requires GapsBlank(text, close, before)
    ensures GapsBlank(text, close, all) <==> (found != [] ==> Blank(Slice(tail, 0, found[0].start))) && GapsBlank(tail, close, found)
  {
    forall k | 0 < k < |all|
      ensures k < |before| ==> (GapBlank(text, close, all, k) <==> GapBlank(text, close, before, k))
      ensures k == |before| ==> (GapBlank(text, close, all, k) <==> Blank(Slice(tail, 0, found[0].start)))
      ensures k > |before| ==> (GapBlank(text, close, all, k) <==> GapBlank(tail, close, found, k - |before|))
    {
      GapBehind(text, u, tail, close, before, found, all, k);
    }
    if GapsBlank(text, close, all) {
      if found != [] {
        assert GapBlank(text, close, all, |before|);
      }
      forall j | 0 < j < |found| ensures GapBlank(tail, close, found, j) {
        assert GapBlank(text, close, all, j + |before|);
      }
    }
  }

  lemma LastGapBehind(text: string, u: string, tail: string, close: string, before: seq<Span>, found: seq<Span>, all: seq<Span>)
    requires text == u + tail && all == before + AllMoved(found, |u|) && before != [] && GapFrom(close, before) == |u|
    ensures all != []
    ensures Slice(text, GapFrom(close, all), |text|) == Slice(tail, GapFrom(close, found), |tail|)
  {
    if found == [] {
      assert all == before;
      SliceBehind(text, u, tail, 0, |tail|);
    } else {
      assert all[|all| - 1] == Moved(found[|found| - 1], |u|);
      SliceBehind(text, u, tail, GapFrom(close, found), |tail|);
    }
  }

  lemma StrandedBehind(text: string, u: string, tail: string, open: string, close: string, before: seq<Span>, found: seq<Span>, all: seq<Span>)
    requires text == u + tail && all == before + AllMoved(found, |u|) && before != [] && GapFrom(close, before) == |u|
    requires GapsBlank(text, close, before) && found == SpansFrom(tail, open, close, 0, [])
    ensures NothingStranded(text, close, all) <==> OnlySections(tail, open, close)
  {
    GapsBehind(text, u, tail, close, before, found, all);
    LastGapBehind(text, u, tail, close, before, found, all);
  }

  lemma SplitIs(text: string, open: string, close: string, spans: seq<Span>, contents: seq<(string, string)>, wellFormed: bool)
    requires SpansFrom(text, open, close, 0, []) == spans && Inside(text, open, close, spans)
    requires Contents(text, open, close, spans) == contents && NothingStranded(text, close, spans) == wellFormed
    ensures Split(text, open, close) == (contents, wellFormed)
  {
  }

  lemma SpansAfter(text: string, u: string, tail: string, open: string, close: string, before: seq<Span>, found: seq<Span>)
    returns (all: seq<Span>)
    requires text == u + tail && found == SpansFrom(tail, open, close, 0, [])
    requires SpansFrom(text, open, close, 0, []) == SpansFrom(text, open, close, |u|, before)
    ensures all == before + AllMoved(found, |u|) && SpansFrom(text, open, close, 0, []) == all
  {
    assert before == before + AllMoved([], |u|);
    SpansBehind(text, u, tail, open, close, 0, |u|, before, [], before);
    all := before + AllMoved(found, |u|);
  }

  /** The sections of a text of which the first are known, by the sections of what follows them. */
  lemma SplitBehind(text: string, u: string, tail: string, open: string, close: string, before: seq<Span>)
    requires text == u + tail && before != [] && ReadUpTo(text, open, close, before, |u|)
    requires SpansFrom(text, open, close, 0, []) == SpansFrom(text, open, close, |u|, before)
    ensures Split(text, open, close)
         == (Contents(text, open, close, before) + Split(tail, open, close).0, OnlySections(tail, open, close))
  {
    var found := SpansFrom(tail, open, close, 0, []);
    SpansAreOrdered(tail, open, close, 0, []);
    var all := SpansAfter(text, u, tail, open, close, before, found);
    ContentsBehind(text, u, tail, open, close, before, found, all);
    StrandedBehind(text, u, tail, open, close, before, found, all);
    SplitIs(text, open, close, all, Contents(text, open, close, all), OnlySections(tail, open, close));
    SplitIs(tail, open, close, found, Contents(tail, open, close, found), NothingStranded(tail, close, found));
  }

  // ---- No parsed value holds a closer -------------------------------------------------

  lemma ContentFree(text: string, open: string, close: string, span: Span, marker: string)
    requires SectionAt(text, open, close, span.start) == Some(span) && marker != "" && (marker == close || Free(text, marker))
    ensures Free(Content(text, open, span).1, marker)
  {
    SectionParts(text, open, close, span.start, span, span.start + |open|);
    ToolTurns.PartFree(text, marker, span.nameEnd + 1, span.close);
  }

  lemma SplitFree(text: string, open: string, close: string, marker: string)
    requires marker != "" && (marker == close || Free(text, marker))
    ensures ValuesFree(Split(text, open, close).0, marker)
  {
    SpansAreOrdered(text, open, close, 0, []);
    var spans := SpansFrom(text, open, close, 0, []);
    var contents := Contents(text, open, close, spans);
    forall k | 0 <= k < |contents| ensures Free(contents[k].1, marker) {
      ContentFree(text, open, close, spans[k], marker);
    }
  }

  lemma UnpaddedFree(value: string, marker: string)
    requires Free(value, marker)
    ensures Free(Unpadded(value), marker)
  {
    var v := if value != "" && value[0] == '\n' then value[1..] else value;
    if value != "" && value[0] == '\n' {
      ToolTurns.PartFree(value, marker, 1, |value|);
      assert value[1..|value|] == value[1..];
    }
    if v != "" && v[|v| - 1] == '\n' {
      ToolTurns.PartFree(v, marker, 0, |v| - 1);
      assert v[0..|v| - 1] == v[..|v| - 1];
    }
  }

  lemma {:induction false} PutFree(arguments: seq<(string, string)>, key: string, value: string, marker: string)
    requires ValuesFree(arguments, marker) && Free(value, marker)
    ensures ValuesFree(Put(arguments, key, value), marker)
    decreases |arguments|
  {
    if arguments != [] && arguments[0].0 != key {
      assert forall i :: 0 <= i < |arguments[1..]| ==> arguments[1..][i] == arguments[i + 1];
      PutFree(arguments[1..], key, value, marker);
    }
  }

  lemma {:induction false} ArgumentsFree(name: string, coerce: Coercion, params: seq<(string, string)>, marker: string)
    requires ValuesFree(params, marker) && forall key, value :: coerce(name, key, value) == value
    ensures ValuesFree(Arguments(name, coerce, params), marker)
    decreases |params|
  {
    if params != [] {
      var (key, value) := params[|params| - 1];
      ArgumentsFree(name, coerce, params[..|params| - 1], marker);
      UnpaddedFree(value, marker);
      PutFree(Arguments(name, coerce, params[..|params| - 1]), key, Unpadded(value), marker);
    }
  }

  lemma FunctionValuesFree(name: string, body: string, coerce: Coercion, call: Call, marker: string)
    requires ParseFunction(name, body, coerce) == Some(call) && TextTyped(coerce, call)
    requires marker != "" && (marker == PARAMETER_END || Free(body, marker))
    ensures ValuesFree(call.arguments, marker)
  {
    SplitFree(body, PARAMETER, PARAMETER_END, marker);
    ArgumentsFree(name, coerce, Split(body, PARAMETER, PARAMETER_END).0, marker);
  }

  lemma {:induction false} CallHasFunction(functions: seq<(string, string)>, coerce: Coercion, calls: seq<Call>, call: Call)
    returns (k: nat)
    requires ParseFunctions(functions, coerce) == Some(calls) && call in calls
    ensures k < |functions| && ParseFunction(functions[k].0, functions[k].1, coerce) == Some(call)
    decreases |functions|
  {
    k := |functions| - 1;
    if ParseFunction(functions[k].0, functions[k].1, coerce) != Some(call) {
      k := CallHasFunction(functions[..k], coerce, calls[..|calls| - 1], call);
    }
  }

  /** However a block is written, no text argument of its calls contains a marker that would have ended it. */
  lemma BlockValuesFree(block: string, coerce: Coercion, calls: seq<Call>, call: Call, marker: string)
    requires ParseBlock(block, coerce) == Some(calls) && call in calls && TextTyped(coerce, call)
    requires marker != "" && (marker == PARAMETER_END || marker == FUNCTION_END || Free(block, marker))
    ensures ValuesFree(call.arguments, marker)
  {
    var functions := Split(block, FUNCTION, FUNCTION_END).0;
    var k := CallHasFunction(functions, coerce, calls, call);
    if marker != PARAMETER_END {
      SplitFree(block, FUNCTION, FUNCTION_END, marker);
    }
    FunctionValuesFree(functions[k].0, functions[k].1, coerce, call, marker);
  }

  // ---- Exactly the calls that round-trip ------------------------------------------------

  /** What the printed form asks of names and keys, and of arguments: a dictionary of texts. */
  ghost predicate WellNamed(coerce: Coercion, call: Call) {
    Clean(call.name) && KeysClean(call.arguments) && DistinctKeys(call.arguments) && TextTyped(coerce, call)
  }

  /** A printed call is parsed back exactly when none of its values contains the closer of a parameter or a function. */
  lemma BlockIsReadExactly(call: Call, coerce: Coercion)
    requires WellNamed(coerce, call)
    ensures ParseBlock(PrintFunction(call), coerce) == Some([call])
       <==> ValuesFree(call.arguments, PARAMETER_END) && ValuesFree(call.arguments, FUNCTION_END)
  {
    if ParseBlock(PrintFunction(call), coerce) == Some([call]) {
      assert call in [call];
      BlockValuesFree(PrintFunction(call), coerce, [call], call, PARAMETER_END);
      BlockValuesFree(PrintFunction(call), coerce, [call], call, FUNCTION_END);
    } else if ValuesFree(call.arguments, PARAMETER_END) && ValuesFree(call.arguments, FUNCTION_END) {
      assert forall i :: 0 <= i < |call.arguments| ==> Printable(call.arguments[i].0, call.arguments[i].1);
      BlockIsRead(call, coerce);
    }
  }

  /** No value of the call holds a closing marker of the dialect. */
  ghost predicate NothingCloses(call: Call) {
    && ValuesFree(call.arguments, PARAMETER_END) && ValuesFree(call.arguments, FUNCTION_END)
    && ValuesFree(call.arguments, CLOSE)
  }

  lemma ReadCallsCloseNothing(text: string, coerce: Coercion, call: Call)
    requires call in AllCalls(Pieces(text, Parser(coerce), 0, [])) && TextTyped(coerce, call)
    ensures NothingCloses(call)
  {
    var block, calls := ToolTurns.CallComesFrom(text, Parser(coerce), call);
    BlockValuesFree(block, coerce, calls, call, PARAMETER_END);
    BlockValuesFree(block, coerce, calls, call, FUNCTION_END);
    BlockValuesFree(block, coerce, calls, call, CLOSE);
  }

  /** A printed turn is parsed back to its calls exactly when none of their values contains a closing marker. */
  lemma CallsRoundTripExactly(leads: seq<string>, calls: seq<Call>, tail: string, coerce: Coercion)
    requires |leads| == |calls| && ToolTurns.AllFree(leads) && Free(tail, OPEN)
    requires forall i :: 0 <= i < |calls| ==> WellNamed(coerce, calls[i])
    ensures AllCalls(Pieces(ToolTurns.Turn(leads, PrintAll(calls), tail), Parser(coerce), 0, [])) == calls
       <==> forall i :: 0 <= i < |calls| ==> NothingCloses(calls[i])
  {
    var text := ToolTurns.Turn(leads, PrintAll(calls), tail);
    if AllCalls(Pieces(text, Parser(coerce), 0, [])) == calls {
      forall i | 0 <= i < |calls| ensures NothingCloses(calls[i]) {
        ReadCallsCloseNothing(text, coerce, calls[i]);
      }
    } else if forall i :: 0 <= i < |calls| ==> NothingCloses(calls[i]) {
      forall i | 0 <= i < |calls| ensures PrintableCall(calls[i]) {
        var arguments := calls[i].arguments;
        assert forall k :: 0 <= k < |arguments| ==> Printable(arguments[k].0, arguments[k].1);
      }
      PrintedCallsRoundTrip(leads, calls, tail, coerce);
    }
  }

  // ---- What a closing value is read as -----------------------------------------------------

  lemma MiddleRegroup(u: string, first: string, line: string, others: string, rest: string)
    ensures u + (first + line + others) + rest == u + first + (line + others + rest)
    ensures u + (first + line + others) + rest == u + first + line + others + rest
  {
  }

  lemma EarlierRegroup(text: string, u: string, arguments: seq<(string, string)>, rest: string, first: string, others: string)
    returns (u': string)
    requires arguments != [] && text == u + "\n" + PrintParameters(arguments) + rest
    requires first == PrintParameter(arguments[0].0, arguments[0].1) && others == PrintParameters(arguments[1..])
    ensures u' == u + "\n" + first && |u'| == |u| + 1 + |first|
    ensures text == u' + ("\n" + others + rest) && text == u' + "\n" + others + rest
  {
    u' := u + "\n" + first;
    MiddleRegroup(u + "\n", first, "\n", others, rest);
  }

  lemma FirstIsRead(text: string, u: string, arguments: seq<(string, string)>, rest: string, before: seq<Span>)
    returns (u': string, longer: seq<Span>)
    requires arguments != [] && Printable(arguments[0].0, arguments[0].1)
    requires text == u + "\n" + PrintParameters(arguments) + rest && ReadUpTo(text, PARAMETER, PARAMETER_END, before, |u|)
    ensures text == u' + "\n" + PrintParameters(arguments[1..]) + rest
    ensures ReadUpTo(text, PARAMETER, PARAMETER_END, longer, |u'|)
    ensures SpansFrom(text, PARAMETER, PARAMETER_END, |u|, before) == SpansFrom(text, PARAMETER, PARAMETER_END, |u'|, longer)
    ensures Contents(text, PARAMETER, PARAMETER_END, longer)
         == Contents(text, PARAMETER, PARAMETER_END, before) + [(arguments[0].0, "\n" + arguments[0].1 + "\n")]
  {
    var (key, value) := arguments[0];
    var others := PrintParameters(arguments[1..]);
    u' := EarlierRegroup(text, u, arguments, rest, PrintParameter(key, value), others);
    var span := ParameterIsRead(text, u, key, value, "\n" + others + rest, |u'|);
    ReadOne(text, PARAMETER, PARAMETER_END, before, |u|, span, |u'|, (key, "\n" + value + "\n"));
    longer := before + [span];
  }

  /** What was read of a text: up to where, which spans, and their contents. */
  ghost predicate HasRead(text: string, pos: nat, spans: seq<Span>, contents: seq<(string, string)>) {
    && ReadUpTo(text, PARAMETER, PARAMETER_END, spans, pos)
    && Contents(text, PARAMETER, PARAMETER_END, spans) == contents
    && SpansFrom(text, PARAMETER, PARAMETER_END, 0, []) == SpansFrom(text, PARAMETER, PARAMETER_END, pos, spans)
  }

  lemma HasReadFirst(text: string, u: string, arguments: seq<(string, string)>, rest: string, before: seq<Span>,
                     contents: seq<(string, string)>, contents': seq<(string, string)>)
    returns (u': string, longer: seq<Span>)
    requires arguments != [] && Printable(arguments[0].0, arguments[0].1)
    requires text == u + "\n" + PrintParameters(arguments) + rest && HasRead(text, |u|, before, contents)
    requires contents' == contents + [(arguments[0].0, "\n" + arguments[0].1 + "\n")]
    ensures text == u' + "\n" + PrintParameters(arguments[1..]) + rest && HasRead(text, |u'|, longer, contents')
  {
    u', longer := FirstIsRead(text, u, arguments, rest, before);
    SameThroughout(SpansFrom(text, PARAMETER, PARAMETER_END, 0, []), SpansFrom(text, PARAMETER, PARAMETER_END, |u|, before),
                   SpansFrom(text, PARAMETER, PARAMETER_END, |u'|, longer));
  }

  /** The parameters printed first are read, whatever comes after them. */
  lemma {:induction false} EarlierAreRead(text: string, u: string, arguments: seq<(string, string)>, rest: string, before: seq<Span>,
                                          contents: seq<(string, string)>, all: seq<(string, string)>)
    returns (u': string, longer: seq<Span>)
    requires AllPrintable(arguments) && text == u + "\n" + PrintParameters(arguments) + rest
    requires HasRead(text, |u|, before, contents) && all == contents + Padded(arguments)
    ensures text == u' + "\n" + rest && HasRead(text, |u'|, longer, all)
    decreases |arguments|
  {
    if arguments == [] {
      u', longer := u, before;
      assert Padded(arguments) == [];
      EmptyConcat(contents);
      NothingBetween(u + "\n", rest);
    } else {
      assert forall i :: 0 <= i < |arguments[1..]| ==> arguments[1..][i] == arguments[i + 1];
      var contents' := contents + [(arguments[0].0, "\n" + arguments[0].1 + "\n")];
      var u1, one := HasReadFirst(text, u, arguments, rest, before, contents, contents');
      PaddedFirst(contents, arguments);
      u', longer := EarlierAreRead(text, u1, arguments[1..], rest, one, contents', all);
    }
  }

  lemma NothingBetween(a: string, b: string)
    ensures a + "" + b == a + b
  {
  }

  /** A parameter whose value is closed by text inside it, with what stands behind that text. */
  function ClosedEarly(earlier: seq<(string, string)>, key: string, a: string, tail: string): string {
    "\n" + PrintParameters(earlier) + SectionText(PARAMETER, key, "\n" + a, PARAMETER_END) + tail
  }

  lemma ClosedRegroup(u: string, key: string, a: string, tail: string)
    ensures u + "\n" + (SectionText(PARAMETER, key, "\n" + a, PARAMETER_END) + tail)
         == Printed(u + "\n", PARAMETER, key, "\n" + a, PARAMETER_END, tail)
  {
  }

  lemma EarlierSplit(text: string, earlier: seq<(string, string)>, key: string, a: string, tail: string)
    returns (u: string, before: seq<Span>)
    requires AllPrintable(earlier) && text == ClosedEarly(earlier, key, a, tail)
    ensures text == Printed(u + "\n", PARAMETER, key, "\n" + a, PARAMETER_END, tail)
    ensures HasRead(text, |u|, before, Padded(earlier))
  {
    var rest := SectionText(PARAMETER, key, "\n" + a, PARAMETER_END) + tail;
    assert text == "" + "\n" + PrintParameters(earlier) + rest;
    EmptyConcat(Padded(earlier));
    u, before := EarlierAreRead(text, "", earlier, rest, [], [], Padded(earlier));
    ClosedRegroup(u, key, a, tail);
  }

  lemma ClosedIsRead(text: string, u: string, before: seq<Span>, contents: seq<(string, string)>, key: string, a: string, tail: string)
    returns (u': string, longer: seq<Span>)
    requires Clean(key) && Free(a, PARAMETER_END) && HasRead(text, |u|, before, contents)
    requires text == Printed(u + "\n", PARAMETER, key, "\n" + a, PARAMETER_END, tail)
    ensures text == u' + tail && longer != [] && HasRead(text, |u'|, longer, contents + [(key, "\n" + a)])
  {
    Tags();
    FreeLine(PARAMETER_END);
    FreeConcat("\n", a, PARAMETER_END);
    var span := SectionIsNext(text, u, PARAMETER, key, "\n" + a, PARAMETER_END, tail);
    u' := u + "\n" + SectionText(PARAMETER, key, "\n" + a, PARAMETER_END);
    ReadOne(text, PARAMETER, PARAMETER_END, before, |u|, span, |u'|, (key, "\n" + a));
    longer := before + [span];
    SameThroughout(SpansFrom(text, PARAMETER, PARAMETER_END, 0, []), SpansFrom(text, PARAMETER, PARAMETER_END, |u|, before),
                   SpansFrom(text, PARAMETER, PARAMETER_END, |u'|, longer));
  }

  lemma ClosedSplits(text: string, earlier: seq<(string, string)>, key: string, a: string, tail: string)
    requires AllPrintable(earlier) && Clean(key) && Free(a, PARAMETER_END) && text == ClosedEarly(earlier, key, a, tail)
    ensures Split(text, PARAMETER, PARAMETER_END)
         == (Padded(earlier) + [(key, "\n" + a)] + Split(tail, PARAMETER, PARAMETER_END).0, OnlySections(tail, PARAMETER, PARAMETER_END))
  {
    var u, before := EarlierSplit(text, earlier, key, a, tail);
    var u', longer := ClosedIsRead(text, u, before, Padded(earlier), key, a, tail);
    SplitBehind(text, u', tail, PARAMETER, PARAMETER_END, longer);
  }

  lemma {:induction false} PrintedAppend(xs: seq<(string, string)>, ys: seq<(string, string)>)
    ensures PrintParameters(xs + ys) == PrintParameters(xs) + PrintParameters(ys)
    decreases |xs|
  {
    if xs == [] {
      assert xs + ys == ys;
    } else {
      assert (xs + ys)[1..] == xs[1..] + ys;
      PrintedAppend(xs[1..], ys);
    }
  }

  lemma PrintedFirst(arguments: seq<(string, string)>, first: (string, string), others: seq<(string, string)>)
    requires arguments == [first] + others
    ensures PrintParameters(arguments) == PrintParameter(first.0, first.1) + "\n" + PrintParameters(others)
  {
    assert arguments[1..] == others;
  }

  lemma PrintedParts(arguments: seq<(string, string)>, earlier: seq<(string, string)>, rest: seq<(string, string)>,
                     first: (string, string), others: seq<(string, string)>)
    requires arguments == earlier + rest && rest == [first] + others
    ensures PrintParameters(arguments)
         == PrintParameters(earlier) + (PrintParameter(first.0, first.1) + "\n" + PrintParameters(others))
  {
    PrintedAppend(earlier, rest);
    PrintedFirst(rest, first, others);
  }

  lemma PrintedAround(arguments: seq<(string, string)>, i: nat)
    requires i < |arguments|
    ensures PrintParameters(arguments)
         == PrintParameters(arguments[..i]) + (PrintParameter(arguments[i].0, arguments[i].1) + "\n" + PrintParameters(arguments[i + 1..]))
  {
    PrintedParts(arguments, arguments[..i], arguments[i..], arguments[i], arguments[i + 1..]);
  }

  /** What stands behind the closer inside the value: the rest of the value, its own closer, and the later parameters. */
  function BehindCloser(b: string, later: seq<(string, string)>): string {
    b + "\n" + PARAMETER_END + "\n" + PrintParameters(later)
  }

  lemma ClosingRegroup(key: string, a: string, b: string, later: string)
    ensures PrintParameter(key, a + PARAMETER_END + b) + "\n" + later
         == SectionText(PARAMETER, key, "\n" + a, PARAMETER_END) + (b + "\n" + PARAMETER_END + "\n" + later)
  {
  }

  lemma ClosingBody(call: Call, i: nat, a: string, b: string)
    requires i < |call.arguments| && call.arguments[i].1 == a + PARAMETER_END + b
    ensures BodyOf(call) == ClosedEarly(call.arguments[..i], call.arguments[i].0, a, BehindCloser(b, call.arguments[i + 1..]))
  {
    var later := PrintParameters(call.arguments[i + 1..]);
    PrintedAround(call.arguments, i);
    ClosingRegroup(call.arguments[i].0, a, b, later);
  }

  /**
   What becomes of the first value that contains the closer of its own parameter: the function is reported as damaged
   unless what stands behind that closer is nothing but complete parameter sections and whitespace; if it is, the value
   is cut at the closer, and those sections are read as arguments of their own.
   */
  lemma ClosedValueExactly(call: Call, i: nat, a: string, b: string, coerce: Coercion)
    requires i < |call.arguments| && call.arguments[i].1 == a + PARAMETER_END + b
    requires AllPrintable(call.arguments[..i]) && Clean(call.arguments[i].0) && Free(a, PARAMETER_END)
    ensures var behind := BehindCloser(b, call.arguments[i + 1..]);
            ParseFunction(call.name, BodyOf(call), coerce)
              == if OnlySections(behind, PARAMETER, PARAMETER_END) then
                   Some(Call(call.name, Arguments(call.name, coerce, Padded(call.arguments[..i]) + [(call.arguments[i].0, "\n" + a)]
                                                                       + Split(behind, PARAMETER, PARAMETER_END).0)))
                 else None
  {
    ClosingBody(call, i, a, b);
    ClosedSplits(BodyOf(call), call.arguments[..i], call.arguments[i].0, a, BehindCloser(b, call.arguments[i + 1..]));
  }

  // ---- A value that spells out another parameter ------------------------------------------------

  /** A value that closes its parameter and opens another one. */
  function Spelling(a: string, key: string, value: string): string {
    a + "\n" + PARAMETER_END + "\n" + PARAMETER + key + ">\n" + value
  }

  lemma SpellingPrints(key: string, a: string, key': string, value: string, later: string)
    ensures PrintParameter(key, Spelling(a, key', value)) + "\n" + later
         == PrintParameter(key, a) + "\n" + (PrintParameter(key', value) + "\n" + later)
  {
    assert PrintParameter(key, Spelling(a, key', value))
        == PrintParameter(key, a) + "\n" + PrintParameter(key', value);
  }

  lemma TwoPrinted(key: string, a: string, key': string, value: string, later: seq<(string, string)>)
    ensures PrintParameters([(key, a), (key', value)] + later)
         == PrintParameter(key, a) + "\n" + (PrintParameter(key', value) + "\n" + PrintParameters(later))
    ensures PrintParameters([(key, a)] + later) == PrintParameter(key, a) + "\n" + PrintParameters(later)
  {
    var two := [(key, a), (key', value)] + later;
    assert two[1..] == [(key', value)] + later;
    assert two[1..][1..] == later;
    assert ([(key, a)] + later)[1..] == later;
  }

  lemma SameLetters(name: string, earlier: seq<(string, string)>, key: string, a: string, key': string, value: string,
                    later: seq<(string, string)>)
    ensures PrintFunction(Call(name, earlier + ([(key, Spelling(a, key', value))] + later)))
         == PrintFunction(Call(name, earlier + ([(key, a), (key', value)] + later)))
  {
    PrintedAppend(earlier, [(key, Spelling(a, key', value))] + later);
    PrintedAppend(earlier, [(key, a), (key', value)] + later);
    TwoPrinted(key, Spelling(a, key', value), key', value, later);
    TwoPrinted(key, a, key', value, later);
    SpellingPrints(key, a, key', value, PrintParameters(later));
  }

  /**
   Two different calls are printed as the same text when a value spells out the other call's next parameter; the parser
   gives back the one with the shorter value and the additional argument, and nothing tells the caller.
   */
  lemma SpelledParameterIsRead(name: string, earlier: seq<(string, string)>, key: string, a: string, key': string, value: string,
                               later: seq<(string, string)>, coerce: Coercion)
    requires var read := Call(name, earlier + ([(key, a), (key', value)] + later)); PrintableCall(read) && TextTyped(coerce, read)
    ensures ParseBlock(PrintFunction(Call(name, earlier + ([(key, Spelling(a, key', value))] + later))), coerce)
         == Some([Call(name, earlier + ([(key, a), (key', value)] + later))])
  {
    SameLetters(name, earlier, key, a, key', value, later);
    BlockIsRead(Call(name, earlier + ([(key, a), (key', value)] + later)), coerce);
  }

  // ---- A value that closes its function -----------------------------------------------------------

  lemma FunctionReadFirst(text: string, name: string, body: string, behind: string) returns (u: string, span: Span)
    requires Clean(name) && Free(body, FUNCTION_END) && text == Printed("", FUNCTION, name, body, FUNCTION_END, behind)
    ensures text == u + behind && ReadUpTo(text, FUNCTION, FUNCTION_END, [span], |u|)
    ensures Contents(text, FUNCTION, FUNCTION_END, [span]) == [(name, body)]
    ensures SpansFrom(text, FUNCTION, FUNCTION_END, 0, []) == SpansFrom(text, FUNCTION, FUNCTION_END, |u|, [span])
  {
    Tags();
    span := SectionIsRead(text, "", FUNCTION, name, body, FUNCTION_END, behind);
    u := "" + SectionText(FUNCTION, name, body, FUNCTION_END);
    EmptyConcat([span]);
    SectionIsTaken(text, FUNCTION, FUNCTION_END, 0, |u|, span, []);
    ContentsAppend(text, FUNCTION, FUNCTION_END, [], span);
    assert [] + [span] == [span];
    assert [] + [(name, body)] == [(name, body)];
  }

  /**
   A block is read up to the first closer of a function, wherever that closer came from, and what stands behind it must
   be nothing but complete functions; otherwise the whole block is damaged.
   */
  lemma ClosedFunctionExactly(name: string, body: string, behind: string, coerce: Coercion)
    requires Clean(name) && Free(body, FUNCTION_END)
    ensures ParseBlock(SectionText(FUNCTION, name, body, FUNCTION_END) + behind, coerce)
         == if OnlySections(behind, FUNCTION, FUNCTION_END) then
              ParseFunctions([(name, body)] + Split(behind, FUNCTION, FUNCTION_END).0, coerce)
            else None
  {
    var text := SectionText(FUNCTION, name, body, FUNCTION_END) + behind;
    assert text == Printed("", FUNCTION, name, body, FUNCTION_END, behind);
    var u, span := FunctionReadFirst(text, name, body, behind);
    SplitBehind(text, u, behind, FUNCTION, FUNCTION_END, [span]);
  }

  lemma NoCloserBehind(text: string, u: string, key: string, a: string, before: seq<Span>)
    requires text == u + "\n" + (PARAMETER + key + ">\n" + a) && Free(a, PARAMETER_END) && NoAngles(key)
    ensures SpansFrom(text, PARAMETER, PARAMETER_END, |u|, before) == before
  {
    Tags();
    var opener := PARAMETER + key + ">";
    FreeLine(PARAMETER_END);
    OpenTagFree(PARAMETER, key, PARAMETER_END);
    FreeConcat("\n", opener, PARAMETER_END);
    FreeConcat("\n" + opener, "\n", PARAMETER_END);
    FreeConcat("\n" + opener + "\n", a, PARAMETER_END);
    var tail := "\n" + opener + "\n" + a;
    assert text == u + tail;
    FindNoMarker(u, tail, PARAMETER_END);
    forall s | |u| <= s < |text| + 1 ensures SectionAt(text, PARAMETER, PARAMETER_END, s).None? {
    }
    NoSections(text, PARAMETER, PARAMETER_END, |u|, before);
  }

  lemma UnclosedStrands(text: string, u: string, rest: string, before: seq<Span>)
    requires text == u + "\n" + rest && rest != "" && !IsSpace(rest[0]) && GapFrom(PARAMETER_END, before) == |u|
    ensures !Blank(text) && (before != [] ==> !NothingStranded(text, PARAMETER_END, before))
  {
    assert text[|u| + 1] == rest[0];
    assert text[|u|..|text|][1] == rest[0];
  }

  /** A body that ends inside a value: the opener of the parameter stands, its closer does not. */
  function Unclosed(earlier: seq<(string, string)>, key: string, a: string): string {
    "\n" + PrintParameters(earlier) + (PARAMETER + key + ">\n" + a)
  }

  lemma UnclosedSpans(text: string, earlier: seq<(string, string)>, key: string, a: string) returns (u: string, before: seq<Span>)
    requires AllPrintable(earlier) && Free(a, PARAMETER_END) && NoAngles(key) && text == Unclosed(earlier, key, a)
    ensures text == u + "\n" + (PARAMETER + key + ">\n" + a) && GapFrom(PARAMETER_END, before) == |u|
    ensures SpansFrom(text, PARAMETER, PARAMETER_END, 0, []) == before
  {
    var rest := PARAMETER + key + ">\n" + a;
    assert text == "" + "\n" + PrintParameters(earlier) + rest;
    EmptyConcat(Padded(earlier));
    u, before := EarlierAreRead(text, "", earlier, rest, [], [], Padded(earlier));
    NoCloserBehind(text, u, key, a, before);
    SameThroughout(SpansFrom(text, PARAMETER, PARAMETER_END, 0, []), SpansFrom(text, PARAMETER, PARAMETER_END, |u|, before), before);
  }

  lemma UnclosedIsDamaged(name: string, earlier: seq<(string, string)>, key: string, a: string, coerce: Coercion)
    requires AllPrintable(earlier) && Free(a, PARAMETER_END) && NoAngles(key)
    ensures ParseFunction(name, Unclosed(earlier, key, a), coerce) == None
  {
    var text := Unclosed(earlier, key, a);
    var u, before := UnclosedSpans(text, earlier, key, a);
    UnclosedStrands(text, u, PARAMETER + key + ">\n" + a, before);
    SpansAreOrdered(text, PARAMETER, PARAMETER_END, 0, []);
  }

  lemma UnclosedFree(earlier: seq<(string, string)>, key: string, a: string)
    requires AllPrintable(earlier) && Clean(key) && Free(a, FUNCTION_END)
    ensures Free(Unclosed(earlier, key, a), FUNCTION_END)
  {
    Tags();
    FreeLine(FUNCTION_END);
    ParametersFree(earlier, FUNCTION_END);
    OpenTagFree(PARAMETER, key, FUNCTION_END);
    var head := PARAMETER + key + ">";
    FreeConcat(head, "\n", FUNCTION_END);
    FreeConcat(head + "\n", a, FUNCTION_END);
    assert head + "\n" + a == PARAMETER + key + ">\n" + a;
    FreeConcat("\n", PrintParameters(earlier), FUNCTION_END);
    FreeConcat("\n" + PrintParameters(earlier), PARAMETER + key + ">\n" + a, FUNCTION_END);
  }

  lemma EarlyEndRegroup(name: string, earlier: string, key: string, a: string, b: string, later: string)
    ensures FUNCTION + name + ">" + "\n" + (earlier + (PrintParameter(key, a + FUNCTION_END + b) + "\n" + later)) + FUNCTION_END
         == SectionText(FUNCTION, name, "\n" + earlier + (PARAMETER + key + ">\n" + a), FUNCTION_END)
            + (b + "\n" + PARAMETER_END + "\n" + later + FUNCTION_END)
  {
  }

  /** A value that contains the closer of a function, and no closer of a parameter before it, damages the block always. */
  lemma ClosedFunctionIsDamaged(call: Call, i: nat, a: string, b: string, coerce: Coercion)
    requires i < |call.arguments| && call.arguments[i].1 == a + FUNCTION_END + b && Clean(call.name)
    requires AllPrintable(call.arguments[..i]) && Clean(call.arguments[i].0) && Free(a, PARAMETER_END) && Free(a, FUNCTION_END)
    ensures ParseBlock(PrintFunction(call), coerce) == None
  {
    var earlier, key := call.arguments[..i], call.arguments[i].0;
    var later := PrintParameters(call.arguments[i + 1..]);
    var behind := b + "\n" + PARAMETER_END + "\n" + later + FUNCTION_END;
    PrintedAround(call.arguments, i);
    EarlyEndRegroup(call.name, PrintParameters(earlier), key, a, b, later);
    UnclosedFree(earlier, key, a);
    var body := Unclosed(earlier, key, a);
    ClosedFunctionExactly(call.name, body, behind, coerce);
    UnclosedIsDamaged(call.name, earlier, key, a, coerce);
    FirstDamages(call.name, body, Split(behind, FUNCTION, FUNCTION_END).0, coerce);
  }

  lemma FirstDamages(name: string, body: string, others: seq<(string, string)>, coerce: Coercion)
    requires ParseFunction(name, body, coerce) == None
    ensures ParseFunctions([(name, body)] + others, coerce) == None
  {
    var functions := [(name, body)] + others;
    assert functions[..1] == [(name, body)];
    DamagedStays(functions, 1, |functions|, coerce);
    assert functions[..|functions|] == functions;
  }
}
