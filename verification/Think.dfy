/**
 Delimited reasoning (proxyserver/tokenization/base.py, _think_spans and ThinkReasoning.strip): the spans are ordered and
 disjoint, and stripping keeps everything outside them.
 */
module Think {
  import opened Wrappers
  import opened Text
  import opened ReasoningTokens
  import opened ReasoningScan

  // ---- Reasoning spans ---------------------------------------------------------------

  /** One reasoning span: from `start` to `end`, with its text from `body` to the closing tag, if it has one. */
  datatype Span = Span(start: nat, body: nat, close: Option<nat>, end: nat)

  predicate SpanOk(text: string, spans: seq<Span>, k: nat)
    requires k < |spans|
  {
    var s := spans[k];
    && s.start <= s.body <= s.end <= |text| && s.start < s.end
    && (s.close.Some? ==> s.body <= s.close.value < s.end && TagAt(text, Tag(false, s.close.value, s.end)))
    && (s.close.None? ==> k == |spans| - 1 && s.end == |text|)
    && (k > 0 ==> TagAt(text, Tag(true, s.start, s.start + |THINK|)))
    && (k > 0 ==> spans[k - 1].end <= s.start)
  }

  /** Spans lie in the text, in order and disjoint; all but the first start with an opening tag. */
  predicate SpansOk(text: string, spans: seq<Span>) {
    forall k :: 0 <= k < |spans| ==> SpanOk(text, spans, k)
  }

  /** An opener that is pending when the k-th tag is read. */
  predicate Pending(text: string, tags: seq<Tag>, k: nat, spans: seq<Span>, start: nat, body: nat)
    requires k <= |tags|
  {
    && k > 0 && start < body <= tags[k - 1].end
    && (spans != [] ==> TagAt(text, Tag(true, start, start + |THINK|)) && spans[|spans| - 1].end <= start)
  }

  lemma SpansAppend(text: string, spans: seq<Span>, s: Span)
    requires SpansOk(text, spans) && (spans != [] ==> spans[|spans| - 1].close.Some?)
    requires SpanOk(text, spans + [s], |spans|)
    ensures SpansOk(text, spans + [s])
  {
    var longer := spans + [s];
    forall k | 0 <= k < |longer| ensures SpanOk(text, longer, k) {
      if k < |spans| {
        assert SpanOk(text, spans, k);
      }
    }
  }

  /** The first of the opening tags that stand together before tag k. */
  function RunStart(tags: seq<Tag>, k: nat): (j: nat)
    requires k <= |tags|
    ensures j <= k
  {
    if k == 0 || !tags[k - 1].open then k else RunStart(tags, k - 1)
  }

  /** A closing tag closes reasoning when an opening tag stands before it, or as the very first tag. */
  predicate Closes(tags: seq<Tag>, k: nat)
    requires k < |tags|
  {
    !tags[k].open && (k == 0 || tags[k - 1].open)
  }

  /** Reasoning starts at the first of its opening tags, or with the text when only whitespace comes before it. */
  function StartOf(text: string, tags: seq<Tag>, k: nat): nat
    requires TagsOrdered(text, tags) && k <= |tags|
  {
    var j := RunStart(tags, k);
    if j == k || (j == 0 && Blank(text[..tags[0].start])) then 0 else tags[j].start
  }

  function BodyOf(tags: seq<Tag>, k: nat): nat
    requires k <= |tags|
  {
    if k > 0 && tags[k - 1].open then tags[k - 1].end else 0
  }

  lemma StartsAt(text: string, tags: seq<Tag>, k: nat)
    requires TagsOrdered(text, tags) && k < |tags| && tags[k].open
    ensures StartOf(text, tags, k + 1)
         == if k > 0 && tags[k - 1].open then StartOf(text, tags, k)
            else if k == 0 && Blank(text[..tags[0].start]) then 0 else tags[k].start
  {
  }

  /** The spans closed by the first n tags. */
  function ClosedSpans(text: string, tags: seq<Tag>, n: nat): seq<Span>
    requires TagsOrdered(text, tags) && n <= |tags|
  {
    if n == 0 then []
    else
      ClosedSpans(text, tags, n - 1)
      + if Closes(tags, n - 1)
        then [Span(StartOf(text, tags, n - 1), BodyOf(tags, n - 1), Some(tags[n - 1].start), tags[n - 1].end)] else []
  }

  /** Reasoning that the text ends in. */
  function OpenSpans(text: string, tags: seq<Tag>): seq<Span>
    requires TagsOrdered(text, tags)
  {
    var n := |tags|;
    if n > 0 && tags[n - 1].open then [Span(StartOf(text, tags, n), BodyOf(tags, n), None, |text|)] else []
  }

  predicate AllClosed(text: string, spans: seq<Span>, end: nat) {
    SpansOk(text, spans) && forall j :: 0 <= j < |spans| ==> spans[j].close.Some? && spans[j].end <= end
  }

  function EndOfTags(tags: seq<Tag>, k: nat): nat
    requires k <= |tags|
  {
    if k == 0 then 0 else tags[k - 1].end
  }

  predicate InReasoning(tags: seq<Tag>, k: nat)
    requires k <= |tags|
  {
    k > 0 && tags[k - 1].open
  }

  lemma OpenerPends(text: string, tags: seq<Tag>, k: nat, spans: seq<Span>)
    requires TagsOrdered(text, tags) && k < |tags| && tags[k].open && AllClosed(text, spans, EndOfTags(tags, k))
    requires k == 0 ==> spans == []
    requires InReasoning(tags, k) ==> Pending(text, tags, k, spans, StartOf(text, tags, k), BodyOf(tags, k))
    ensures Pending(text, tags, k + 1, spans, StartOf(text, tags, k + 1), tags[k].end)
    ensures AllClosed(text, spans, tags[k].end)
  {
    assert TagAt(text, tags[k]);
    StartsAt(text, tags, k);
  }

  lemma CloserCloses(text: string, tags: seq<Tag>, k: nat, spans: seq<Span>, span: Span)
    requires TagsOrdered(text, tags) && k < |tags| && Closes(tags, k) && AllClosed(text, spans, EndOfTags(tags, k))
    requires k == 0 ==> spans == []
    requires InReasoning(tags, k) ==> Pending(text, tags, k, spans, StartOf(text, tags, k), BodyOf(tags, k))
    requires span == Span(StartOf(text, tags, k), BodyOf(tags, k), Some(tags[k].start), tags[k].end)
    ensures AllClosed(text, spans + [span], tags[k].end)
  {
    assert TagAt(text, tags[k]);
    assert SpanOk(text, spans + [span], |spans|);
    SpansAppend(text, spans, span);
  }

  lemma OpenSpanRuns(text: string, tags: seq<Tag>, n: nat, spans: seq<Span>, span: Span)
    requires TagsOrdered(text, tags) && n == |tags| && InReasoning(tags, n) && AllClosed(text, spans, EndOfTags(tags, n))
    requires Pending(text, tags, n, spans, StartOf(text, tags, n), BodyOf(tags, n))
    requires span == Span(StartOf(text, tags, n), BodyOf(tags, n), None, |text|)
    ensures SpansOk(text, spans + [span]) && OpenSpans(text, tags) == [span]
  {
    assert TagAt(text, tags[|tags| - 1]);
    assert SpanOk(text, spans + [span], |spans|);
    SpansAppend(text, spans, span);
  }

  lemma ClosedSpansNext(text: string, tags: seq<Tag>, k: nat)
    requires TagsOrdered(text, tags) && k < |tags|
    ensures ClosedSpans(text, tags, k + 1)
         == ClosedSpans(text, tags, k)
            + if Closes(tags, k) then [Span(StartOf(text, tags, k), BodyOf(tags, k), Some(tags[k].start), tags[k].end)] else []
  {
  }

  /** What the loop knows after k tags. */
  ghost predicate ReadTags(text: string, tags: seq<Tag>, k: nat, spans: seq<Span>, start: Option<nat>, body: nat)
    requires TagsOrdered(text, tags) && k <= |tags|
  {
    && AllClosed(text, spans, EndOfTags(tags, k)) && (k == 0 ==> spans == [])
    && start == (if InReasoning(tags, k) then Some(StartOf(text, tags, k)) else None) && body == BodyOf(tags, k)
    && (start.Some? ==> Pending(text, tags, k, spans, StartOf(text, tags, k), BodyOf(tags, k)))
    && spans == ClosedSpans(text, tags, k)
  }

  lemma ReadToTheEnd(text: string, tags: seq<Tag>, spans: seq<Span>, start: Option<nat>, body: nat)
    requires TagsOrdered(text, tags) && ReadTags(text, tags, |tags|, spans, start, body)
    ensures var all := if start.Some? then spans + [Span(start.value, body, None, |text|)] else spans;
            SpansOk(text, all) && all == ClosedSpans(text, tags, |tags|) + OpenSpans(text, tags)
  {
    if start.Some? {
      OpenSpanRuns(text, tags, |tags|, spans, Span(start.value, body, None, |text|));
    } else {
      EmptyConcat(spans);
    }
  }

  /** One tag: an opening tag starts or extends reasoning, a closing tag ends it or stands for nothing. */
  method TakeTag(text: string, tags: seq<Tag>, k: nat, start: Option<nat>, body: nat, ghost spans: seq<Span>)
    returns (start': Option<nat>, body': nat, closed: seq<Span>)
    requires TagsOrdered(text, tags) && k < |tags| && ReadTags(text, tags, k, spans, start, body)
    ensures ReadTags(text, tags, k + 1, spans + closed, start', body')
  {
    start', body', closed := start, body, [];
    var tag, first := tags[k], k == 0;
    EmptyConcat(spans);
    ClosedSpansNext(text, tags, k);
    if tag.open {
      OpenerPends(text, tags, k, spans);
      StartsAt(text, tags, k);
      if start.None? {
        start' := Some(if first && Blank(text[..tag.start]) then 0 else tag.start);
      }
      body' := tag.end;
    } else if start.Some? || first {
      var span := Span(if start.Some? then start.value else 0, body, Some(tag.start), tag.end);
      CloserCloses(text, tags, k, spans, span);
      start', body', closed := None, 0, [span];
    }
  }

  /**
   The spans the tags delimit: one for each closing tag with opening tags before it, and for a closing tag that comes
   first of all; and one to the end of the text for opening tags never closed.
   */
  method ThinkSpans(text: string, tags: seq<Tag>) returns (spans: seq<Span>)
    requires TagsOrdered(text, tags)
    ensures SpansOk(text, spans)
    ensures spans == ClosedSpans(text, tags, |tags|) + OpenSpans(text, tags)
  {
    spans := [];
    var start: Option<nat>, body: nat := None, 0;
    for k := 0 to |tags|
      invariant ReadTags(text, tags, k, spans, start, body)
    {
      var closed;
      start, body, closed := TakeTag(text, tags, k, start, body, spans);
      spans := spans + closed;
    }
    ReadToTheEnd(text, tags, spans, start, body);
    if start.Some? {
      spans := spans + [Span(start.value, body, None, |text|)];
    }
  }

  // ---- Stripping ------------------------------------------------------------------------

  predicate Newlines(s: string) {
    forall i :: 0 <= i < |s| ==> s[i] == '\n'
  }

  /** Where visible text goes on: after all newlines when the text began with reasoning, else after one blank line. */
  function After(text: string, span: Span): (r: nat)
    requires span.end <= |text|
    ensures span.end <= r <= |text| && Newlines(text[span.end..r])
    ensures span.start == 0 ==> r == |text| || text[r] != '\n'
    ensures span.start != 0 ==> r == if At(text, "\n\n", span.end) then span.end + 2 else span.end
  {
    if span.start == 0 then SkipNewlines(text, span.end)
    else if At(text, "\n\n", span.end) then span.end + 2
    else span.end
  }

  function SkipNewlines(text: string, pos: nat): (r: nat)
    requires pos <= |text|
    ensures pos <= r <= |text| && Newlines(text[pos..r]) && (r == |text| || text[r] != '\n')
    decreases |text| - pos
  {
    if pos < |text| && text[pos] == '\n' then SkipNewlines(text, pos + 1) else pos
  }

  function Joined(parts: seq<string>): string {
    if parts == [] then "" else Joined(parts[..|parts| - 1]) + parts[|parts| - 1]
  }

  /** Visible parts and dropped stretches in turn. */
  function Interleaved(parts: seq<string>, dropped: seq<string>): string
    requires |parts| == |dropped|
  {
    if parts == [] then ""
    else Interleaved(parts[..|parts| - 1], dropped[..|dropped| - 1]) + parts[|parts| - 1] + dropped[|dropped| - 1]
  }

  lemma AppendParts(parts: seq<string>, dropped: seq<string>, part: string, drop: string)
    requires |parts| == |dropped|
    ensures Interleaved(parts + [part], dropped + [drop]) == Interleaved(parts, dropped) + part + drop
  {
    assert (parts + [part])[..|parts|] == parts;
    assert (dropped + [drop])[..|dropped|] == dropped;
  }

  lemma NextStretch(text: string, pos: nat, start: nat, after: nat)
    requires pos <= start <= after <= |text|
    ensures text[..pos] + text[pos..start] + text[start..after] == text[..after]
  {
  }

  /** What one span drops: its own text and the newlines that separate it from what follows. */
  predicate Dropped(text: string, spans: seq<Span>, k: nat, drop: string)
    requires k < |spans|
  {
    spans[k].start <= spans[k].end <= |text| && drop == text[spans[k].start..After(text, spans[k])]
  }

  ghost predicate Stripped(text: string, spans: seq<Span>, n: nat, parts: seq<string>, dropped: seq<string>, pos: nat)
    requires n <= |spans|
  {
    && |parts| == |dropped| == n && pos <= |text|
    && Interleaved(parts, dropped) == text[..pos]
    && (forall k :: 0 <= k < n ==> Dropped(text, spans, k, dropped[k]))
    && (n == 0 ==> pos == 0)
    && (n > 0 ==> spans[n - 1].end <= |text| && pos == After(text, spans[n - 1]))
  }

  /** The newlines dropped behind a span end before the next span starts. */
  lemma SeparatorStopsBeforeSpan(text: string, spans: seq<Span>, n: nat)
    requires 0 < n < |spans| && SpansOk(text, spans)
    ensures spans[n - 1].end <= |text| && After(text, spans[n - 1]) <= spans[n].start
  {
    assert SpanOk(text, spans, n - 1) && SpanOk(text, spans, n);
    var next := spans[n].start;
    assert text[next] == '<' by {
      assert text[next..next + |THINK|][0] == '<';
    }
    var end := spans[n - 1].end;
    var after := After(text, spans[n - 1]);
    forall i | end <= i < after ensures text[i] == '\n' {
      assert text[end..after][i - end] == '\n';
    }
  }

  /** Where the text goes on behind the first n spans. */
  function Resume(text: string, spans: seq<Span>, n: nat): (r: nat)
    requires SpansOk(text, spans) && n <= |spans|
    ensures r <= |text| && (n < |spans| ==> r <= spans[n].start <= |text|)
  {
    if n == 0 then
      assert n < |spans| ==> SpanOk(text, spans, n);
      0
    else
      assert SpanOk(text, spans, n - 1);
      if n < |spans| then
        SeparatorStopsBeforeSpan(text, spans, n);
        assert SpanOk(text, spans, n);
        After(text, spans[n - 1])
      else After(text, spans[n - 1])
  }

  function VisibleUpTo(text: string, spans: seq<Span>, n: nat): string
    requires SpansOk(text, spans) && n <= |spans|
  {
    if n == 0 then "" else VisibleUpTo(text, spans, n - 1) + text[Resume(text, spans, n - 1)..spans[n - 1].start]
  }

  /** The text outside the spans and the newlines that separate them from what follows. */
  function Visible(text: string, spans: seq<Span>): string
    requires SpansOk(text, spans)
  {
    VisibleUpTo(text, spans, |spans|) + text[Resume(text, spans, |spans|)..]
  }

  lemma JoinsNext(parts: seq<string>, part: string)
    ensures Joined(parts + [part]) == Joined(parts) + part
  {
    assert (parts + [part])[..|parts|] == parts;
  }

  lemma StripsNext(text: string, spans: seq<Span>, n: nat, m: nat, parts: seq<string>, dropped: seq<string>, pos: nat)
    requires n < |spans| && m == n + 1 && SpansOk(text, spans) && Stripped(text, spans, n, parts, dropped, pos)
    ensures SpanOk(text, spans, n) && pos <= spans[n].start <= After(text, spans[n])
    ensures Stripped(text, spans, m, parts + [text[pos..spans[n].start]], dropped + [text[spans[n].start..After(text, spans[n])]],
                     After(text, spans[n]))
  {
    assert SpanOk(text, spans, n);
    if n > 0 {
      SeparatorStopsBeforeSpan(text, spans, n);
    }
    AppendParts(parts, dropped, text[pos..spans[n].start], text[spans[n].start..After(text, spans[n])]);
    NextStretch(text, pos, spans[n].start, After(text, spans[n]));
  }

  lemma AllOfIt(text: string, pos: nat)
    requires pos <= |text|
    ensures text[..pos] + text[pos..] == text
  {
  }

  /** Where visible text goes on, found character by character. */
  method BehindSpan(text: string, span: Span) returns (pos: nat)
    requires span.end <= |text|
    ensures pos == After(text, span)
  {
    pos := span.end;
    if span.start == 0 {
      while pos < |text| && text[pos] == '\n'
        invariant span.end <= pos <= |text| && SkipNewlines(text, pos) == SkipNewlines(text, span.end)
      {
        pos := pos + 1;
      }
    } else if At(text, "\n\n", pos) {
      pos := pos + 2;
    }
  }

  /** What the loop knows after n spans. */
  ghost predicate StripsTo(text: string, spans: seq<Span>, n: nat, parts: seq<string>, dropped: seq<string>, pos: nat)
    requires SpansOk(text, spans) && n <= |spans|
  {
    && Stripped(text, spans, n, parts, dropped, pos)
    && pos == Resume(text, spans, n) && Joined(parts) == VisibleUpTo(text, spans, n)
  }

  /** One span: the visible part before it, and where visible text goes on. */
  method StripSpan(text: string, spans: seq<Span>, n: nat, ghost parts: seq<string>, ghost dropped: seq<string>, pos: nat)
    returns (part: string, ghost drop: string, pos': nat)
    requires SpansOk(text, spans) && n < |spans| && StripsTo(text, spans, n, parts, dropped, pos)
    ensures StripsTo(text, spans, n + 1, parts + [part], dropped + [drop], pos')
  {
    StripsNext(text, spans, n, n + 1, parts, dropped, pos);
    part, drop := text[pos..spans[n].start], text[spans[n].start..After(text, spans[n])];
    JoinsNext(parts, part);
    pos' := BehindSpan(text, spans[n]);
  }

  lemma StripsAll(text: string, spans: seq<Span>, parts: seq<string>, dropped: seq<string>, last: nat)
    requires SpansOk(text, spans) && StripsTo(text, spans, |spans|, parts, dropped, last)
    ensures Interleaved(parts, dropped) + text[last..] == text
    ensures Joined(parts + [text[last..]]) == Visible(text, spans)
  {
    AllOfIt(text, last);
    JoinsNext(parts, text[last..]);
  }

  /**
   The visible text is every character outside the spans and their separating newlines, once and in order: the visible
   parts and the dropped stretches put together again are the text.
   */
  method Strip(text: string, spans: seq<Span>) returns (visible: string, ghost parts: seq<string>, ghost dropped: seq<string>, ghost last: nat)
    requires SpansOk(text, spans)
    ensures Stripped(text, spans, |spans|, parts, dropped, last)
    ensures Interleaved(parts, dropped) + text[last..] == text
    ensures visible == Joined(parts + [text[last..]]) == Visible(text, spans)
  {
    parts, dropped := [], [];
    var kept: seq<string> := [];
    var pos: nat := 0;
    for n := 0 to |spans|
      invariant StripsTo(text, spans, n, kept, dropped, pos)
    {
      var part;
      ghost var drop;
      part, drop, pos := StripSpan(text, spans, n, kept, dropped, pos);
      kept, dropped := kept + [part], dropped + [drop];
    }
    parts, last := kept, pos;
    StripsAll(text, spans, parts, dropped, last);
    visible := Joined(kept + [text[pos..]]);
  }

  /** The spans that the scanner's tags delimit. */
  function SpansOf(text: string, tags: seq<Tag>): seq<Span>
    requires TagsOrdered(text, tags)
  {
    ClosedSpans(text, tags, |tags|) + OpenSpans(text, tags)
  }

  /** Removing the reasoning of a text: its tags, the spans they delimit, and what stays visible. */
  method StripReasoning(text: string, lex: Lexicon) returns (visible: string)
    requires QuotesFit(text, lex)
    ensures TagsOrdered(text, ReportedTags(text, lex)) && SpansOk(text, SpansOf(text, ReportedTags(text, lex)))
    ensures visible == Visible(text, SpansOf(text, ReportedTags(text, lex)))
  {
    var tags, rounds, last := ReasoningTags(text, lex);
    var spans := ThinkSpans(text, tags);
    ghost var parts, dropped, end;
    visible, parts, dropped, end := Strip(text, spans);
  }

  /** The reasoning of a text: what its first span holds, if that is closed and not blank. */
  function Reasoning(text: string, spans: seq<Span>): Option<string>
    requires SpansOk(text, spans)
  {
    if spans == [] || spans[0].close.None? then None
    else
      assert SpanOk(text, spans, 0);
      var thought := Text.Strip(text[spans[0].body..spans[0].close.value]);
      if thought == "" then None else Some(thought)
  }

  /** The first completed reasoning of a text. */
  method ExtractReasoning(text: string, lex: Lexicon) returns (reasoning: Option<string>)
    requires QuotesFit(text, lex)
    ensures TagsOrdered(text, ReportedTags(text, lex)) && SpansOk(text, SpansOf(text, ReportedTags(text, lex)))
    ensures reasoning == Reasoning(text, SpansOf(text, ReportedTags(text, lex)))
  {
    var tags, rounds, last := ReasoningTags(text, lex);
    var spans := ThinkSpans(text, tags);
    if spans == [] || spans[0].close.None? {
      return None;
    }
    assert SpanOk(text, spans, 0);
    var thought := Text.Strip(text[spans[0].body..spans[0].close.value]);
    reasoning := if thought == "" then None else Some(thought);
  }
}
