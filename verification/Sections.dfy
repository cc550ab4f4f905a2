/**
 Splitting tagged sections out of model text (proxyserver/tokenization/tool_parser.py, _split_sections): the scan
 that remembers the next '>' and skips past newlines finds exactly what trying every opener finds, in linear time.
 */
module Sections {
  import opened Wrappers
  import opened Text

  /** One section: where its opener starts, its name ends, and its closer starts. */
  datatype Span = Span(start: nat, nameEnd: nat, close: nat)

  /** An opener is no line break, no name end and no mere whitespace; both dialects' openers are like that. */
  predicate Opener(open: string) {
    && open != [] && !Blank(open)
    && forall i :: 0 <= i < |open| ==> open[i] != '>' && open[i] != '\n'
  }

  // ---- The sections of a text, by trying every position ------------------------

  /** The first '>' at or after a position ends a name. */
  function NameEnd(text: string, from: nat): (r: int)
    ensures r == -1 || from <= r < |text|
    ensures r == -1 <==> forall i :: from <= i < |text| ==> text[i] != '>'
    ensures r >= 0 ==> text[r] == '>' && forall i :: from <= i < r ==> text[i] != '>'
  {
    assert forall i :: At(text, ">", i) <==> 0 <= i < |text| && text[i] == '>';
    Find(text, ">", from)
  }

  predicate NameOk(text: string, from: nat, end: nat)
    requires from <= end <= |text|
  {
    (forall i :: from <= i < end ==> text[i] != '\n') && !Blank(text[from..end])
  }

  /** The complete section opened at this very position, if there is one. */
  function SectionAt(text: string, open: string, close: string, start: nat): (r: Option<Span>)
    ensures r.Some? ==>
              && At(text, open, start) && r.value.start == start
              && start + |open| <= r.value.nameEnd < r.value.close && r.value.close + |close| <= |text|
  {
    if !At(text, open, start) then None
    else
      var nameEnd := NameEnd(text, start + |open|);
      if nameEnd < 0 || !NameOk(text, start + |open|, nameEnd) then None
      else
        var end := Find(text, close, nameEnd + 1);
        if end < 0 then None else Some(Span(start, nameEnd, end))
  }

  /** Every opener is tried in turn; a complete section is taken whole and added to those before it. */
  function SpansFrom(text: string, open: string, close: string, from: nat, before: seq<Span>): seq<Span>
    decreases if from <= |text| then |text| + 1 - from else 0
  {
    if from > |text| then before
    else
      match SectionAt(text, open, close, from)
      case None => SpansFrom(text, open, close, from + 1, before)
      case Some(span) => SpansFrom(text, open, close, span.close + |close|, before + [span])
  }

  function Content(text: string, open: string, span: Span): (string, string)
    requires span.start + |open| <= span.nameEnd < span.close <= |text|
  {
    (Strip(text[span.start + |open|..span.nameEnd]), text[span.nameEnd + 1..span.close])
  }

  predicate Inside(text: string, open: string, close: string, spans: seq<Span>) {
    forall k :: 0 <= k < |spans| ==> spans[k].start + |open| <= spans[k].nameEnd < spans[k].close && spans[k].close + |close| <= |text|
  }

  function Contents(text: string, open: string, close: string, spans: seq<Span>): (r: seq<(string, string)>)
    requires Inside(text, open, close, spans)
    ensures |r| == |spans| && forall k :: 0 <= k < |r| ==> r[k] == Content(text, open, spans[k])
  {
    if spans == [] then []
    else Contents(text, open, close, spans[..|spans| - 1]) + [Content(text, open, spans[|spans| - 1])]
  }

  function Slice(text: string, from: nat, end: nat): string {
    if from <= end <= |text| then text[from..end] else ""
  }

  predicate Ordered(close: string, spans: seq<Span>) {
    forall j, k :: 0 <= j < k < |spans| ==> spans[j].close + |close| <= spans[k].start
  }

  predicate EndsBy(close: string, spans: seq<Span>, limit: nat) {
    forall k :: 0 <= k < |spans| ==> spans[k].close + |close| <= limit
  }

  /** Each is the complete section at its opener. */
  predicate Genuine(text: string, open: string, close: string, spans: seq<Span>) {
    forall k :: 0 <= k < |spans| ==> SectionAt(text, open, close, spans[k].start) == Some(spans[k])
  }

  lemma OrderedAppend(text: string, open: string, close: string, from: nat, before: seq<Span>, span: Span)
    requires Inside(text, open, close, before) && Ordered(close, before)
    requires EndsBy(close, before, from)
    requires SectionAt(text, open, close, from) == Some(span)
    ensures Inside(text, open, close, before + [span]) && Ordered(close, before + [span])
    ensures EndsBy(close, before + [span], span.close + |close|)
  {
  }

  lemma GenuineAppend(text: string, open: string, close: string, from: nat, before: seq<Span>, span: Span)
    requires Genuine(text, open, close, before) && SectionAt(text, open, close, from) == Some(span)
    ensures Genuine(text, open, close, before + [span])
  {
  }

  // ---- What may be skipped ---------------------------------------------------------

  /** No complete section starts in this stretch. */
  ghost predicate Barren(text: string, open: string, close: string, from: nat, end: nat) {
    forall s :: from <= s < end ==> SectionAt(text, open, close, s).None?
  }

  lemma {:induction false} NoSectionUntil(text: string, open: string, close: string, from: nat, end: nat, before: seq<Span>)
    requires from <= end && Barren(text, open, close, from, end)
    ensures SpansFrom(text, open, close, from, before) == SpansFrom(text, open, close, end, before)
    decreases end - from
  {
    if from < end {
      assert SectionAt(text, open, close, from).None?;
      NoSectionUntil(text, open, close, from + 1, end, before);
    }
  }

  lemma NoSections(text: string, open: string, close: string, from: nat, before: seq<Span>)
    requires from <= |text| + 1 && Barren(text, open, close, from, |text| + 1)
    ensures SpansFrom(text, open, close, from, before) == before
  {
    NoSectionUntil(text, open, close, from, |text| + 1, before);
  }

  /** An occurrence of the opener covers none of the characters it cannot contain. */
  lemma OpenerAvoids(text: string, open: string, s: nat, i: nat)
    requires Opener(open) && At(text, open, s) && i < |text| && (text[i] == '>' || text[i] == '\n')
    ensures i < s || s + |open| <= i
  {
    forall k | 0 <= k < |open| ensures text[s + k] == open[k] {
      assert text[s..s + |open|][k] == open[k];
    }
    assert forall j :: s <= j < s + |open| ==> text[j] == open[j - s];
  }

  /** Later openers before the name's end share that end. */
  lemma SharedNameEnd(text: string, open: string, from: nat, s: nat)
    requires Opener(open) && At(text, open, s) && from <= s + |open|
    requires NameEnd(text, from) < 0 || s + |open| <= NameEnd(text, from)
    ensures NameEnd(text, s + |open|) == NameEnd(text, from)
  {
  }

  /** A name broken by a newline spoils every opener up to that newline. */
  lemma NewlineSpoils(text: string, open: string, close: string, start: nat, newline: nat, s: nat)
    requires Opener(open) && At(text, open, start) && NameEnd(text, start + |open|) >= 0
    requires start + |open| <= newline < NameEnd(text, start + |open|) && text[newline] == '\n'
    requires start <= s <= newline
    ensures SectionAt(text, open, close, s).None?
  {
    if At(text, open, s) {
      OpenerAvoids(text, open, s, newline);
      SharedNameEnd(text, open, start + |open|, s);
    }
  }

  lemma BlankSlice(text: string, from: nat, from': nat, end: nat, end': nat)
    requires from <= from' <= end' <= end <= |text| && Blank(text[from..end])
    ensures Blank(text[from'..end'])
  {
    forall i | 0 <= i < end' - from' ensures IsSpace(text[from'..end'][i]) {
      assert text[from'..end'][i] == text[from..end][i + from' - from];
    }
  }

  /** A blank name spoils every opener up to its end. */
  lemma BlankSpoils(text: string, open: string, close: string, start: nat, s: nat)
    requires Opener(open) && At(text, open, start) && NameEnd(text, start + |open|) >= 0
    requires Blank(text[start + |open|..NameEnd(text, start + |open|)])
    requires start <= s <= NameEnd(text, start + |open|)
    ensures SectionAt(text, open, close, s).None?
  {
    var nameStart := start + |open|;
    var nameEnd := NameEnd(text, nameStart);
    if At(text, open, s) {
      OpenerAvoids(text, open, s, nameEnd);
      SharedNameEnd(text, open, nameStart, s);
      BlankSlice(text, nameStart, s + |open|, nameEnd, nameEnd);
    }
  }

  /** With no '>' ahead, or no closer after the next one, no later opener is complete either. */
  lemma NothingAhead(text: string, open: string, close: string, start: nat, s: nat)
    requires start <= s
    requires var nameEnd := NameEnd(text, start + |open|); nameEnd < 0 || Find(text, close, nameEnd + 1) < 0
    ensures SectionAt(text, open, close, s).None?
  {
    var nameEnd := NameEnd(text, start + |open|);
    var later := NameEnd(text, s + |open|);
    if nameEnd >= 0 && later >= 0 {
      assert nameEnd <= later;
    }
  }

  // ---- One step of the scan ---------------------------------------------------------

  lemma SkipNewline(text: string, open: string, close: string, start: nat, newline: nat)
    requires Opener(open) && At(text, open, start) && NameEnd(text, start + |open|) >= 0
    requires start + |open| <= newline < NameEnd(text, start + |open|) && text[newline] == '\n'
    ensures Barren(text, open, close, start, newline + 1)
  {
    forall s | start <= s < newline + 1 ensures SectionAt(text, open, close, s).None? {
      NewlineSpoils(text, open, close, start, newline, s);
    }
  }

  lemma SkipBlankName(text: string, open: string, close: string, start: nat)
    requires Opener(open) && At(text, open, start) && NameEnd(text, start + |open|) >= 0
    requires Blank(text[start + |open|..NameEnd(text, start + |open|)])
    ensures Barren(text, open, close, start, NameEnd(text, start + |open|) + 1)
  {
    forall s | start <= s < NameEnd(text, start + |open|) + 1 ensures SectionAt(text, open, close, s).None? {
      BlankSpoils(text, open, close, start, s);
    }
  }

  lemma SkipAll(text: string, open: string, close: string, start: nat)
    requires var nameEnd := NameEnd(text, start + |open|); nameEnd < 0 || Find(text, close, nameEnd + 1) < 0
    ensures Barren(text, open, close, start, |text| + 1)
  {
    forall s | start <= s < |text| + 1 ensures SectionAt(text, open, close, s).None? {
      NothingAhead(text, open, close, start, s);
    }
  }

  lemma NewlineIn(text: string, from: nat, end: nat)
    requires from <= end <= |text|
    ensures var r := Find(text[..end], "\n", from);
            if r < 0 then forall i :: from <= i < end ==> text[i] != '\n'
            else from <= r < end && text[r] == '\n'
  {
    var r := Find(text[..end], "\n", from);
    if r < 0 {
      forall i | from <= i < end ensures text[i] != '\n' {
        assert !At(text[..end], "\n", i);
        assert text[..end][i..i + 1] == [text[i]];
      }
    } else {
      assert text[..end][r..r + 1] == [text[r]];
    }
  }

  // ---- The scan --------------------------------------------------------------------

  /** The characters a search examines: up to the end of its match, or to where it may look. */
  function Examined(from: nat, found: int, length: nat, limit: nat): int {
    (if found < 0 then limit else found + length) - from
  }

  /** What the searches examined: for openers, for the ends of names, for line breaks, for closers. */
  datatype Work = Work(opener: int, gt: int, line: int, closer: int)

  predicate WorkWithin(w: Work, chars: int, names: int) {
    w.opener <= chars && w.gt <= names && w.line <= chars && w.closer <= chars
  }

  function Plus(a: Work, b: Work): Work {
    Work(a.opener + b.opener, a.gt + b.gt, a.line + b.line, a.closer + b.closer)
  }

  /** The remembered '>' is still the next one, or lies behind. */
  predicate Remembers(text: string, pos: nat, nameEnd: int) {
    && -1 <= nameEnd < |text|
    && (nameEnd >= 0 ==> text[nameEnd] == '>' && forall i :: pos <= i < nameEnd ==> text[i] != '>')
  }

  lemma RememberedIsNext(text: string, pos: nat, nameStart: nat, nameEnd: int)
    requires Remembers(text, pos, nameEnd) && pos <= nameStart <= nameEnd
    ensures NameEnd(text, nameStart) == nameEnd
  {
  }

  lemma RemembersLater(text: string, open: string, start: nat, nameEnd: int, next: nat)
    requires nameEnd == NameEnd(text, start + |open|) && start + |open| <= next
    ensures Remembers(text, next, nameEnd)
  {
  }

  predicate SpanInside(text: string, open: string, close: string, span: Span) {
    span.start + |open| <= span.nameEnd < span.close && span.close + |close| <= |text|
  }

  /** Where the scan goes on, and the section that ends there, if one does. */
  datatype Turn = Turn(span: Option<Span>, next: nat)

  /** Reads the name and body after one opener, with its name's end; none when nothing further can be complete. */
  method ReadSection(text: string, open: string, close: string, start: nat, nameEnd: nat)
    returns (turn: Option<Turn>, ghost work: Work)
    requires Opener(open) && At(text, open, start) && nameEnd == NameEnd(text, start + |open|)
    ensures turn.None? ==> Barren(text, open, close, start, |text| + 1)
    ensures turn.Some? ==> start + |open| < turn.value.next <= |text|
    ensures turn.Some? && turn.value.span.None? ==> Barren(text, open, close, start, turn.value.next)
    ensures turn.Some? && turn.value.span.Some? ==>
              SectionAt(text, open, close, start) == turn.value.span && turn.value.next == turn.value.span.value.close + |close|
    ensures WorkWithin(work, (if turn.Some? then turn.value.next else |text|) - start, 0) && work.opener == 0
  {
    var nameStart := start + |open|;
    var newline := Find(text[..nameEnd], "\n", nameStart);
    NewlineIn(text, nameStart, nameEnd);
    work := Work(0, 0, Examined(nameStart, newline, 1, nameEnd), 0);
    if newline >= 0 {
      SkipNewline(text, open, close, start, newline);
      return Some(Turn(None, newline + 1)), work;
    }
    if Blank(text[nameStart..nameEnd]) {
      SkipBlankName(text, open, close, start);
      return Some(Turn(None, nameEnd + 1)), work;
    }
    var end := Find(text, close, nameEnd + 1);
    work := work.(closer := Examined(nameEnd + 1, end, |close|, |text|));
    if end < 0 {
      SkipAll(text, open, close, start);
      return None, work;
    }
    turn := Some(Turn(Some(Span(start, nameEnd, end)), end + |close|));
  }

  lemma BarrenBefore(text: string, open: string, close: string, pos: nat, start: nat, end: nat)
    requires Find(text, open, pos) == start && Barren(text, open, close, start, end)
    ensures Barren(text, open, close, pos, end)
  {
  }

  lemma BarrenAfter(text: string, open: string, close: string, pos: nat)
    requires Find(text, open, pos) < 0
    ensures Barren(text, open, close, pos, |text| + 1)
  {
  }

  /** One turn of the scan: the next opener, and what follows it. The '>' found for earlier openers is used again. */
  method NextSection(text: string, open: string, close: string, pos: nat, remembered: int)
    returns (turn: Option<Turn>, nameEnd: int, ghost work: Work)
    requires Opener(open) && pos <= |text| && Remembers(text, pos, remembered)
    ensures turn.None? ==> Barren(text, open, close, pos, |text| + 1)
    ensures turn.Some? ==> pos < turn.value.next <= |text| && Remembers(text, turn.value.next, nameEnd)
    ensures turn.Some? && turn.value.span.None? ==> Barren(text, open, close, pos, turn.value.next)
    ensures turn.Some? && turn.value.span.Some? ==>
              && Find(text, open, pos) == turn.value.span.value.start
              && SectionAt(text, open, close, turn.value.span.value.start) == turn.value.span
              && turn.value.next == turn.value.span.value.close + |close|
    ensures WorkWithin(work, (if turn.Some? then turn.value.next else |text|) - pos,
                       (if turn.Some? then nameEnd + 1 else |text|) - (remembered + 1))
  {
    turn, nameEnd := None, remembered;
    var start := Find(text, open, pos);
    work := Work(Examined(pos, start, |open|, |text|), 0, 0, 0);
    if start < 0 {
      BarrenAfter(text, open, close, pos);
      return;
    }
    if nameEnd < start + |open| {
      nameEnd := NameEnd(text, start + |open|);
      work := work.(gt := Examined(start + |open|, nameEnd, 1, |text|));
    } else {
      RememberedIsNext(text, pos, start + |open|, nameEnd);
    }
    if nameEnd < 0 {
      SkipAll(text, open, close, start);
    } else {
      ghost var reading;
      turn, reading := ReadSection(text, open, close, start, nameEnd);
      work := Plus(work, reading);
      if turn.Some? {
        RemembersLater(text, open, start, nameEnd, turn.value.next);
      }
    }
    if turn.None? {
      BarrenBefore(text, open, close, pos, start, |text| + 1);
    } else if turn.value.span.None? {
      BarrenBefore(text, open, close, pos, start, turn.value.next);
    }
  }

  // ---- What a step means for the whole scan --------------------------------------------

  lemma OpenerIsNext(text: string, open: string, close: string, pos: nat, start: nat, before: seq<Span>)
    requires Find(text, open, pos) == start
    ensures SpansFrom(text, open, close, pos, before) == SpansFrom(text, open, close, start, before)
  {
    NoSectionUntil(text, open, close, pos, start, before);
  }

  lemma NothingIsNext(text: string, open: string, close: string, pos: nat, before: seq<Span>)
    requires pos <= |text| && Find(text, open, pos) < 0
    ensures SpansFrom(text, open, close, pos, before) == before
  {
    BarrenAfter(text, open, close, pos);
    NoSections(text, open, close, pos, before);
  }

  lemma SectionIsSkipped(text: string, open: string, close: string, from: nat, next: nat, before: seq<Span>)
    requires from <= |text| && next == from + 1 && SectionAt(text, open, close, from).None?
    ensures SpansFrom(text, open, close, from, before) == SpansFrom(text, open, close, next, before)
  {
  }

  lemma SectionIsTaken(text: string, open: string, close: string, start: nat, end: nat, span: Span, before: seq<Span>)
    requires SectionAt(text, open, close, start) == Some(span) && end == span.close + |close|
    ensures SpansFrom(text, open, close, start, before) == SpansFrom(text, open, close, end, before + [span])
  {
  }

  lemma SameThroughout<T>(a: seq<T>, b: seq<T>, c: seq<T>)
    requires a == b && b == c
    ensures a == c
  {
  }

  /** A section at the next opener is taken, and the scan goes on behind it. */
  lemma NextIsTaken(text: string, open: string, close: string, pos: nat, start: nat, end: nat, span: Span, before: seq<Span>)
    requires Find(text, open, pos) == start && SectionAt(text, open, close, start) == Some(span) && end == span.close + |close|
    ensures SpansFrom(text, open, close, pos, before) == SpansFrom(text, open, close, end, before + [span])
  {
    OpenerIsNext(text, open, close, pos, start, before);
    SectionIsTaken(text, open, close, start, end, span, before);
    SameThroughout(SpansFrom(text, open, close, pos, before), SpansFrom(text, open, close, start, before),
                   SpansFrom(text, open, close, end, before + [span]));
  }

  ghost predicate Tidy(text: string, open: string, close: string, spans: seq<Span>) {
    Inside(text, open, close, spans) && Ordered(close, spans) && Genuine(text, open, close, spans)
  }

  lemma SameTidy(text: string, open: string, close: string, a: seq<Span>, b: seq<Span>)
    requires a == b && Tidy(text, open, close, b)
    ensures Tidy(text, open, close, a)
  {
  }

  lemma SkipTidy(text: string, open: string, close: string, from: nat, next: nat, before: seq<Span>)
    requires from <= |text| && next == from + 1 && SectionAt(text, open, close, from).None?
    requires Tidy(text, open, close, SpansFrom(text, open, close, next, before))
    ensures Tidy(text, open, close, SpansFrom(text, open, close, from, before))
  {
    SectionIsSkipped(text, open, close, from, next, before);
    SameTidy(text, open, close, SpansFrom(text, open, close, from, before), SpansFrom(text, open, close, next, before));
  }

  lemma TakeTidy(text: string, open: string, close: string, from: nat, next: nat, span: Span, before: seq<Span>)
    requires SectionAt(text, open, close, from) == Some(span) && next == span.close + |close|
    requires Tidy(text, open, close, SpansFrom(text, open, close, next, before + [span]))
    ensures Tidy(text, open, close, SpansFrom(text, open, close, from, before))
  {
    SectionIsTaken(text, open, close, from, next, span, before);
    SameTidy(text, open, close, SpansFrom(text, open, close, from, before), SpansFrom(text, open, close, next, before + [span]));
  }

  /** The sections found are complete sections of the text, in order and without overlap. */
  lemma {:induction false} SpansAreOrdered(text: string, open: string, close: string, from: nat, before: seq<Span>)
    requires Tidy(text, open, close, before) && EndsBy(close, before, from)
    ensures Tidy(text, open, close, SpansFrom(text, open, close, from, before))
    decreases if from <= |text| then |text| + 1 - from else 0
  {
    if from <= |text| {
      var found := SectionAt(text, open, close, from);
      if found.None? {
        SpansAreOrdered(text, open, close, from + 1, before);
        SkipTidy(text, open, close, from, from + 1, before);
      } else {
        var span := found.value;
        var next := span.close + |close|;
        OrderedAppend(text, open, close, from, before, span);
        GenuineAppend(text, open, close, from, before, span);
        SpansAreOrdered(text, open, close, next, before + [span]);
        TakeTidy(text, open, close, from, next, span, before);
      }
    }
  }

  predicate GapBlank(text: string, close: string, spans: seq<Span>, k: nat)
    requires 0 < k < |spans|
  {
    Blank(Slice(text, spans[k - 1].close + |close|, spans[k].start))
  }

  predicate GapsBlank(text: string, close: string, spans: seq<Span>) {
    forall k :: 0 < k < |spans| ==> GapBlank(text, close, spans, k)
  }

  function GapFrom(close: string, spans: seq<Span>): nat {
    if spans == [] then 0 else spans[|spans| - 1].close + |close|
  }

  /** Only whitespace between and after the sections. */
  predicate NothingStranded(text: string, close: string, spans: seq<Span>) {
    GapsBlank(text, close, spans) && (spans != [] ==> Blank(Slice(text, GapFrom(close, spans), |text|)))
  }

  lemma GapsAppend(text: string, close: string, spans: seq<Span>, span: Span)
    ensures GapsBlank(text, close, spans + [span])
       <==> GapsBlank(text, close, spans) && (spans != [] ==> Blank(Slice(text, GapFrom(close, spans), span.start)))
  {
    var longer := spans + [span];
    forall k | 0 < k < |spans| ensures GapBlank(text, close, longer, k) <==> GapBlank(text, close, spans, k) {
    }
    if spans != [] {
      assert GapBlank(text, close, longer, |spans|) <==> Blank(Slice(text, GapFrom(close, spans), span.start));
    }
  }

  lemma ContentsAppend(text: string, open: string, close: string, spans: seq<Span>, span: Span)
    requires Inside(text, open, close, spans)
    requires span.start + |open| <= span.nameEnd < span.close && span.close + |close| <= |text|
    ensures Inside(text, open, close, spans + [span])
    ensures Contents(text, open, close, spans + [span]) == Contents(text, open, close, spans) + [Content(text, open, span)]
  {
    assert (spans + [span])[..|spans|] == spans;
  }

  /** The sections read so far, and whether only whitespace lay between them. */
  ghost predicate Collected(text: string, open: string, close: string, spans: seq<Span>, sections: seq<(string, string)>,
                            wellFormed: bool, gapFrom: nat)
  {
    && Inside(text, open, close, spans)
    && sections == Contents(text, open, close, spans)
    && gapFrom == GapFrom(close, spans)
    && (wellFormed <==> GapsBlank(text, close, spans))
  }

  method AddSection(text: string, open: string, close: string, span: Span, sections: seq<(string, string)>, wellFormed: bool,
                    gapFrom: nat, ghost spans: seq<Span>)
    returns (longer: seq<(string, string)>, stillWell: bool, gap: nat)
    requires Collected(text, open, close, spans, sections, wellFormed, gapFrom)
    requires SectionAt(text, open, close, span.start) == Some(span) && gapFrom <= span.start
    ensures Collected(text, open, close, spans + [span], longer, stillWell, gap) && gap == span.close + |close|
  {
    stillWell := wellFormed && !(sections != [] && !Blank(text[gapFrom..span.start]));
    GapsAppend(text, close, spans, span);
    ContentsAppend(text, open, close, spans, span);
    longer := sections + [Content(text, open, span)];
    gap := span.close + |close|;
  }

  /**
   The sections are those of the scan that tries every position, the flag says whether only whitespace lies between
   and after them, and the searches together examine at most four characters per character of the text.
   */
  method SplitSections(text: string, open: string, close: string)
    returns (sections: seq<(string, string)>, wellFormed: bool, ghost spans: seq<Span>, ghost examined: int)
    requires Opener(open)
    ensures spans == SpansFrom(text, open, close, 0, []) && Inside(text, open, close, spans)
    ensures sections == Contents(text, open, close, spans)
    ensures wellFormed <==> NothingStranded(text, close, spans)
    ensures examined <= 4 * |text|
  {
    sections, wellFormed, spans := [], true, [];
    var gapFrom: nat, pos: nat, nameEnd := 0, 0, -1;
    ghost var total := Work(0, 0, 0, 0);
    while true
      invariant pos <= |text| && Remembers(text, pos, nameEnd)
      invariant SpansFrom(text, open, close, pos, spans) == SpansFrom(text, open, close, 0, [])
      invariant Collected(text, open, close, spans, sections, wellFormed, gapFrom) && gapFrom <= pos
      invariant WorkWithin(total, pos, nameEnd + 1)
      decreases |text| - pos
    {
      var turn: Option<Turn>;
      ghost var work: Work;
      turn, nameEnd, work := NextSection(text, open, close, pos, nameEnd);
      total := Plus(total, work);
      if turn.None? {
        NoSections(text, open, close, pos, spans);
        break;
      }
      var next := turn.value.next;
      if turn.value.span.None? {
        NoSectionUntil(text, open, close, pos, next, spans);
      } else {
        var span := turn.value.span.value;
        NextIsTaken(text, open, close, pos, span.start, next, span, spans);
        sections, wellFormed, gapFrom := AddSection(text, open, close, span, sections, wellFormed, gapFrom, spans);
        spans := spans + [span];
      }
      pos := next;
    }
    examined := total.opener + total.gt + total.line + total.closer;
    if sections != [] && !Blank(text[gapFrom..|text|]) {
      wellFormed := false;
    }
  }
}
