/**
 Turns that reason and then call tools (proxyserver/tokenization/base.py, ThinkReasoning.strip): the visible text is the
 turn of calls as it was printed, whatever reasoning tags the arguments hold and whatever calls the reasoning mentions
 in quoted examples; the tool parser then gives back exactly the calls.
 */
module ReasonedTurns {
  import opened Wrappers
  import opened Text
  import opened ToolBlocks
  import opened QwenCalls
  import opened ReasoningTokens
  import opened ReasoningMarks
  import opened ReasoningScan
  import opened ReasoningScopes
  import opened VisibleCalls
  import opened MentionedCalls
  import opened VisibleJson
  import opened JsonCalls
  import Markup
  import ToolTurns
  import Think

  /** Every value may hold reasoning tags, quotes, brackets and openers; only the dialect's closing markers are left out. */
  ghost predicate PrintableCalls(calls: seq<Call>) {
    forall i :: 0 <= i < |calls| ==> PrintableCall(calls[i]) && ValuesFree(calls[i].arguments, CLOSE)
  }

  lemma PrintableIsPassable(calls: seq<Call>)
    requires PrintableCalls(calls)
    ensures Passables(calls)
  {
    forall i | 0 <= i < |calls| ensures Passable(calls[i]) {
      var arguments := calls[i].arguments;
      forall j | 0 <= j < |arguments| ensures Markup.Clean(arguments[j].0) && ClosersFree(arguments[j].1) {
        assert Printable(arguments[j].0, arguments[j].1);
      }
    }
  }

  /** The text, with these tags removed as reasoning, reads like this. */
  ghost predicate Shows(text: string, tags: seq<Tag>, visible: string) {
    && TagsOrdered(text, tags) && Think.SpansOk(text, Think.SpansOf(text, tags))
    && Think.Visible(text, Think.SpansOf(text, tags)) == visible
  }

  /** The text, with these tags delimiting its reasoning, is reasoning like this. */
  ghost predicate Thinks(text: string, tags: seq<Tag>, reasoning: string) {
    && TagsOrdered(text, tags) && Think.SpansOk(text, Think.SpansOf(text, tags))
    && Think.Reasoning(text, Think.SpansOf(text, tags)) == if Strip(reasoning) == "" then None else Some(Strip(reasoning))
  }

  lemma NoTagsShowAll(text: string)
    ensures Shows(text, [], text)
  {
    assert Think.SpansOf(text, []) == [];
    assert text[0..] == text;
    EmptyConcat(text);
  }

  // ---- A turn of calls ----------------------------------------------------------------------

  lemma FirstIs(text: string, lead: string, rest: string)
    requires text == lead + rest && Blank(lead) && rest != "" && !IsSpace(rest[0])
    ensures FirstContent(text) == |lead|
  {
    assert text[|lead|] == rest[0];
    assert forall i :: 0 <= i < |lead| ==> text[i] == lead[i];
    SkipsSpaceUpTo(text, |lead|);
  }

  lemma LeadingCall(leads: seq<string>, calls: seq<Call>, tail: string, text: string)
    requires |leads| == |calls| > 0 && text == ToolTurns.Turn(leads, PrintAll(calls), tail) && Blank(leads[0])
    ensures FirstContent(text) == |leads[0]|
  {
    TurnStarts(leads, calls, tail);
    var wrapped, rest := ToolTurns.Wrapped(PrintInner(calls[0])), ToolTurns.Turn(leads[1..], PrintAll(calls[1..]), tail);
    assert text == leads[0] + (wrapped + rest);
    assert (wrapped + rest)[0] == OPEN[0] == '<';
    FirstIs(text, leads[0], wrapped + rest);
  }

  /**
   A completion that consists of actual calls holds no reasoning: the scanner reports no tag, and stripping leaves the
   text as it is, even when every value holds reasoning tags, quotes, brackets or openers of calls.
   */
  lemma CallsStayVisible(text: string, lex: Lexicon, leads: seq<string>, calls: seq<Call>, tail: string)
    requires QuotesFit(text, lex) && |leads| == |calls| && text == ToolTurns.Turn(leads, PrintAll(calls), tail)
    requires PrintableCalls(calls) && AllQuiet(leads) && Quiet(tail) && (leads != [] ==> Blank(leads[0]))
    ensures ReportedTags(text, lex) == [] && Shows(text, ReportedTags(text, lex), text)
  {
    PrintableIsPassable(calls);
    if leads != [] {
      LeadingCall(leads, calls, tail, text);
    }
    EmptyConcat(text);
    PassesTurn(text, lex, START, "", leads, calls, tail, []);
    NoTagsShowAll(text);
  }

  lemma {:induction false} OpenerFirst(lead: string, name: string, arguments: seq<(string, string)>, key: string,
                                       partial: string)
    returns (rest: string)
    ensures Truncated(lead, name, arguments, key, partial) == lead + rest && rest != "" && rest[0] == '<'
  {
    rest := OPEN + "\n" + (FUNCTION + name) + ">" + ("\n" + PrintParameters(arguments) + (PARAMETER + key + ">" + partial));
  }

  lemma {:induction false} TruncatedIsPassed(text: string, lex: Lexicon, leads: seq<string>, calls: seq<Call>, lead: string,
                                             call: Call, key: string, partial: string, last: string)
    requires QuotesFit(text, lex) && |leads| == |calls| && leads != [] && Passables(calls) && AllQuiet(leads) && Blank(leads[0])
    requires last == Truncated(lead, call.name, call.arguments, key, partial) && text == ToolTurns.Turn(leads, PrintAll(calls), last)
    requires Passable(call) && Markup.Clean(key) && ClosersFree(partial) && Quiet(lead)
    ensures ReportedTags(text, lex) == []
  {
    EmptyConcat(text);
    LeadingCall(leads, calls, last, text);
    var u, st := PassesCalls(text, lex, START, "", leads, calls, last, []);
    PassesTruncated(text, lex, st, u, lead, call, key, partial, []);
  }

  /**
   A completion cut short inside a value stays as it is, too: the tags in the unfinished value belong to it, and so do
   the openers of calls it holds.
   */
  lemma TruncatedCallStaysVisible(text: string, lex: Lexicon, leads: seq<string>, calls: seq<Call>, lead: string, call: Call, key: string,
                                  partial: string)
    requires QuotesFit(text, lex) && |leads| == |calls| && PrintableCalls(calls) && AllQuiet(leads)
    requires text == ToolTurns.Turn(leads, PrintAll(calls), Truncated(lead, call.name, call.arguments, key, partial))
    requires PrintableCalls([call]) && Markup.Clean(key) && ClosersFree(partial) && Quiet(lead)
    requires Blank(if leads == [] then lead else leads[0])
    ensures ReportedTags(text, lex) == [] && Shows(text, ReportedTags(text, lex), text)
  {
    PrintableIsPassable(calls);
    PrintableIsPassable([call]);
    assert Passable([call][0]);
    EmptyConcat(text);
    if leads == [] {
      var rest := OpenerFirst(lead, call.name, call.arguments, key, partial);
      FirstIs(text, lead, rest);
      PassesTruncated(text, lex, START, "", lead, call, key, partial, []);
    } else {
      TruncatedIsPassed(text, lex, leads, calls, lead, call, key, partial, Truncated(lead, call.name, call.arguments, key, partial));
    }
    NoTagsShowAll(text);
  }

  // ---- Reasoning that mentions calls ---------------------------------------------------------

  /** A closed example that starts and ends here, and holds no actual reasoning tag. */
  predicate ExampleAt(text: string, lex: Lexicon, p: nat, end: nat) {
    && p < end <= |text| && TokenAt(text, p, |text|, lex).Some?
    && var token := TokenAt(text, p, |text|, lex).value;
    && (token.kind.CodeMark? || (token.kind.Quote? && token.kind.mayOpen))
    && token.end <= end && p in lex.quotes && lex.quotes[p] == end
    && Hides(text, token.end, end, token.kind.Quote? && token.kind.double)
  }

  /** A mark that opens nothing: one without a closer, an apostrophe or inch mark, a bracket, or part of a call outside any. */
  predicate MarkAt(text: string, lex: Lexicon, p: nat, end: nat) {
    && p < end <= |text| && TokenAt(text, p, |text|, lex).Some?
    && var token := TokenAt(text, p, |text|, lex).value;
    && token.end == end && !token.kind.Reasoning? && !token.kind.ToolOpen?
    && (token.kind.CodeMark? || (token.kind.Quote? && token.kind.mayOpen) ==> p !in lex.quotes)
  }

  /** Quiet text with quoted examples and marks that open nothing in it. */
  predicate Prose(text: string, lex: Lexicon, from: nat, to: nat, examples: seq<(nat, nat)>)
    decreases |examples|
  {
    if examples == [] then from <= to <= |text| && Quiet(text[from..to])
    else
      && from <= examples[0].0 < examples[0].1 <= to <= |text|
      && Quiet(text[from..examples[0].0])
      && (ExampleAt(text, lex, examples[0].0, examples[0].1) || MarkAt(text, lex, examples[0].0, examples[0].1))
      && Prose(text, lex, examples[0].1, to, examples[1..])
  }

  /** Outside of any call. */
  predicate Outdoors(scope: Scope) {
    scope == OUTSIDE.(toolInReasoning := scope.toolInReasoning)
  }

  /** Scanning prose, with this much known of reasoning. */
  predicate InProse(text: string, lex: Lexicon, st: State, inReasoning: Option<bool>) {
    Calm(text, lex, st) && Outdoors(st.scope) && st.inReasoning == inReasoning
  }

  lemma {:induction false} PassesExample(text: string, lex: Lexicon, st: State, p: nat, end: nat, before: seq<Tag>)
    returns (st': State)
    requires Calm(text, lex, st) && Outdoors(st.scope) && st.pos <= p < |text| && Quiet(text[st.pos..p])
    requires ExampleAt(text, lex, p, end)
    ensures InProse(text, lex, st', st.inReasoning) && st'.pos == end && SameTags(text, lex, st, st', before)
  {
    var token := TokenAt(text, p, |text|, lex).value;
    TokenIsNext(text, st.pos, p, |text|, lex, token);
    var double := token.kind.Quote? && token.kind.double;
    assert RoundAt(text, lex, st) == Round(st, |text|, Some(token));
    ExampleIsTransparent(text, lex, st, end, double, before);
    st' := Outside(end, st.scope, double, st.inReasoning);
  }

  lemma {:induction false} PassesMark(text: string, lex: Lexicon, st: State, p: nat, end: nat, before: seq<Tag>)
    returns (st': State)
    requires Calm(text, lex, st) && Outdoors(st.scope) && st.pos <= p < |text| && Quiet(text[st.pos..p])
    requires MarkAt(text, lex, p, end)
    ensures InProse(text, lex, st', st.inReasoning) && st'.pos == end && SameTags(text, lex, st, st', before)
  {
    var token := TokenAt(text, p, |text|, lex).value;
    PassesToken(text, lex, st, token, before);
    st' := Taken(text, lex, st, token, |text|);
  }

  lemma {:induction false} PassesProse(text: string, lex: Lexicon, st: State, to: nat, examples: seq<(nat, nat)>, before: seq<Tag>)
    returns (st': State)
    requires Calm(text, lex, st) && Outdoors(st.scope) && Prose(text, lex, st.pos, to, examples)
    ensures InProse(text, lex, st', st.inReasoning) && st'.pos <= to <= |text| && Quiet(text[st'.pos..to])
    ensures SameTags(text, lex, st, st', before)
    decreases |examples|
  {
    if examples == [] {
      st' := st;
    } else {
      var next;
      if ExampleAt(text, lex, examples[0].0, examples[0].1) {
        next := PassesExample(text, lex, st, examples[0].0, examples[0].1, before);
      } else {
        next := PassesMark(text, lex, st, examples[0].0, examples[0].1, before);
      }
      st' := PassesProse(text, lex, next, to, examples[1..], before);
    }
  }

  /** Behind a reported tag, outside of any call. */
  predicate BehindTag(text: string, lex: Lexicon, st: State, pos: nat, open: bool) {
    Calm(text, lex, st) && st.pos == pos && Outdoors(st.scope) && st.inReasoning == Some(open)
  }

  /** An actual reasoning tag is reported. */
  lemma {:induction false} ReportsTag(text: string, lex: Lexicon, st: State, token: Token, before: seq<Tag>)
    returns (st': State)
    requires Calm(text, lex, st) && IsNext(text, lex, st.pos, token) && token.kind.Reasoning?
    ensures BehindTag(text, lex, st', token.end, token.kind.open)
    ensures TagsFrom(text, lex, st, before) == TagsFrom(text, lex, st', before + [Tag(token.kind.open, token.start, token.end)])
  {
    TokenIsNext(text, st.pos, token.start, |text|, lex, token);
    assert RoundAt(text, lex, st) == Round(st, |text|, Some(token));
    st' := Taken(text, lex, st, token, |text|);
  }

  lemma {:induction false} TagIsNext(text: string, lex: Lexicon, pos: nat, at: nat, open: bool) returns (token: Token)
    requires pos <= at <= |text| && Quiet(text[pos..at]) && At(text, if open then THINK else THINK_END, at)
    ensures token == Token(at, at + if open then |THINK| else |THINK_END|, Reasoning(open)) && IsNext(text, lex, pos, token)
  {
    MarkerIsToken(text, if open then THINK else THINK_END, at, lex);
    token := Token(at, at + if open then |THINK| else |THINK_END|, Reasoning(open));
  }

  /**
   What reasoning ends in: nothing more, or a call that it mentions without quotes, up to an open parameter, up to a
   function's header, or as JSON up to somewhere inside its first key.
   */
  datatype Ending = Silence | Header(mention: Mention) | BareHeader(bare: Bare) | Broken(unfinished: Unfinished)

  function Said(ending: Ending): string {
    match ending
    case Silence => ""
    case Header(m) => MentionText(m)
    case BareHeader(m) => BareText(m)
    case Broken(m) => UnfinishedText(m)
  }

  ghost predicate Sayable(ending: Ending) {
    match ending
    case Silence => true
    case Header(m) => Mentionable(m)
    case BareHeader(m) => Barely(m)
    case Broken(m) => LeftOpen(m)
  }

  /**
   A mention must not be the first thing in the text, or it would be an actual call; behind the reasoning, a new call
   or the end of the text comes before any marker that could end the mention's value.
   */
  ghost predicate MaySay(text: string, ending: Ending, at: nat, close: nat, next: nat, explicit: bool) {
    !ending.Silence? ==>
      && Sayable(ending) && (explicit || FirstContent(text) != at)
      && close + |THINK_END| <= next <= |text| && NoMarker(text, close + |THINK_END|, next)
      && (next == |text| || At(text, OPEN, next))
  }

  lemma {:induction false} ReadsSaid(text: string, lex: Lexicon, st: State, u: string, ending: Ending, rest: string, close: nat,
                                     next: nat, explicit: bool, before: seq<Tag>)
    returns (st': State)
    requires Calm(text, lex, st) && st.pos <= |u| <= |text| && Quiet(text[st.pos..|u|])
    requires text == u + Said(ending) + rest && close == |u| + |Said(ending)| && At(text, THINK_END, close)
    requires MaySay(text, ending, |u|, close, next, explicit) && st.inReasoning == if explicit then Some(true) else None
    ensures Calm(text, lex, st') && st'.pos <= close && Quiet(text[st'.pos..close]) && SameTags(text, lex, st, st', before)
  {
    match ending
    case Silence => st' := st;
    case Header(m) => st' := PassesMention(text, lex, st, u, m, rest, close, next, before);
    case BareHeader(m) => st' := PassesBare(text, lex, st, u, m, FUNCTION + m.name + ">", rest, close, before);
    case Broken(m) => st' := PassesUnfinished(text, lex, st, u, m, rest, close, before);
  }

  lemma {:induction false} ReadsClosing(text: string, lex: Lexicon, st: State, close: nat, before: seq<Tag>, after: seq<Tag>)
    returns (st': State)
    requires Calm(text, lex, st) && st.pos <= close <= |text| && Quiet(text[st.pos..close]) && At(text, THINK_END, close)
    requires after == before + [Tag(false, close, close + |THINK_END|)]
    ensures BehindTag(text, lex, st', close + |THINK_END|, false)
    ensures TagsFrom(text, lex, st, before) == TagsFrom(text, lex, st', after)
  {
    var closing := TagIsNext(text, lex, st.pos, close, false);
    st' := ReportsTag(text, lex, st, closing, before);
  }

  /** Reasoning goes on up to its closing tag. */
  lemma {:induction false} ReadsToClose(text: string, lex: Lexicon, st: State, u: string, examples: seq<(nat, nat)>,
                                        ending: Ending, rest: string, close: nat, next: nat, explicit: bool, before: seq<Tag>,
                                        after: seq<Tag>)
    returns (st': State)
    requires Calm(text, lex, st) && Outdoors(st.scope) && Prose(text, lex, st.pos, |u|, examples)
    requires text == u + Said(ending) + rest && close == |u| + |Said(ending)| && At(text, THINK_END, close)
    requires MaySay(text, ending, |u|, close, next, explicit) && st.inReasoning == if explicit then Some(true) else None
    requires after == before + [Tag(false, close, close + |THINK_END|)]
    ensures BehindTag(text, lex, st', close + |THINK_END|, false)
    ensures TagsFrom(text, lex, st, before) == TagsFrom(text, lex, st', after)
  {
    var thought := PassesProse(text, lex, st, |u|, examples, before);
    var said := ReadsSaid(text, lex, thought, u, ending, rest, close, next, explicit, before);
    st' := ReadsClosing(text, lex, said, close, before, after);
  }

  function OpeningTag(): Tag {
    Tag(true, 0, |THINK|)
  }

  function ClosingTag(close: nat): Tag {
    Tag(false, close, close + |THINK_END|)
  }

  lemma {:induction false} ReadsOpening(text: string, lex: Lexicon) returns (st: State)
    requires QuotesFit(text, lex) && At(text, THINK, 0)
    ensures BehindTag(text, lex, st, |THINK|, true)
    ensures ReportedTags(text, lex) == TagsFrom(text, lex, st, [OpeningTag()])
  {
    var opening := TagIsNext(text, lex, 0, 0, true);
    EmptyConcat([OpeningTag()]);
    st := ReportsTag(text, lex, START, opening, []);
  }

  /** The tags of a thought up to its closing tag; its opening tag may have been part of the prompt. */
  function ThoughtTags(explicit: bool, close: nat): seq<Tag> {
    if explicit then [OpeningTag(), ClosingTag(close)] else [ClosingTag(close)]
  }

  function ThoughtStart(explicit: bool): nat {
    if explicit then |THINK| else 0
  }

  lemma {:induction false} ReadsExplicit(text: string, lex: Lexicon, u: string, examples: seq<(nat, nat)>, ending: Ending,
                                         rest: string, close: nat, next: nat, tags: seq<Tag>)
    returns (st: State)
    requires QuotesFit(text, lex) && At(text, THINK, 0) && Prose(text, lex, |THINK|, |u|, examples)
    requires text == u + Said(ending) + rest && close == |u| + |Said(ending)| && At(text, THINK_END, close)
    requires MaySay(text, ending, |u|, close, next, true) && tags == [OpeningTag()] + [ClosingTag(close)]
    ensures BehindTag(text, lex, st, close + |THINK_END|, false)
    ensures ReportedTags(text, lex) == TagsFrom(text, lex, st, tags)
  {
    var thinking := ReadsOpening(text, lex);
    st := ReadsToClose(text, lex, thinking, u, examples, ending, rest, close, next, true, [OpeningTag()], tags);
  }

  lemma {:induction false} ReadsPrefilled(text: string, lex: Lexicon, u: string, examples: seq<(nat, nat)>, ending: Ending,
                                          rest: string, close: nat, next: nat, tags: seq<Tag>)
    returns (st: State)
    requires QuotesFit(text, lex) && Prose(text, lex, 0, |u|, examples)
    requires text == u + Said(ending) + rest && close == |u| + |Said(ending)| && At(text, THINK_END, close)
    requires MaySay(text, ending, |u|, close, next, false) && tags == [] + [ClosingTag(close)]
    ensures BehindTag(text, lex, st, close + |THINK_END|, false)
    ensures ReportedTags(text, lex) == TagsFrom(text, lex, st, tags)
  {
    st := ReadsToClose(text, lex, START, u, examples, ending, rest, close, next, false, [], tags);
  }

  lemma {:induction false} ReadsThought(text: string, lex: Lexicon, explicit: bool, u: string, examples: seq<(nat, nat)>,
                                        ending: Ending, rest: string, close: nat, next: nat)
    returns (st: State)
    requires QuotesFit(text, lex) && (explicit ==> At(text, THINK, 0))
    requires Prose(text, lex, ThoughtStart(explicit), |u|, examples)
    requires text == u + Said(ending) + rest && close == |u| + |Said(ending)| && At(text, THINK_END, close)
    requires MaySay(text, ending, |u|, close, next, explicit)
    ensures BehindTag(text, lex, st, close + |THINK_END|, false)
    ensures ReportedTags(text, lex) == TagsFrom(text, lex, st, ThoughtTags(explicit, close))
  {
    if explicit {
      assert [OpeningTag()] + [ClosingTag(close)] == ThoughtTags(true, close);
      st := ReadsExplicit(text, lex, u, examples, ending, rest, close, next, ThoughtTags(true, close));
    } else {
      EmptyConcat([ClosingTag(close)]);
      st := ReadsPrefilled(text, lex, u, examples, ending, rest, close, next, ThoughtTags(false, close));
    }
  }

  // ---- What stays visible -----------------------------------------------------------------------

  lemma {:induction false} SkipsNewlines(text: string, from: nat, to: nat)
    requires from <= to <= |text| && Think.Newlines(text[from..to]) && (to == |text| || text[to] != '\n')
    ensures Think.SkipNewlines(text, from) == to
    decreases |text| - from
  {
    if from < to {
      assert text[from..to][0] == text[from];
      assert text[from + 1..to] == text[from..to][1..];
      SkipsNewlines(text, from + 1, to);
    }
  }

  lemma ThoughtSpans(text: string, explicit: bool, close: nat, span: Think.Span)
    requires TagsOrdered(text, ThoughtTags(explicit, close))
    requires span == Think.Span(0, if explicit then |THINK| else 0, Some(close), close + |THINK_END|)
    ensures Think.SpansOf(text, ThoughtTags(explicit, close)) == [span]
  {
    var tags := ThoughtTags(explicit, close);
    assert Think.OpenSpans(text, tags) == [];
    if explicit {
      assert tags[0] == OpeningTag() && tags[1] == ClosingTag(close);
      assert Think.RunStart(tags, 1) == 0;
      assert Think.ClosedSpans(text, tags, 1) == [];
    } else {
      assert Think.ClosedSpans(text, tags, 0) == [];
    }
  }

  /** Everything behind the closing tag and the newlines that follow it is shown. */
  lemma ThoughtIsRemoved(text: string, explicit: bool, close: nat, to: nat)
    requires (explicit ==> At(text, THINK, 0) && |THINK| <= close) && At(text, THINK_END, close)
    requires close + |THINK_END| <= to <= |text| && Think.Newlines(text[close + |THINK_END|..to]) && (to == |text| || text[to] != '\n')
    ensures Shows(text, ThoughtTags(explicit, close), text[to..])
    ensures Thinks(text, ThoughtTags(explicit, close), text[ThoughtStart(explicit)..close])
  {
    var tags := ThoughtTags(explicit, close);
    assert TagAt(text, ClosingTag(close));
    assert explicit ==> TagAt(text, OpeningTag());
    var span := Think.Span(0, if explicit then |THINK| else 0, Some(close), close + |THINK_END|);
    ThoughtSpans(text, explicit, close, span);
    SkipsNewlines(text, close + |THINK_END|, to);
    assert Think.SpanOk(text, [span], 0);
    assert Think.VisibleUpTo(text, [span], 1) == "";
    EmptyConcat(text[to..]);
  }

  // ---- Reasoning and calls together -----------------------------------------------------------

  /** The newlines before a turn belong to its first text. */
  lemma {:induction false} Separated(sep: string, leads: seq<string>, inners: seq<string>, tail: string)
    returns (leads': seq<string>, tail': string)
    requires |leads| == |inners| && AllQuiet(leads) && Quiet(tail) && Quiet(sep)
    ensures |leads'| == |leads| && AllQuiet(leads') && Quiet(tail')
    ensures ToolTurns.Turn(leads', inners, tail') == sep + ToolTurns.Turn(leads, inners, tail)
  {
    if leads == [] {
      leads', tail' := [], sep + tail;
    } else {
      leads', tail' := [sep + leads[0]] + leads[1..], tail;
      assert leads'[1..] == leads[1..];
    }
  }

  /** Behind reasoning, nothing that could end a mentioned value comes before the first actual call. */
  lemma {:induction false} FirstCallIsNext(text: string, u: string, leads: seq<string>, inners: seq<string>, tail: string)
    returns (next: nat)
    requires |leads| == |inners| && AllQuiet(leads) && Quiet(tail) && text == u + ToolTurns.Turn(leads, inners, tail)
    ensures |u| <= next <= |text| && NoMarker(text, |u|, next) && (next == |text| || At(text, OPEN, next))
  {
    if leads == [] {
      QuietMarkersFree(tail);
      assert text == u + tail + "";
      NoMarkerIn(text, u, tail, "", |u|, |text|);
      next := |text|;
    } else {
      QuietMarkersFree(leads[0]);
      next := |u| + |leads[0]|;
      var rest := ToolTurns.Turn(leads[1..], inners[1..], tail);
      OpenerIsThere(text, u, leads[0], OPEN, inners[0], CLOSE, rest);
      NoMarkerIn(text, u, leads[0], OPEN + (inners[0] + CLOSE + rest), |u|, next);
    }
  }

  lemma OpenerIsThere(text: string, u: string, lead: string, open: string, inner: string, close: string, rest: string)
    requires text == u + (lead + (open + inner + close) + rest)
    ensures text == u + lead + (open + (inner + close + rest)) && At(text, open, |u| + |lead|)
  {
    assert text == (u + lead) + open + (inner + close + rest);
    MarkerAt(text, u + lead, open, inner + close + rest);
  }

  lemma {:induction false} TextParts(text: string, opener: string, thought: string, said: string, closing: string, sep: string,
                                     turn: string)
    returns (u: string, v: string)
    requires text == opener + thought + said + closing + (sep + turn)
    ensures v == opener + thought + said + closing
    ensures u == opener + thought && text == u + said + (closing + (sep + turn)) && |u| == |opener| + |thought|
    ensures text == v + (sep + turn) && |v| == |u| + |said| + |closing|
    ensures At(text, opener, 0) && At(text, closing, |u| + |said|)
    ensures text[|v|..|v| + |sep|] == sep && text[|v| + |sep|..] == turn
    ensures text[..|u|] == u && text[|u|..|u| + |said|] == said
    ensures turn == "" ==> |v| + |sep| == |text|
    ensures turn != "" ==> |v| + |sep| < |text| && text[|v| + |sep|] == turn[0]
  {
    u := opener + thought;
    v := u + said + closing;
    assert text == "" + opener + (thought + said + closing + (sep + turn));
    MarkerAt(text, "", opener, thought + said + closing + (sep + turn));
    assert text == (u + said) + closing + (sep + turn);
    MarkerAt(text, u + said, closing, sep + turn);
    assert text == (v + sep) + turn;
  }

  /** Behind a prefilled thought that is not blank, nothing is the first content. */
  lemma NotFirst(text: string, opener: string, thought: string, u: string)
    requires opener == "" && u == opener + thought && |u| <= |text| && text[..|u|] == u && !Blank(thought)
    ensures FirstContent(text) != |u|
  {
    var i :| 0 <= i < |thought| && !IsSpace(thought[i]);
    assert text[..|u|][i] == text[i] == thought[i];
    SkipsSpaceUpTo(text, i);
  }

  lemma NewlinesAreQuiet(sep: string)
    requires Think.Newlines(sep)
    ensures Quiet(sep)
  {
  }

  /** Outside of reasoning, nothing is reported from this position on. */
  ghost predicate Silent(text: string, lex: Lexicon, from: nat) {
    forall st, before ::
      Calm(text, lex, st) && st.pos == from && st.inReasoning == Some(false) ==> TagsFrom(text, lex, st, before) == before
  }

  lemma {:induction false} RestOf(text: string, u: string, said: string, close: nat) returns (rest: string)
    requires |u| <= close <= |text| && text[..|u|] == u && text[|u|..close] == said
    ensures text == u + said + rest
  {
    rest := text[close..];
  }

  /** What the scanner reports for reasoning followed by a turn of calls. */
  lemma {:induction false} ReportsOnlyThought(text: string, lex: Lexicon, explicit: bool, u: string, examples: seq<(nat, nat)>,
                                              ending: Ending, v: string, close: nat, leads: seq<string>, inners: seq<string>,
                                              tail: string)
    requires QuotesFit(text, lex) && (explicit ==> At(text, THINK, 0)) && Prose(text, lex, ThoughtStart(explicit), |u|, examples)
    requires |leads| == |inners| && text == v + ToolTurns.Turn(leads, inners, tail) && AllQuiet(leads) && Quiet(tail)
    requires close == |u| + |Said(ending)| && At(text, THINK_END, close) && |v| == close + |THINK_END|
    requires text[..|u|] == u && text[|u|..close] == Said(ending)
    requires !ending.Silence? ==> Sayable(ending) && (explicit || FirstContent(text) != |u|)
    requires Silent(text, lex, |v|)
    ensures ReportedTags(text, lex) == ThoughtTags(explicit, close)
  {
    var next := FirstCallIsNext(text, v, leads, inners, tail);
    var rest := RestOf(text, u, Said(ending), close);
    var st := ReadsThought(text, lex, explicit, u, examples, ending, rest, close, next);
    assert TagsFrom(text, lex, st, ThoughtTags(explicit, close)) == ThoughtTags(explicit, close);
  }

  /** Whether the text starts with the opening tag, or its prompt did. */
  function Opener(explicit: bool): string {
    if explicit then THINK else ""
  }

  /** Where the parts of reasoning and a turn lie: the thought up to u, the closing tag at close, the turn from `to` on. */
  predicate Laid(text: string, explicit: bool, u: string, said: string, v: string, close: nat, sep: string, turn: string, to: nat) {
    && (explicit ==> At(text, THINK, 0)) && text == v + (sep + turn)
    && close == |u| + |said| && At(text, THINK_END, close) && |v| == close + |THINK_END| && to == |v| + |sep|
    && text[..|u|] == u && text[|u|..close] == said
    && to <= |text| && text[|v|..to] == sep && text[to..] == turn && (to == |text| || text[to] != '\n')
  }

  lemma {:induction false} ThoughtIsAllRemoved(text: string, lex: Lexicon, explicit: bool, u: string, examples: seq<(nat, nat)>,
                                               ending: Ending, v: string, close: nat, sep: string, leads: seq<string>,
                                               inners: seq<string>, tail: string, turn: string, to: nat)
    requires QuotesFit(text, lex) && Laid(text, explicit, u, Said(ending), v, close, sep, turn, to)
    requires Prose(text, lex, ThoughtStart(explicit), |u|, examples)
    requires !ending.Silence? ==> Sayable(ending) && (explicit || FirstContent(text) != |u|)
    requires |leads| == |inners| && turn == ToolTurns.Turn(leads, inners, tail)
    requires AllQuiet(leads) && Quiet(tail) && Think.Newlines(sep) && Silent(text, lex, |v|)
    ensures Shows(text, ReportedTags(text, lex), turn) && ThoughtStart(explicit) <= close <= |text|
    ensures Thinks(text, ReportedTags(text, lex), text[ThoughtStart(explicit)..close])
  {
    NewlinesAreQuiet(sep);
    var leads', tail' := Separated(sep, leads, inners, tail);
    ReportsOnlyThought(text, lex, explicit, u, examples, ending, v, close, leads', inners, tail');
    ThoughtIsRemoved(text, explicit, close, to);
  }

  lemma {:induction false} ThoughtParts(text: string, explicit: bool, thought: string, said: string, sep: string, turn: string)
    returns (u: string, v: string, close: nat, to: nat)
    requires text == Opener(explicit) + thought + said + THINK_END + (sep + turn) && (turn == "" || turn[0] != '\n')
    ensures u == Opener(explicit) + thought && |u| == ThoughtStart(explicit) + |thought| <= |text| && text[..|u|] == u
    ensures v == Opener(explicit) + thought + said + THINK_END
    ensures Laid(text, explicit, u, said, v, close, sep, turn, to)
    ensures ThoughtStart(explicit) <= close <= |text| && text[ThoughtStart(explicit)..close] == thought + said
  {
    u, v := TextParts(text, Opener(explicit), thought, said, THINK_END, sep, turn);
    close, to := |u| + |said|, |v| + |sep|;
    assert text[..close] == u + said;
  }

  /** The text up to the end of the reasoning. */
  function Reasoned(explicit: bool, thought: string, ending: Ending): string {
    Opener(explicit) + thought + Said(ending) + THINK_END
  }

  /** What reasoning may hold: quoted examples of anything but reasoning tags, and a header mentioned at its end. */
  ghost predicate Reasonable(text: string, lex: Lexicon, explicit: bool, thought: string, examples: seq<(nat, nat)>,
                             ending: Ending) {
    && Prose(text, lex, ThoughtStart(explicit), ThoughtStart(explicit) + |thought|, examples)
    && (!ending.Silence? ==> Sayable(ending) && (explicit || !Blank(thought)))
  }

  /**
   Reasoning, with or without its opening tag, and then a turn: when the turn itself reports nothing, exactly the
   reasoning and the newlines behind it are removed. Neither quoted examples of calls in the reasoning nor a header it
   mentions at its end hide where it ends, and the reasoning itself is what was thought.
   */
  lemma {:induction false} ReasoningIsRemoved(text: string, lex: Lexicon, explicit: bool, thought: string,
                                              examples: seq<(nat, nat)>, ending: Ending, sep: string, leads: seq<string>,
                                              inners: seq<string>, tail: string, turn: string)
    requires QuotesFit(text, lex) && |leads| == |inners| && turn == ToolTurns.Turn(leads, inners, tail)
    requires text == Reasoned(explicit, thought, ending) + (sep + turn) && Reasonable(text, lex, explicit, thought, examples, ending)
    requires Think.Newlines(sep) && (turn == "" || turn[0] != '\n') && AllQuiet(leads) && Quiet(tail)
    requires Silent(text, lex, |Reasoned(explicit, thought, ending)|)
    ensures Shows(text, ReportedTags(text, lex), turn) && Thinks(text, ReportedTags(text, lex), thought + Said(ending))
  {
    var u, v, close, to := ThoughtParts(text, explicit, thought, Said(ending), sep, turn);
    if !ending.Silence? && !explicit {
      NotFirst(text, Opener(explicit), thought, u);
    }
    ThoughtIsAllRemoved(text, lex, explicit, u, examples, ending, v, close, sep, leads, inners, tail, turn, to);
  }

  // ---- Both dialects ------------------------------------------------------------------------------

  lemma CallsAreSilent(text: string, lex: Lexicon, v: string, leads: seq<string>, calls: seq<Call>, tail: string)
    requires QuotesFit(text, lex) && |leads| == |calls| && text == v + ToolTurns.Turn(leads, PrintAll(calls), tail)
    requires PrintableCalls(calls) && AllQuiet(leads) && Quiet(tail)
    ensures Silent(text, lex, |v|)
  {
    PrintableIsPassable(calls);
    forall st, before | Calm(text, lex, st) && st.pos == |v| && st.inReasoning == Some(false)
      ensures TagsFrom(text, lex, st, before) == before
    {
      PassesTurn(text, lex, st, v, leads, calls, tail, before);
    }
  }

  lemma JsonCallsAreSilent(text: string, lex: Lexicon, v: string, leads: seq<string>, calls: seq<JsonCall>, style: Style, tail: string)
    requires QuotesFit(text, lex) && |leads| == |calls| && text == v + ToolTurns.Turn(leads, PrintCalls(calls, style), tail)
    requires Stylish(style) && DecodesKeys(lex) && WellFormedCalls(calls) && AllQuiet(leads) && Quiet(tail)
    ensures Silent(text, lex, |v|)
  {
    forall st, before | Calm(text, lex, st) && st.pos == |v| && st.inReasoning == Some(false)
      ensures TagsFrom(text, lex, st, before) == before
    {
      PassesJsonTurn(text, lex, st, v, leads, calls, style, tail, before);
    }
  }

  lemma QuietLeadsAreFree(leads: seq<string>)
    requires AllQuiet(leads)
    ensures ToolTurns.AllFree(leads)
  {
    forall i | 0 <= i < |leads| ensures Markup.Free(leads[i], OPEN) {
      QuietMarkersFree(leads[i]);
    }
  }

  /**
   Behind reasoning, a turn of printed calls is shown as it was printed, and the tool parser then gives back exactly the
   calls: every one that was printed, with the reasoning tags in its arguments, and none that the reasoning mentioned.
   */
  lemma {:induction false} CallsSurviveReasoning(text: string, lex: Lexicon, explicit: bool, thought: string,
                                                 examples: seq<(nat, nat)>, ending: Ending, sep: string, leads: seq<string>,
                                                 calls: seq<Call>, tail: string, turn: string, coerce: Coercion)
    requires QuotesFit(text, lex) && |leads| == |calls| && turn == ToolTurns.Turn(leads, PrintAll(calls), tail)
    requires text == Reasoned(explicit, thought, ending) + (sep + turn) && Reasonable(text, lex, explicit, thought, examples, ending)
    requires Think.Newlines(sep) && (turn == "" || turn[0] != '\n') && AllQuiet(leads) && Quiet(tail)
    requires PrintableCalls(calls) && forall i :: 0 <= i < |calls| ==> TextTyped(coerce, calls[i])
    ensures Shows(text, ReportedTags(text, lex), turn) && Thinks(text, ReportedTags(text, lex), thought + Said(ending))
    ensures AllCalls(Pieces(turn, Parser(coerce), 0, [])) == calls
  {
    NewlinesAreQuiet(sep);
    var leads', tail' := Separated(sep, leads, PrintAll(calls), tail);
    CallsAreSilent(text, lex, Reasoned(explicit, thought, ending), leads', calls, tail');
    ReasoningIsRemoved(text, lex, explicit, thought, examples, ending, sep, leads, PrintAll(calls), tail, turn);
    QuietLeadsAreFree(leads);
    QuietMarkersFree(tail);
    PrintedCallsRoundTrip(leads, calls, tail, coerce);
  }

  lemma LeadingJsonCall(leads: seq<string>, calls: seq<JsonCall>, style: Style, tail: string, text: string)
    requires |leads| == |calls| > 0 && text == ToolTurns.Turn(leads, PrintCalls(calls, style), tail) && Blank(leads[0])
    ensures FirstContent(text) == |leads[0]|
  {
    JsonTurnStarts(leads, calls, style, tail);
    var wrapped, rest := ToolTurns.Wrapped(PrintCall(calls[0], style)), ToolTurns.Turn(leads[1..], PrintCalls(calls[1..], style), tail);
    assert text == leads[0] + (wrapped + rest);
    assert (wrapped + rest)[0] == OPEN[0] == '<';
    FirstIs(text, leads[0], wrapped + rest);
  }

  /**
   A completion that consists of JSON calls holds no reasoning either, whatever tags, quotes, brackets or openers the
   strings and keys among its arguments hold.
   */
  lemma JsonCallsStayVisible(text: string, lex: Lexicon, leads: seq<string>, calls: seq<JsonCall>, style: Style, tail: string)
    requires QuotesFit(text, lex) && |leads| == |calls| && text == ToolTurns.Turn(leads, PrintCalls(calls, style), tail)
    requires Stylish(style) && DecodesKeys(lex) && WellFormedCalls(calls) && AllQuiet(leads) && Quiet(tail)
    requires leads != [] ==> Blank(leads[0])
    ensures ReportedTags(text, lex) == [] && Shows(text, ReportedTags(text, lex), text)
  {
    if leads != [] {
      LeadingJsonCall(leads, calls, style, tail, text);
    }
    EmptyConcat(text);
    PassesJsonTurn(text, lex, START, "", leads, calls, style, tail, []);
    NoTagsShowAll(text);
  }

  /** Behind reasoning, a turn of JSON calls is shown as it was printed. */
  lemma {:induction false} JsonCallsSurviveReasoning(text: string, lex: Lexicon, explicit: bool, thought: string,
                                                     examples: seq<(nat, nat)>, ending: Ending, sep: string, leads: seq<string>,
                                                     calls: seq<JsonCall>, style: Style, tail: string, turn: string)
    requires QuotesFit(text, lex) && |leads| == |calls| && turn == ToolTurns.Turn(leads, PrintCalls(calls, style), tail)
    requires text == Reasoned(explicit, thought, ending) + (sep + turn) && Reasonable(text, lex, explicit, thought, examples, ending)
    requires Think.Newlines(sep) && (turn == "" || turn[0] != '\n') && AllQuiet(leads) && Quiet(tail)
    requires Stylish(style) && DecodesKeys(lex) && WellFormedCalls(calls)
    ensures Shows(text, ReportedTags(text, lex), turn) && Thinks(text, ReportedTags(text, lex), thought + Said(ending))
  {
    NewlinesAreQuiet(sep);
    var leads', tail' := Separated(sep, leads, PrintCalls(calls, style), tail);
    JsonCallsAreSilent(text, lex, Reasoned(explicit, thought, ending), leads', calls, style, tail');
    ReasoningIsRemoved(text, lex, explicit, thought, examples, ending, sep, leads, PrintCalls(calls, style), tail, turn);
  }
}
