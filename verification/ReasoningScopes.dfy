/**
 What the scanner leaves alone (proxyserver/tokenization/base.py, _reasoning_markers): no reported tag lies inside an
 argument value, and a quoted example bounds every round inside it and restores the scopes at its end.
 */
module ReasoningScopes {
  import opened Wrappers
  import opened Text
  import opened Markup
  import opened ToolBlocks
  import opened ReasoningTokens
  import opened ReasoningScan

  // ---- Argument values ---------------------------------------------------------------

  /** The round found the header of a named parameter in an open function; its value ends here. */
  predicate HeadsParameter(text: string, r: Round, end: nat)
    requires RoundFits(text, r)
  {
    && r.found.Some? && r.found.value.kind == ParameterOpen(true)
    && r.state.scope.inTool && r.state.scope.inFunction && r.state.scope.jsonDepth == 0
    && end == if r.state.scope.toolInReasoning && r.state.quoteEnd.None?
              then ReasoningValueEnd(text, r.found.value.end, r.limit, 0, None)
              else ValueEnd(text, r.found.value.end, r.limit)
  }

  /** The round found a double quote inside a JSON object. */
  predicate FindsJsonQuote(text: string, r: Round)
    requires RoundFits(text, r)
  {
    r.found.Some? && r.found.value.kind.Quote? && r.found.value.kind.double && r.state.scope.jsonDepth > 0
  }

  /** A string among the arguments of a JSON call starts here; this is where it ends. */
  predicate OpensArgument(text: string, r: Round, end: nat)
    requires RoundFits(text, r)
  {
    && FindsJsonQuote(text, r) && r.state.scope.argumentDepth > 0
    && end == JsonStringEnd(text, r.found.value.end, r.limit)
  }

  /** The key of the arguments is read here, and they are one string, which ends here. */
  predicate OpensTextArguments(text: string, lex: Lexicon, r: Round, end: nat)
    requires RoundFits(text, r)
  {
    && FindsJsonQuote(text, r) && r.state.scope.argumentDepth == 0 && r.state.scope.jsonDepth == 1
    && var (pos, closed) := HeaderEnd(text, r.found.value.end, r.limit);
    && closed
    && var key, argument := lex.decode(text[r.found.value.start..pos]), ArgumentStart(text, pos, r.limit);
    && key.Some? && (key.value == "arguments" || key.value == "parameters")
    && argument.Some? && text[argument.value - 1] == '"'
    && end == JsonStringEnd(text, argument.value, r.limit)
  }

  /** What the round found starts an argument value that ends here. */
  predicate StartsValue(text: string, lex: Lexicon, r: Round, end: nat)
    requires RoundFits(text, r)
  {
    HeadsParameter(text, r, end) || OpensArgument(text, r, end) || OpensTextArguments(text, lex, r, end)
  }

  lemma GoesOnBehindValue(text: string, lex: Lexicon, r: Round, end: nat)
    requires QuotesFit(text, lex) && RoundFits(text, r) && StartsValue(text, lex, r, end)
    ensures Behind(text, lex, r).pos == end
  {
  }

  lemma NextRound(text: string, lex: Lexicon, rounds: seq<Round>, j: nat)
    requires QuotesFit(text, lex) && Linked(text, lex, rounds) && j + 1 < |rounds|
    ensures RoundFits(text, rounds[j]) && Behind(text, lex, rounds[j]).pos == rounds[j + 1].state.pos
    ensures rounds[j].state.pos < rounds[j + 1].state.pos
  {
    assert LinkAt(text, lex, rounds, j + 1) && LinkAt(text, lex, rounds, j);
  }

  lemma {:induction false} LaterRound(text: string, lex: Lexicon, rounds: seq<Round>, k: nat, j: nat, next: nat)
    requires QuotesFit(text, lex) && Linked(text, lex, rounds) && k < j < |rounds|
    requires RoundFits(text, rounds[k]) && next == Behind(text, lex, rounds[k]).pos
    ensures next <= rounds[j].state.pos
    decreases j
  {
    var i: nat := j - 1;
    NextRound(text, lex, rounds, i);
    if k < i {
      LaterRound(text, lex, rounds, k, i, next);
    }
  }

  lemma {:induction false} TagHasRound(rounds: seq<Round>, t: Tag) returns (j: nat)
    requires t in TagsFound(rounds)
    ensures j < |rounds| && t in TagOf(rounds[j])
    decreases |rounds|
  {
    j := |rounds| - 1;
    if t !in TagOf(rounds[j]) {
      j := TagHasRound(rounds[..j], t);
    }
  }

  /**
   Whatever the text, no reported tag overlaps an argument value: a named parameter's from its header to where the value
   search puts its end, and a JSON string among the arguments from its opening quote to its closing one.
   */
  lemma {:induction false} NoTagInsideAValue(text: string, lex: Lexicon, rounds: seq<Round>, k: nat, end: nat, t: Tag)
    requires QuotesFit(text, lex) && Linked(text, lex, rounds) && k < |rounds| && RoundFits(text, rounds[k])
    requires StartsValue(text, lex, rounds[k], end) && t in TagsFound(rounds)
    ensures t.end <= rounds[k].found.value.start || end <= t.start
  {
    var j := TagHasRound(rounds, t);
    assert LinkAt(text, lex, rounds, j);
    GoesOnBehindValue(text, lex, rounds[k], end);
    if j < k {
      LaterRound(text, lex, rounds, j, k, Behind(text, lex, rounds[j]).pos);
    } else if k < j {
      LaterRound(text, lex, rounds, k, j, end);
    }
  }

  // ---- Quoted examples ------------------------------------------------------------------

  /** The round opens a quoted example that the table closes here. */
  predicate OpensExample(lex: Lexicon, r: Round, end: nat) {
    && r.state.quoteEnd.None? && r.found.Some?
    && (r.found.value.kind.CodeMark? || (r.found.value.kind.Quote? && r.found.value.kind.mayOpen && r.state.scope.jsonDepth == 0))
    && r.found.value.start in lex.quotes && lex.quotes[r.found.value.start] == end && r.found.value.end <= end
  }

  predicate StraightDouble(r: Round) {
    r.found.Some? && r.found.value.kind.Quote? && r.found.value.kind.double
  }

  /** Inside an example that ends here, with these scopes to restore. */
  predicate Inside(st: State, end: nat, scope: Scope, double: bool) {
    st.quoteEnd == Some(end) && st.pos <= end && !st.jsonQuote && st.saved == scope && st.quoteDouble == double
  }

  /** A round that the example does not outlast: a reasoning tag, or a JSON call between straight double quotes. */
  predicate EndsExample(text: string, r: Round, double: bool)
    requires RoundFits(text, r)
  {
    && r.found.Some?
    && (r.found.value.kind.Reasoning?
        || (double && r.found.value.kind.ToolOpen? && ObjectStart(text, r.found.value.end, r.limit).Some?))
  }

  /** A JSON call's own quotes are only looked at inside a quoted example. */
  predicate QuotedJson(st: State) {
    st.jsonQuote ==> st.quoteEnd.Some?
  }

  lemma RoundKeepsQuotedJson(text: string, lex: Lexicon, r: Round)
    requires QuotesFit(text, lex) && RoundFits(text, r) && QuotedJson(r.state)
    ensures QuotedJson(Behind(text, lex, r))
  {
  }

  lemma KeepsQuotedJson(text: string, lex: Lexicon, st: State)
    requires QuotesFit(text, lex) && Running(text, st) && QuotedJson(st)
    ensures QuotedJson(RoundAt(text, lex, st).state) && QuotedJson(Behind(text, lex, RoundAt(text, lex, st)))
  {
    RoundKeepsQuotedJson(text, lex, RoundAt(text, lex, st));
  }

  lemma {:induction false} RoundsKeepQuotedJson(text: string, lex: Lexicon, rounds: seq<Round>, k: nat)
    requires QuotesFit(text, lex) && Linked(text, lex, rounds) && k < |rounds|
    ensures LinkAt(text, lex, rounds, k) && QuotedJson(StateBefore(text, lex, rounds, k)) && QuotedJson(rounds[k].state)
  {
    assert LinkAt(text, lex, rounds, k);
    if k > 0 {
      RoundsKeepQuotedJson(text, lex, rounds, k - 1);
      KeepsQuotedJson(text, lex, StateBefore(text, lex, rounds, k - 1));
    }
    KeepsQuotedJson(text, lex, StateBefore(text, lex, rounds, k));
  }

  lemma ExampleOpens(text: string, lex: Lexicon, r: Round, end: nat)
    requires QuotesFit(text, lex) && RoundFits(text, r) && OpensExample(lex, r, end) && QuotedJson(r.state)
    ensures Inside(Behind(text, lex, r), end, r.state.scope, StraightDouble(r))
    ensures Behind(text, lex, r) == r.state.(pos := r.found.value.end, quoteEnd := Some(end), quoteDouble := StraightDouble(r),
                                             saved := r.state.scope)
  {
  }

  lemma RoundInside(text: string, lex: Lexicon, r: Round, end: nat, scope: Scope, double: bool)
    requires QuotesFit(text, lex) && RoundFits(text, r) && Inside(r.state, end, scope, double) && r.limit == end
    requires !EndsExample(text, r, double)
    ensures Inside(Behind(text, lex, r), end, scope, double)
  {
  }

  lemma StaysInside(text: string, lex: Lexicon, st: State, end: nat, scope: Scope, double: bool)
    requires QuotesFit(text, lex) && Running(text, st) && Inside(st, end, scope, double) && st.pos < end <= |text|
    requires !EndsExample(text, RoundAt(text, lex, st), double)
    ensures RoundAt(text, lex, st).limit == end && RoundAt(text, lex, st).state == st
    ensures Inside(Behind(text, lex, RoundAt(text, lex, st)), end, scope, double)
  {
    RoundInside(text, lex, RoundAt(text, lex, st), end, scope, double);
  }

  /** When this round starts, the scanner is inside the example. */
  predicate InsideAt(text: string, lex: Lexicon, rounds: seq<Round>, k: nat, end: nat, scope: Scope, double: bool)
    requires QuotesFit(text, lex) && k < |rounds|
  {
    LinkAt(text, lex, rounds, k) && Inside(StateBefore(text, lex, rounds, k), end, scope, double)
  }

  lemma InsideFirst(text: string, lex: Lexicon, rounds: seq<Round>, o: nat, k: nat, end: nat, scope: Scope, double: bool)
    requires QuotesFit(text, lex) && Linked(text, lex, rounds) && k == o + 1 < |rounds|
    requires OpensExample(lex, rounds[o], end) && double == StraightDouble(rounds[o]) && scope == rounds[o].state.scope
    ensures InsideAt(text, lex, rounds, k, end, scope, double)
  {
    RoundsKeepQuotedJson(text, lex, rounds, o);
    assert LinkAt(text, lex, rounds, o) && LinkAt(text, lex, rounds, k);
    ExampleOpens(text, lex, rounds[o], end);
  }

  /** This round starts before the example's end and does not end it early. */
  predicate LastsAt(text: string, r: Round, end: nat, double: bool) {
    RoundFits(text, r) && r.state.pos < end && !EndsExample(text, r, double)
  }

  /** Every round from the opener on starts before the example's end and does not end it early. */
  predicate ExampleLasts(text: string, rounds: seq<Round>, o: nat, k: nat, end: nat, double: bool)
    requires k <= |rounds|
  {
    forall j :: o < j < k ==> LastsAt(text, rounds[j], end, double)
  }

  lemma InsideNext(text: string, lex: Lexicon, rounds: seq<Round>, j: nat, k: nat, end: nat, scope: Scope, double: bool)
    requires QuotesFit(text, lex) && Linked(text, lex, rounds) && k == j + 1 < |rounds|
    requires InsideAt(text, lex, rounds, j, end, scope, double) && LastsAt(text, rounds[j], end, double) && end <= |text|
    ensures InsideAt(text, lex, rounds, k, end, scope, double)
  {
    assert LinkAt(text, lex, rounds, k);
    StaysInside(text, lex, StateBefore(text, lex, rounds, j), end, scope, double);
  }

  lemma {:induction false} ExampleStaysOpen(text: string, lex: Lexicon, rounds: seq<Round>, o: nat, k: nat, end: nat, scope: Scope,
                                            double: bool)
    requires QuotesFit(text, lex) && Linked(text, lex, rounds) && o < k < |rounds| && end <= |text|
    requires OpensExample(lex, rounds[o], end) && double == StraightDouble(rounds[o]) && scope == rounds[o].state.scope
    requires ExampleLasts(text, rounds, o, k, end, double)
    ensures InsideAt(text, lex, rounds, k, end, scope, double)
    decreases k
  {
    var j: nat := k - 1;
    if o == j {
      InsideFirst(text, lex, rounds, o, k, end, scope, double);
    } else {
      assert ExampleLasts(text, rounds, o, j, end, double) && LastsAt(text, rounds[j], end, double);
      ExampleStaysOpen(text, lex, rounds, o, j, end, scope, double);
      InsideNext(text, lex, rounds, j, k, end, scope, double);
    }
  }

  /**
   As long as a quoted example lasts, every round's limit is the example's end, whatever headers or brackets it holds;
   the scanner reaches exactly that end, and there the scopes are again those in which the example was opened.
   */
  lemma {:induction false} ExampleBoundsItsRounds(text: string, lex: Lexicon, rounds: seq<Round>, o: nat, k: nat, end: nat)
    requires QuotesFit(text, lex) && Linked(text, lex, rounds) && o < k < |rounds|
    requires OpensExample(lex, rounds[o], end) && ExampleLasts(text, rounds, o, k, end, StraightDouble(rounds[o]))
    ensures rounds[k].state.pos <= end
    ensures rounds[k].state.pos < end ==> rounds[k].limit == end
    ensures rounds[k].state.pos == end ==>
              rounds[k].limit == |text| && rounds[k].state.scope == rounds[o].state.scope && rounds[k].state.quoteEnd.None?
  {
    ExampleStaysOpen(text, lex, rounds, o, k, end, rounds[o].state.scope, StraightDouble(rounds[o]));
  }

  // ---- What ends an example early ----------------------------------------------------------

  /** An actual reasoning tag ends every quoted example and every call mentioned so far. */
  lemma TagEndsEverything(text: string, lex: Lexicon, rounds: seq<Round>, k: nat)
    requires QuotesFit(text, lex) && Linked(text, lex, rounds) && k + 1 < |rounds| && TagOf(rounds[k]) != []
    ensures rounds[k + 1].limit == |text| && rounds[k + 1].state.quoteEnd.None?
    ensures var scope := rounds[k + 1].state.scope;
            !scope.inTool && !scope.inFunction && scope.jsonDepth == 0 && scope.argumentDepth == 0
  {
    assert LinkAt(text, lex, rounds, k) && LinkAt(text, lex, rounds, k + 1);
  }

  /** A JSON call starts inside an example between straight double quotes. */
  predicate StartsQuotedJson(text: string, r: Round)
    requires RoundFits(text, r)
  {
    && r.found.Some? && r.found.value.kind.ToolOpen? && ObjectStart(text, r.found.value.end, r.limit).Some?
    && r.state.quoteEnd.Some? && r.state.quoteDouble
  }

  /** Then the quotes of JSON itself do not end the example: the scanner may go on to the end of the text. */
  lemma QuotedJsonOwnsItsQuotes(text: string, lex: Lexicon, rounds: seq<Round>, k: nat)
    requires QuotesFit(text, lex) && Linked(text, lex, rounds) && k + 1 < |rounds| && RoundFits(text, rounds[k])
    requires StartsQuotedJson(text, rounds[k])
    ensures rounds[k + 1].limit == |text| && rounds[k + 1].state.jsonQuote
    ensures rounds[k + 1].state.saved == rounds[k].state.saved
  {
    assert LinkAt(text, lex, rounds, k) && LinkAt(text, lex, rounds, k + 1);
  }

  /** The round leaves the scanner behind a double quote that JSON does not own. */
  predicate LeavesJson(text: string, lex: Lexicon, r: Round, next: nat)
    requires RoundFits(text, r)
  {
    && r.found.Some? && r.found.value.kind.Quote? && r.found.value.kind.double && 0 < next <= r.limit
    && (r.state.scope.jsonDepth == 0
        || (text[next - 1] == '"' && !JsonFollows(text, next, r.limit, lex) && !BadKey(text, lex, r)))
  }

  /** A key that closes but does not decode; the scanner goes on behind it without looking at what follows. */
  predicate BadKey(text: string, lex: Lexicon, r: Round)
    requires RoundFits(text, r)
  {
    && FindsJsonQuote(text, r) && r.state.scope.argumentDepth == 0 && r.state.scope.jsonDepth == 1
    && var (pos, closed) := HeaderEnd(text, r.found.value.end, r.limit);
    closed && lex.decode(text[r.found.value.start..pos]).None?
  }

  /** Inside a quoted JSON call. */
  predicate InQuotedJson(text: string, r: Round) {
    RoundFits(text, r) && r.state.jsonQuote && r.state.quoteEnd == Some(|text|) && r.limit == |text|
  }

  lemma BadKeyStops(text: string, lex: Lexicon, r: Round)
    requires QuotesFit(text, lex) && FindsJsonQuoteIn(text, r)
    ensures JsonString(text, lex, r.state, r.found.value, r.limit).1 <==> !BadKey(text, lex, r)
  {
  }

  predicate FindsJsonQuoteIn(text: string, r: Round) {
    RoundFits(text, r) && FindsJsonQuote(text, r)
  }

  lemma JsonQuoteEnds(text: string, lex: Lexicon, r: Round, next: State)
    requires QuotesFit(text, lex) && InQuotedJson(text, r) && FindsJsonQuoteIn(text, r)
    requires next == JsonQuote(text, lex, r.state, r.found.value, r.limit) && next.pos < |text|
    ensures if LeavesJson(text, lex, r, next.pos) then next.quoteEnd == Some(next.pos) else next.quoteEnd == Some(|text|)
    ensures next.saved == r.state.saved && next.jsonQuote
  {
    BadKeyStops(text, lex, r);
  }

  lemma OtherTokenStays(text: string, lex: Lexicon, r: Round, next: State)
    requires QuotesFit(text, lex) && InQuotedJson(text, r) && TagOf(r) == [] && !FindsJsonQuote(text, r)
    requires !StraightDouble(r) && next == Behind(text, lex, r) && next.pos < |text|
    ensures next.quoteEnd == Some(|text|) && next.saved == r.state.saved && next.jsonQuote
  {
  }

  /** What the round leaves: the example is over behind a double quote that JSON does not own, and only there. */
  lemma QuotedJsonEnds(text: string, lex: Lexicon, r: Round, next: State)
    requires QuotesFit(text, lex) && InQuotedJson(text, r) && TagOf(r) == []
    requires next == Behind(text, lex, r) && next.pos < |text|
    ensures if LeavesJson(text, lex, r, next.pos) then next.quoteEnd == Some(next.pos) else next.quoteEnd == Some(|text|)
    ensures next.saved == r.state.saved && next.jsonQuote
  {
    if FindsJsonQuote(text, r) {
      JsonQuoteEnds(text, lex, r, next);
    } else if !StraightDouble(r) {
      OtherTokenStays(text, lex, r, next);
    }
  }

  /**
   A quoted JSON example ends exactly behind a double quote outside the object, or behind a string that JSON does not go
   on behind; there the scopes in which the example was opened are restored.
   */
  lemma QuotedJsonEndsExactly(text: string, lex: Lexicon, rounds: seq<Round>, k: nat)
    requires QuotesFit(text, lex) && Linked(text, lex, rounds) && k + 1 < |rounds| && RoundFits(text, rounds[k])
    requires rounds[k].state.jsonQuote && rounds[k].state.quoteEnd == Some(|text|) && TagOf(rounds[k]) == []
    ensures LeavesJson(text, lex, rounds[k], rounds[k + 1].state.pos) <==> rounds[k + 1].state.quoteEnd.None?
    ensures rounds[k + 1].state.quoteEnd.None? ==> rounds[k + 1].state.scope == rounds[k].state.saved
    ensures rounds[k + 1].state.quoteEnd.Some? ==> rounds[k + 1].state.jsonQuote && rounds[k + 1].state.saved == rounds[k].state.saved
  {
    assert LinkAt(text, lex, rounds, k) && LinkAt(text, lex, rounds, k + 1);
    QuotedJsonEnds(text, lex, rounds[k], StateBefore(text, lex, rounds, k + 1));
  }

  // ---- An example hides its own headers ----------------------------------------------------

  /** No actual reasoning tag lies between these positions. */
  predicate NoTagBetween(text: string, from: nat, end: nat) {
    forall i :: from <= i < end ==> !ReasoningTagAt(text, i, end)
  }

  lemma SkipsSpaceUpTo(text: string, p: nat)
    requires p < |text| && !IsSpace(text[p])
    ensures FirstContent(text) <= p
  {
  }

  lemma StructuralIsNoSpace(c: char)
    requires Structural(c)
    ensures !IsSpace(c)
  {
  }

  /** No JSON call starts between these positions. */
  predicate NoJsonCall(text: string, from: nat, end: nat) {
    forall i: nat :: from <= i < end <= |text| && Within(text, OPEN, i, end) ==> ObjectStart(text, i + |OPEN|, end).None?
  }

  predicate Hides(text: string, from: nat, end: nat, double: bool) {
    NoTagBetween(text, from, end) && (double ==> NoJsonCall(text, from, end))
  }

  lemma NothingEndsIt(text: string, r: Round, end: nat, double: bool)
    requires RoundFits(text, r) && r.limit == end <= |text| && Hides(text, r.state.pos, end, double)
    ensures !EndsExample(text, r, double) && TagOf(r) == []
  {
    if r.found.Some? {
      var token := r.found.value;
      assert TokenFits(text, r.state.pos, end, token);
      assert token.kind.Reasoning? ==> ReasoningTagAt(text, token.start, end);
      assert token.kind.ToolOpen? ==> Within(text, OPEN, token.start, end);
    }
  }

  /** Behind the first visible character, only a reasoning tag changes whether reasoning is on. */
  lemma KeepsReasoning(text: string, lex: Lexicon, r: Round)
    requires QuotesFit(text, lex) && RoundFits(text, r) && TagOf(r) == [] && FirstContent(text) < r.state.pos
    ensures Behind(text, lex, r).inReasoning == r.state.inReasoning
  {
    if r.found.Some? {
      KeepsReasoningOver(text, lex, r.state, r.found.value, r.limit);
    }
  }

  lemma KeepsReasoningOver(text: string, lex: Lexicon, st: State, token: Token, limit: nat)
    requires QuotesFit(text, lex) && Takes(text, st, token, limit) && !token.kind.Reasoning? && FirstContent(text) < token.start
    ensures Taken(text, lex, st, token, limit).inReasoning == st.inReasoning
  {
  }

  /** The scanner outside any example, with these scopes. */
  function Outside(end: nat, scope: Scope, double: bool, inReasoning: Option<bool>): State {
    State(end, None, double, false, scope, scope, inReasoning)
  }

  lemma LeavesAtEnd(text: string, lex: Lexicon, st: State, end: nat, scope: Scope, double: bool, before: seq<Tag>)
    requires QuotesFit(text, lex) && Inside(st, end, scope, double) && st.pos == end <= |text|
    ensures TagsFrom(text, lex, st, before) == TagsFrom(text, lex, Outside(end, scope, double, st.inReasoning), before)
  {
    assert LeaveQuote(st) == Outside(end, scope, double, st.inReasoning) == LeaveQuote(Outside(end, scope, double, st.inReasoning));
  }

  lemma {:induction false} RunsToTheEnd(text: string, lex: Lexicon, st: State, end: nat, scope: Scope, double: bool, before: seq<Tag>)
    requires QuotesFit(text, lex) && Ready(text, st) && Inside(st, end, scope, double) && end <= |text|
    requires Hides(text, st.pos, end, double) && FirstContent(text) < st.pos
    ensures TagsFrom(text, lex, st, before) == TagsFrom(text, lex, Outside(end, scope, double, st.inReasoning), before)
    decreases end - st.pos
  {
    if st.pos == end {
      LeavesAtEnd(text, lex, st, end, scope, double, before);
    } else {
      NothingEndsIt(text, RoundAt(text, lex, st), end, double);
      KeepsReasoning(text, lex, RoundAt(text, lex, st));
      StaysInside(text, lex, st, end, scope, double);
      var next := Behind(text, lex, RoundAt(text, lex, st));
      EmptyConcat(before);
      RunsToTheEnd(text, lex, next, end, scope, double, before);
    }
  }

  /**
   A closed example is passed as if it were not there, whatever tool calls, headers, brackets or nested quotes it holds:
   behind it the scanner reports what it would report from there on in the scopes in which the example was opened. Only
   actual reasoning tags show through, and a JSON call between straight double quotes, which JSON's own quotes end.
   */
  lemma ExampleIsTransparent(text: string, lex: Lexicon, st: State, end: nat, double: bool, before: seq<Tag>)
    requires QuotesFit(text, lex) && Running(text, st) && st.quoteEnd.None? && !st.jsonQuote
    requires OpensExample(lex, RoundAt(text, lex, st), end) && double == StraightDouble(RoundAt(text, lex, st))
    requires Structural(text[RoundAt(text, lex, st).found.value.start])
    requires Hides(text, RoundAt(text, lex, st).found.value.end, end, double)
    ensures end <= |text|
    ensures TagsFrom(text, lex, st, before) == TagsFrom(text, lex, Outside(end, st.scope, double, st.inReasoning), before)
  {
    var r := RoundAt(text, lex, st);
    ExampleOpens(text, lex, r, end);
    StructuralIsNoSpace(text[r.found.value.start]);
    SkipsSpaceUpTo(text, r.found.value.start);
    var inside := Behind(text, lex, r);
    EmptyConcat(before);
    RunsToTheEnd(text, lex, inside, end, st.scope, double, before);
  }
}
