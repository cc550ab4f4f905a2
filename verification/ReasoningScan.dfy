/**
 The structural scan for reasoning tags (proxyserver/tokenization/base.py, _reasoning_markers): what one token does to
 the scanner, and the loop that reports the tags outside argument values.
 */
module ReasoningScan {
  import opened Wrappers
  import opened Text
  import opened ReasoningTokens

  /** The scanner's scopes; a quoted example restores them at its end. */
  datatype Scope = Scope(inTool: bool, inFunction: bool, jsonDepth: nat, argumentDepth: nat, toolInReasoning: bool)

  const OUTSIDE := Scope(false, false, 0, 0, false)

  datatype State = State(pos: nat, quoteEnd: Option<nat>, quoteDouble: bool, jsonQuote: bool, saved: Scope, scope: Scope,
                         inReasoning: Option<bool>)

  const START := State(0, None, false, false, OUTSIDE, OUTSIDE, None)

  predicate Ready(text: string, st: State) {
    st.pos <= |text| && (st.quoteEnd.Some? ==> st.quoteEnd.value <= |text|)
  }

  function FirstContent(text: string): nat {
    SkipSpace(text, 0, |text|)
  }

  /** Where a token is taken: it lies between the scanner and the limit. */
  predicate Takes(text: string, st: State, token: Token, limit: nat) {
    Ready(text, st) && limit <= |text| && TokenFits(text, st.pos, limit, token)
  }

  /** The state goes on behind the token, still inside the text. */
  predicate GoesOn(text: string, token: Token, st: State) {
    token.end <= st.pos && Ready(text, st)
  }

  // ---- What one token does ---------------------------------------------------------

  /** A closed JSON key: undecodable, not that of the arguments, or with arguments as text or as a nested value. */
  datatype Key = Undecodable | Other | TextArguments(pos: nat) | NestedArguments(pos: nat)

  function KeyAt(text: string, lex: Lexicon, start: nat, pos: nat, limit: nat): (r: Key)
    requires start <= pos <= limit <= |text|
    ensures r.TextArguments? || r.NestedArguments? ==> pos <= r.pos <= limit
  {
    var key := lex.decode(text[start..pos]);
    var argument := ArgumentStart(text, pos, limit);
    if key.None? then Undecodable
    else if !ArgumentsKey(key.value) || argument.None? then Other
    else if text[argument.value - 1] == '"' then TextArguments(argument.value)
    else NestedArguments(argument.value)
  }

  /** In a double-quoted JSON example, a string that JSON does not go on behind ends the example. */
  function BehindString(text: string, lex: Lexicon, st: State, limit: nat): State
    requires st.pos <= limit <= |text|
  {
    if st.jsonQuote && st.pos > 0 && text[st.pos - 1] == '"' && !JsonFollows(text, st.pos, limit, lex)
    then st.(quoteEnd := Some(st.pos)) else st
  }

  /** Where a string inside a JSON object leads, and whether what follows it is looked at. */
  function JsonString(text: string, lex: Lexicon, st: State, token: Token, limit: nat): (r: (State, bool))
    requires Takes(text, st, token, limit)
    ensures GoesOn(text, token, r.0) && r.0.pos <= limit
    ensures r.0 == st.(pos := r.0.pos, scope := r.0.scope)
  {
    if st.scope.argumentDepth > 0 then (st.(pos := JsonStringEnd(text, token.end, limit)), true)
    else
      var (pos, closed) := HeaderEnd(text, token.end, limit);
      var key := if closed && st.scope.jsonDepth == 1 then KeyAt(text, lex, token.start, pos, limit) else Other;
      match key
      case Undecodable => (st.(pos := pos), false)
      case Other => (st.(pos := pos), true)
      case TextArguments(argument) => (st.(pos := JsonStringEnd(text, argument, limit)), true)
      case NestedArguments(argument) =>
        var depth := st.scope.jsonDepth + 1;
        (st.(pos := argument, scope := st.scope.(jsonDepth := depth, argumentDepth := depth)), true)
  }

  /** A quotation mark inside a JSON object: a string of the arguments, or a key or name. */
  function JsonQuote(text: string, lex: Lexicon, st: State, token: Token, limit: nat): (r: State)
    requires Takes(text, st, token, limit)
    ensures GoesOn(text, token, r) && r.inReasoning == st.inReasoning
  {
    var (moved, goesOn) := JsonString(text, lex, st, token, limit);
    if goesOn then BehindString(text, lex, moved, limit) else moved
  }

  /** A tool call's opener, JSON or XML; a leading call is no reasoning. */
  function OpenTool(text: string, st: State, token: Token, limit: nat): (r: State)
    requires Takes(text, st, token, limit)
    ensures GoesOn(text, token, r)
  {
    var inReasoning := if st.inReasoning.None? && token.start == FirstContent(text) then Some(false) else st.inReasoning;
    var json := ObjectStart(text, token.end, limit);
    var scope := Scope(true, false, if json.Some? then 1 else 0, 0, inReasoning != Some(false));
    var tool := st.(pos := token.end, scope := scope, inReasoning := inReasoning);
    if json.None? then tool
    else if st.quoteEnd.Some? && st.quoteDouble then tool.(pos := json.value, quoteEnd := Some(|text|), jsonQuote := true)
    else tool.(pos := json.value)
  }

  function OpenQuote(lex: Lexicon, st: State, token: Token, double: bool): State {
    var end := if token.start in lex.quotes then Some(lex.quotes[token.start]) else None;
    st.(pos := token.end, quoteEnd := end, quoteDouble := double, saved := st.scope)
  }

  /** A quotation mark in prose or XML. */
  function ProseQuote(lex: Lexicon, st: State, token: Token): (r: State)
    requires token.kind.Quote?
    ensures r.inReasoning == st.inReasoning && r.pos == token.end
  {
    if st.jsonQuote && token.kind.double then st.(pos := token.end, quoteEnd := Some(token.end))
    else if st.quoteEnd.None? && token.kind.mayOpen then OpenQuote(lex, st, token, token.kind.double)
    else st.(pos := token.end)
  }

  /** An actual call or a quoted example owns a value through its closing marker; a mention in reasoning may end sooner. */
  function ParameterEnd(text: string, st: State, pos: nat, limit: nat): (r: nat)
    requires pos <= limit <= |text|
    ensures pos <= r <= limit
  {
    if st.scope.toolInReasoning && st.quoteEnd.None? then ReasoningValueEnd(text, pos, limit, 0, None)
    else ValueEnd(text, pos, limit)
  }

  /** An XML header or closer inside a tool call. */
  function XmlMark(text: string, st: State, token: Token, limit: nat): (r: State)
    requires Takes(text, st, token, limit)
    ensures GoesOn(text, token, r) && r.inReasoning == st.inReasoning
  {
    if token.kind.FunctionOpen? then st.(pos := token.end, scope := st.scope.(inFunction := token.kind.named))
    else if token.kind.FunctionClose? then st.(pos := token.end, scope := st.scope.(inFunction := false))
    else if st.scope.inFunction && token.kind.ParameterOpen? && token.kind.named then
      st.(pos := ParameterEnd(text, st, token.end, limit))
    else st.(pos := token.end)
  }

  /** A bracket inside a JSON object; the one that closes the arguments ends their scope. */
  function Bracket(st: State, token: Token): (r: State)
    requires st.scope.jsonDepth > 0
    ensures r.pos == token.end && r.inReasoning == st.inReasoning && r.quoteEnd == st.quoteEnd
  {
    if token.kind.BracketOpen? then st.(pos := token.end, scope := st.scope.(jsonDepth := st.scope.jsonDepth + 1))
    else if token.kind.BracketClose? then
      var depth := st.scope.jsonDepth - 1;
      st.(pos := token.end, scope := st.scope.(jsonDepth := depth,
                                               argumentDepth := if depth < st.scope.argumentDepth then 0 else st.scope.argumentDepth))
    else st.(pos := token.end)
  }

  /** What one token does to the scanner. */
  function Taken(text: string, lex: Lexicon, st: State, token: Token, limit: nat): (r: State)
    requires Takes(text, st, token, limit) && QuotesFit(text, lex)
    ensures GoesOn(text, token, r)
  {
    var kind := token.kind;
    if kind.CodeMark? then
      if st.quoteEnd.None? then OpenQuote(lex, st, token, false) else st.(pos := token.end)
    else if st.scope.jsonDepth != 0 && kind.Quote? && kind.double then JsonQuote(text, lex, st, token, limit)
    else if st.scope.jsonDepth == 0 && kind.Quote? then ProseQuote(lex, st, token)
    else if kind.Reasoning? then
      st.(pos := token.end, scope := OUTSIDE.(toolInReasoning := st.scope.toolInReasoning), quoteEnd := None,
          jsonQuote := false, inReasoning := Some(kind.open))
    else if kind.ToolOpen? then OpenTool(text, st, token, limit)
    else if kind.ToolClose? then st.(pos := token.end, scope := OUTSIDE.(toolInReasoning := st.scope.toolInReasoning))
    else if st.scope.jsonDepth != 0 then Bracket(st, token)
    else if st.scope.inTool then XmlMark(text, st, token, limit)
    else st.(pos := token.end)
  }

  // ---- Rounds -------------------------------------------------------------------------

  datatype Tag = Tag(open: bool, start: nat, end: nat)

  /** One round of the scanner: the state it searched from, up to where, and what it found. */
  datatype Round = Round(state: State, limit: nat, found: Option<Token>)

  /** Restores what a quoted example saved, once its end is reached. */
  function LeaveQuote(st: State): State {
    if st.quoteEnd.Some? && st.pos >= st.quoteEnd.value then st.(scope := st.saved, quoteEnd := None, jsonQuote := false) else st
  }

  function Limit(text: string, st: State): nat {
    if st.quoteEnd.Some? then st.quoteEnd.value else |text|
  }

  predicate Running(text: string, st: State) {
    Ready(text, st) && st.pos < |text|
  }

  predicate RoundFits(text: string, r: Round) {
    && Ready(text, r.state) && r.state.pos < r.limit <= |text|
    && (r.found.Some? ==> TokenFits(text, r.state.pos, r.limit, r.found.value))
  }

  function RoundAt(text: string, lex: Lexicon, st: State): (r: Round)
    requires Running(text, st)
    ensures RoundFits(text, r) && r.state.pos == st.pos
  {
    var here := LeaveQuote(st);
    Round(here, Limit(text, here), NextToken(text, here.pos, Limit(text, here), lex))
  }

  /** The state behind a round: a round that finds nothing goes on at its limit. */
  function Behind(text: string, lex: Lexicon, r: Round): (st: State)
    requires RoundFits(text, r) && QuotesFit(text, lex)
    ensures Ready(text, st) && r.state.pos < st.pos && (r.found.Some? ==> r.found.value.end <= st.pos)
  {
    if r.found.None? then r.state.(pos := r.limit) else Taken(text, lex, r.state, r.found.value, r.limit)
  }

  /** Only an actual reasoning tag is reported. */
  function TagOf(r: Round): seq<Tag> {
    if r.found.Some? && r.found.value.kind.Reasoning? then [Tag(r.found.value.kind.open, r.found.value.start, r.found.value.end)]
    else []
  }

  /** The tags reported from this state on, behind those reported before. */
  function TagsFrom(text: string, lex: Lexicon, st: State, before: seq<Tag>): seq<Tag>
    requires Ready(text, st) && QuotesFit(text, lex)
    decreases |text| - st.pos
  {
    if st.pos == |text| then before
    else
      var r := RoundAt(text, lex, st);
      TagsFrom(text, lex, Behind(text, lex, r), before + TagOf(r))
  }

  function ReportedTags(text: string, lex: Lexicon): seq<Tag>
    requires QuotesFit(text, lex)
  {
    TagsFrom(text, lex, START, [])
  }

  // ---- The tags in order ----------------------------------------------------------------

  predicate TagAt(text: string, t: Tag) {
    At(text, if t.open then THINK else THINK_END, t.start) && t.end == t.start + if t.open then |THINK| else |THINK_END|
  }

  predicate TagsOrdered(text: string, tags: seq<Tag>) {
    && (forall k :: 0 <= k < |tags| ==> TagAt(text, tags[k]))
    && (forall j, k :: 0 <= j < k < |tags| ==> tags[j].end <= tags[k].start)
  }

  /** The tags so far are real, in order, disjoint and behind this position. */
  predicate TagsUpTo(text: string, tags: seq<Tag>, pos: nat) {
    TagsOrdered(text, tags) && forall k :: 0 <= k < |tags| ==> tags[k].end <= pos
  }

  /** The state in which the k-th round starts. */
  function StateBefore(text: string, lex: Lexicon, rounds: seq<Round>, k: nat): (st: State)
    requires QuotesFit(text, lex) && k <= |rounds| && (k > 0 ==> RoundFits(text, rounds[k - 1]))
    ensures Ready(text, st)
  {
    if k == 0 then START else Behind(text, lex, rounds[k - 1])
  }

  /** This round goes on where the one before it ended, in the state that one left. */
  predicate LinkAt(text: string, lex: Lexicon, rounds: seq<Round>, k: nat)
    requires QuotesFit(text, lex) && k < |rounds|
  {
    && RoundFits(text, rounds[k]) && (k > 0 ==> RoundFits(text, rounds[k - 1]))
    && Running(text, StateBefore(text, lex, rounds, k))
    && rounds[k] == RoundAt(text, lex, StateBefore(text, lex, rounds, k))
  }

  predicate Linked(text: string, lex: Lexicon, rounds: seq<Round>)
    requires QuotesFit(text, lex)
  {
    forall k :: 0 <= k < |rounds| ==> LinkAt(text, lex, rounds, k)
  }

  /** The reasoning tags among the tokens found. */
  function TagsFound(rounds: seq<Round>): seq<Tag> {
    if rounds == [] then [] else TagsFound(rounds[..|rounds| - 1]) + TagOf(rounds[|rounds| - 1])
  }

  lemma FindsTag(rounds: seq<Round>, r: Round)
    ensures TagsFound(rounds + [r]) == TagsFound(rounds) + TagOf(r)
  {
    assert (rounds + [r])[..|rounds|] == rounds;
  }

  lemma SameLink(text: string, lex: Lexicon, rounds: seq<Round>, longer: seq<Round>, k: nat)
    requires QuotesFit(text, lex) && k < |rounds| && LinkAt(text, lex, rounds, k)
    requires |longer| > |rounds| && longer[k] == rounds[k] && (k > 0 ==> longer[k - 1] == rounds[k - 1])
    ensures LinkAt(text, lex, longer, k)
  {
    assert StateBefore(text, lex, longer, k) == StateBefore(text, lex, rounds, k);
  }

  /** The rounds lead to this state. */
  predicate LeadTo(text: string, lex: Lexicon, rounds: seq<Round>, st: State)
    requires QuotesFit(text, lex)
  {
    && Linked(text, lex, rounds) && (|rounds| > 0 ==> RoundFits(text, rounds[|rounds| - 1]))
    && st == StateBefore(text, lex, rounds, |rounds|)
  }

  lemma LeadFurther(text: string, lex: Lexicon, rounds: seq<Round>, st: State, r: Round, longer: seq<Round>)
    requires QuotesFit(text, lex) && LeadTo(text, lex, rounds, st) && Running(text, st)
    requires r == RoundAt(text, lex, st) && longer == rounds + [r]
    ensures LeadTo(text, lex, longer, Behind(text, lex, r))
  {
    assert longer[|rounds|] == r && StateBefore(text, lex, longer, |rounds|) == st;
    forall k | 0 <= k < |longer| ensures LinkAt(text, lex, longer, k) {
      if k < |rounds| {
        SameLink(text, lex, rounds, longer, k);
      }
    }
  }

  lemma TagsFurther(text: string, lex: Lexicon, tags: seq<Tag>, r: Round)
    requires QuotesFit(text, lex) && RoundFits(text, r) && TagsUpTo(text, tags, r.state.pos)
    ensures TagsUpTo(text, tags + TagOf(r), Behind(text, lex, r).pos)
  {
  }

  lemma {:induction false} TagsStayOrdered(text: string, lex: Lexicon, st: State, before: seq<Tag>)
    requires Ready(text, st) && QuotesFit(text, lex) && TagsUpTo(text, before, st.pos)
    ensures TagsOrdered(text, TagsFrom(text, lex, st, before))
    decreases |text| - st.pos
  {
    if st.pos < |text| {
      var r := RoundAt(text, lex, st);
      TagsFurther(text, lex, before, r);
      TagsStayOrdered(text, lex, Behind(text, lex, r), before + TagOf(r));
    }
  }

  lemma TagsAreOrdered(text: string, lex: Lexicon)
    requires QuotesFit(text, lex)
    ensures TagsOrdered(text, ReportedTags(text, lex))
  {
    TagsStayOrdered(text, lex, START, []);
  }

  /**
   The loop of the scanner. Its tags are those its rounds found, real, in order and disjoint; each round starts strictly
   behind the one before, in the state that one left, and the last reaches the end of the text.
   */
  method ReasoningTags(text: string, lex: Lexicon) returns (tags: seq<Tag>, ghost rounds: seq<Round>, ghost last: State)
    requires QuotesFit(text, lex)
    ensures LeadTo(text, lex, rounds, last) && last.pos == |text|
    ensures tags == TagsFound(rounds) && TagsOrdered(text, tags)
    ensures tags == ReportedTags(text, lex)
  {
    tags, rounds := [], [];
    var st := START;
    while st.pos < |text|
      invariant Ready(text, st) && LeadTo(text, lex, rounds, st)
      invariant tags == TagsFound(rounds) && TagsUpTo(text, tags, st.pos)
      invariant TagsFrom(text, lex, st, tags) == ReportedTags(text, lex)
      decreases |text| - st.pos
    {
      var round := RoundAt(text, lex, st);
      TagsFurther(text, lex, tags, round);
      FindsTag(rounds, round);
      LeadFurther(text, lex, rounds, st, round, rounds + [round]);
      st, tags, rounds := Behind(text, lex, round), tags + TagOf(round), rounds + [round];
    }
    last := st;
  }
}
