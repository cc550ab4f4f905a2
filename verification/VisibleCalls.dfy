/**
 Printed tool calls and the reasoning scanner (proxyserver/tokenization/base.py): whatever reasoning tags, quotes or
 openers the values of actual calls hold, the scanner reports none of them, and stripping leaves the calls as printed.
 */
module VisibleCalls {
  import opened Wrappers
  import opened Text
  import opened Markup
  import opened ToolBlocks
  import opened QwenCalls
  import opened ReasoningTokens
  import opened ReasoningMarks
  import opened ReasoningScan
  import ToolTurns
  import Think

  /** Outside any quoted example. */
  predicate Calm(text: string, lex: Lexicon, st: State) {
    QuotesFit(text, lex) && Ready(text, st) && st.quoteEnd.None? && !st.jsonQuote
  }

  /** From either state on, the same tags are reported. */
  predicate SameTags(text: string, lex: Lexicon, st: State, st': State, before: seq<Tag>)
    requires QuotesFit(text, lex) && Ready(text, st) && Ready(text, st')
  {
    TagsFrom(text, lex, st, before) == TagsFrom(text, lex, st', before)
  }

  /** Behind quiet text, this token is next. */
  predicate IsNext(text: string, lex: Lexicon, pos: nat, token: Token) {
    && pos <= token.start < |text| && Quiet(text[pos..token.start])
    && TokenAt(text, token.start, |text|, lex) == Some(token)
  }

  /** A token that is no reasoning tag reports nothing. */
  lemma PassesToken(text: string, lex: Lexicon, st: State, token: Token, before: seq<Tag>)
    requires Calm(text, lex, st) && IsNext(text, lex, st.pos, token) && !token.kind.Reasoning?
    ensures Takes(text, st, token, |text|)
    ensures SameTags(text, lex, st, Taken(text, lex, st, token, |text|), before)
  {
    TokenIsNext(text, st.pos, token.start, |text|, lex, token);
    assert RoundAt(text, lex, st) == Round(st, |text|, Some(token));
    EmptyConcat(before);
  }

  lemma NothingLeft(text: string, lex: Lexicon, st: State, before: seq<Tag>)
    requires Calm(text, lex, st) && Quiet(text[st.pos..])
    ensures TagsFrom(text, lex, st, before) == before
  {
    if st.pos < |text| {
      assert text[st.pos..|text|] == text[st.pos..];
      NoTokenIsNext(text, st.pos, |text|, lex);
      EmptyConcat(before);
      assert RoundAt(text, lex, st) == Round(st, |text|, None);
    }
  }

  // ---- An actual call, mark by mark --------------------------------------------------------

  const IN_TOOL := Scope(true, false, 0, 0, false)
  const IN_FUNCTION := Scope(true, true, 0, 0, false)

  /** At this position of an actual call. */
  predicate InCall(text: string, lex: Lexicon, st: State, pos: nat, scope: Scope) {
    Calm(text, lex, st) && st.pos == pos && st.scope == scope && st.inReasoning == Some(false)
  }

  lemma SliceOf(text: string, u: string, w: string, rest: string)
    requires text == u + w + rest
    ensures text[|u|..|u| + |w|] == w && text[|u| + |w|..] == rest
  {
  }

  lemma MarkerAt(text: string, u: string, marker: string, rest: string)
    requires text == u + marker + rest
    ensures At(text, marker, |u|)
  {
    SliceOf(text, u, marker, rest);
  }

  lemma NoObject(text: string, pos: nat)
    requires pos + 1 < |text| && text[pos] == '\n' && text[pos + 1] == '<'
    ensures ObjectStart(text, pos, |text|) == None
  {
    assert SkipSpace(text, pos + 1, |text|) == pos + 1;
  }

  /** The call is actual when reasoning is over, or when nothing but whitespace comes before it. */
  predicate Actual(text: string, st: State, at: nat) {
    st.inReasoning == Some(false) || (st.inReasoning == None && at == FirstContent(text))
  }

  lemma {:induction false} MarkerIsNext(text: string, lex: Lexicon, u: string, lead: string, marker: string, rest: string)
    returns (token: Token)
    requires KindOf(marker).Some? && Quiet(lead) && text == u + lead + marker + rest
    ensures token == Token(|u| + |lead|, |u| + |lead| + |marker|, KindOf(marker).value) && IsNext(text, lex, |u|, token)
  {
    MarkerAt(text, u + lead, marker, rest);
    MarkerIsToken(text, marker, |u| + |lead|, lex);
    assert text == u + lead + (marker + rest);
    SliceOf(text, u, lead, marker + rest);
    token := Token(|u| + |lead|, |u| + |lead| + |marker|, KindOf(marker).value);
  }

  lemma {:induction false} TakesOpener(text: string, lex: Lexicon, st: State, token: Token, before: seq<Tag>)
    returns (st': State)
    requires Calm(text, lex, st) && IsNext(text, lex, st.pos, token) && token.kind == ToolOpen && Actual(text, st, token.start)
    requires token.end <= |text| && ObjectStart(text, token.end, |text|) == None
    ensures InCall(text, lex, st', token.end, IN_TOOL) && SameTags(text, lex, st, st', before)
  {
    PassesToken(text, lex, st, token, before);
    st' := Taken(text, lex, st, token, |text|);
  }

  lemma NoObjectBehind(text: string, head: string, rest: string)
    requires text == head + ("\n" + rest) && rest != "" && rest[0] == '<'
    ensures ObjectStart(text, |head|, |text|) == None
  {
    assert text[|head|..] == "\n" + rest;
    assert text[|head|] == text[|head|..][0] && text[|head| + 1] == text[|head|..][1];
    NoObject(text, |head|);
  }

  lemma {:induction false} OpensCall(text: string, lex: Lexicon, st: State, u: string, lead: string, rest: string,
                                     before: seq<Tag>)
    returns (st': State)
    requires Calm(text, lex, st) && st.pos == |u| && text == u + lead + OPEN + ("\n" + rest) && Quiet(lead)
    requires rest != "" && rest[0] == '<' && Actual(text, st, |u| + |lead|)
    ensures InCall(text, lex, st', |u| + |lead| + |OPEN|, IN_TOOL) && SameTags(text, lex, st, st', before)
  {
    var token := MarkerIsNext(text, lex, u, lead, OPEN, "\n" + rest);
    NoObjectBehind(text, u + lead + OPEN, rest);
    st' := TakesOpener(text, lex, st, token, before);
  }

  lemma {:induction false} HeaderText(text: string, u: string, lead: string, marker: string, name: string, gt: string,
                                      rest: string)
    returns (head: string)
    requires text == u + lead + marker + name + gt + rest
    ensures text == head + marker + name + gt + rest && |head| == |u| + |lead| && text[|u|..|head|] == lead
  {
    head := u + lead;
    assert text[..|head|] == head;
  }

  lemma StandsNext(text: string, lex: Lexicon, pos: nat, lead: string, token: Token)
    requires Quiet(lead) && pos <= token.start < |text| && text[pos..token.start] == lead
    requires TokenAt(text, token.start, |text|, lex) == Some(token)
    ensures IsNext(text, lex, pos, token)
  {
  }

  lemma {:induction false} FunctionIsNext(text: string, lex: Lexicon, u: string, lead: string, name: string, rest: string)
    returns (token: Token)
    requires Clean(name) && Quiet(lead) && text == u + lead + FUNCTION + name + ">" + rest
    ensures token == Token(|u| + |lead|, |u| + |lead| + |FUNCTION| + |name| + 1, FunctionOpen(true)) && IsNext(text, lex, |u|, token)
  {
    var head := HeaderText(text, u, lead, FUNCTION, name, ">", rest);
    token := Token(|head|, |head| + |FUNCTION| + |name| + 1, FunctionOpen(true));
    FunctionIsToken(text, head, name, rest, |head|, lex);
    StandsNext(text, lex, |u|, lead, token);
  }

  lemma {:induction false} OpensFunction(text: string, lex: Lexicon, st: State, u: string, name: string, rest: string,
                                         before: seq<Tag>)
    returns (st': State)
    requires Clean(name) && text == u + "\n" + FUNCTION + name + ">" + rest && InCall(text, lex, st, |u|, IN_TOOL)
    ensures InCall(text, lex, st', |u| + 1 + |FUNCTION| + |name| + 1, IN_FUNCTION) && SameTags(text, lex, st, st', before)
  {
    BlankIsQuiet("\n");
    var token := FunctionIsNext(text, lex, u, "\n", name, rest);
    PassesToken(text, lex, st, token, before);
    st' := Taken(text, lex, st, token, |text|);
  }

  lemma {:induction false} ParameterIsNext(text: string, lex: Lexicon, u: string, lead: string, key: string, rest: string)
    returns (token: Token)
    requires Clean(key) && Quiet(lead) && text == u + lead + PARAMETER + key + ">" + rest
    ensures token == Token(|u| + |lead|, |u| + |lead| + |PARAMETER| + |key| + 1, ParameterOpen(true)) && IsNext(text, lex, |u|, token)
  {
    var head := HeaderText(text, u, lead, PARAMETER, key, ">", rest);
    token := Token(|head|, |head| + |PARAMETER| + |key| + 1, ParameterOpen(true));
    ParameterIsToken(text, head, key, rest, |head|, lex);
    StandsNext(text, lex, |u|, lead, token);
  }

  lemma {:induction false} TakesHeader(text: string, lex: Lexicon, st: State, token: Token, end: nat, before: seq<Tag>)
    returns (st': State)
    requires InCall(text, lex, st, st.pos, IN_FUNCTION) && IsNext(text, lex, st.pos, token) && token.kind == ParameterOpen(true)
    requires token.end <= |text| && ValueEnd(text, token.end, |text|) == end
    ensures InCall(text, lex, st', end, IN_FUNCTION) && SameTags(text, lex, st, st', before)
  {
    PassesToken(text, lex, st, token, before);
    st' := Taken(text, lex, st, token, |text|);
  }

  /** The scanner goes on where the value ends. */
  lemma {:induction false} OpensParameter(text: string, lex: Lexicon, st: State, u: string, key: string, value: string,
                                          rest: string, before: seq<Tag>)
    returns (st': State)
    requires Clean(key) && ClosersFree(value) && InCall(text, lex, st, |u|, IN_FUNCTION)
    requires text == u + "\n" + PARAMETER + key + ">" + (value + rest)
    requires rest == "" || At(text, PARAMETER_END, |u| + 1 + |PARAMETER| + |key| + 1 + |value|)
    ensures InCall(text, lex, st', |u| + 1 + |PARAMETER| + |key| + 1 + |value|, IN_FUNCTION) && SameTags(text, lex, st, st', before)
  {
    BlankIsQuiet("\n");
    var token := ParameterIsNext(text, lex, u, "\n", key, value + rest);
    var head := u + "\n" + PARAMETER + key + ">";
    assert text == head + value + rest;
    ValueIsRead(text, head, value, rest, |head| + |value|);
    st' := TakesHeader(text, lex, st, token, |head| + |value|, before);
  }

  function BehindMarker(kind: Kind, scope: Scope): Scope {
    if kind.FunctionClose? then IN_TOOL else if kind.ToolClose? then OUTSIDE else scope
  }

  predicate ClosingKind(kind: Kind) {
    kind.OtherMark? || kind.FunctionClose? || kind.ToolClose?
  }

  lemma {:induction false} TakesCloser(text: string, lex: Lexicon, st: State, token: Token, scope: Scope, before: seq<Tag>)
    returns (st': State)
    requires ClosingKind(token.kind) && IsNext(text, lex, st.pos, token) && InCall(text, lex, st, st.pos, scope)
    requires scope == IN_TOOL || scope == IN_FUNCTION
    ensures InCall(text, lex, st', token.end, BehindMarker(token.kind, scope)) && SameTags(text, lex, st, st', before)
  {
    PassesToken(text, lex, st, token, before);
    st' := Taken(text, lex, st, token, |text|);
  }

  lemma {:induction false} PassesCloser(text: string, lex: Lexicon, st: State, u: string, lead: string, marker: string,
                                        rest: string, kind: Kind, scope: Scope, before: seq<Tag>)
    returns (st': State)
    requires KindOf(marker) == Some(kind) && ClosingKind(kind) && Quiet(lead)
    requires text == u + lead + marker + rest && InCall(text, lex, st, |u|, scope)
    requires scope == IN_TOOL || scope == IN_FUNCTION
    ensures InCall(text, lex, st', |u| + |lead| + |marker|, BehindMarker(kind, scope)) && SameTags(text, lex, st, st', before)
  {
    var token := MarkerIsNext(text, lex, u, lead, marker, rest);
    st' := TakesCloser(text, lex, st, token, scope, before);
  }

  // ---- Whole calls and turns -----------------------------------------------------------------

  lemma PaddedFree(value: string)
    requires ClosersFree(value)
    ensures ClosersFree("\n" + value + "\n")
  {
    QwenCalls.Tags();
    ValueFree(value, PARAMETER_END);
    ValueFree(value, FUNCTION_END);
    ValueFree(value, CLOSE);
  }

  lemma ParameterText(text: string, u: string, key: string, value: string, rest: string, head: string, padded: string)
    requires text == u + ("\n" + PrintParameter(key, value) + rest)
    requires padded == "\n" + value + "\n" && head == u + "\n" + PARAMETER + key + ">"
    ensures text == u + "\n" + PARAMETER + key + ">" + (padded + (PARAMETER_END + rest))
    ensures text == (head + padded) + PARAMETER_END + rest && text == (head + padded) + "" + PARAMETER_END + rest
    ensures |head + padded| == |u| + 1 + |PARAMETER| + |key| + 1 + |padded|
  {
  }

  lemma {:induction false} PassesParameter(text: string, lex: Lexicon, st: State, u: string, key: string, value: string,
                                           rest: string, before: seq<Tag>)
    returns (u': string, st': State)
    requires Clean(key) && ClosersFree(value) && InCall(text, lex, st, |u|, IN_FUNCTION)
    requires text == u + ("\n" + PrintParameter(key, value) + rest)
    ensures text == u' + rest && InCall(text, lex, st', |u'|, IN_FUNCTION) && SameTags(text, lex, st, st', before)
  {
    PaddedFree(value);
    var padded, head := "\n" + value + "\n", u + "\n" + PARAMETER + key + ">";
    ParameterText(text, u, key, value, rest, head, padded);
    MarkerAt(text, head + padded, PARAMETER_END, rest);
    var inside := OpensParameter(text, lex, st, u, key, padded, PARAMETER_END + rest, before);
    st' := PassesCloser(text, lex, inside, head + padded, "", PARAMETER_END, rest, OtherMark, IN_FUNCTION, before);
    u' := head + padded + PARAMETER_END;
  }

  ghost predicate Passable(call: Call) {
    && Clean(call.name)
    && forall i :: 0 <= i < |call.arguments| ==> Clean(call.arguments[i].0) && ClosersFree(call.arguments[i].1)
  }

  lemma FirstPart(text: string, u: string, nl: string, first: string, more: string, rest: string)
    requires text == u + (nl + (first + nl + more) + rest)
    ensures text == u + (nl + first + (nl + more + rest))
  {
  }

  lemma ParametersText(text: string, u: string, arguments: seq<(string, string)>, rest: string, first: string, others: string)
    requires arguments != [] && text == u + ("\n" + PrintParameters(arguments) + rest)
    requires first == PrintParameter(arguments[0].0, arguments[0].1) && others == "\n" + PrintParameters(arguments[1..]) + rest
    ensures text == u + ("\n" + first + others)
  {
    FirstPart(text, u, "\n", first, PrintParameters(arguments[1..]), rest);
  }

  lemma {:induction false} PassesParameters(text: string, lex: Lexicon, st: State, u: string, arguments: seq<(string, string)>, rest: string,
                                            before: seq<Tag>)
    returns (u': string, st': State)
    requires forall i :: 0 <= i < |arguments| ==> Clean(arguments[i].0) && ClosersFree(arguments[i].1)
    requires InCall(text, lex, st, |u|, IN_FUNCTION) && text == u + ("\n" + PrintParameters(arguments) + rest)
    ensures text == u' + ("\n" + rest) && InCall(text, lex, st', |u'|, IN_FUNCTION) && SameTags(text, lex, st, st', before)
    decreases |arguments|
  {
    if arguments == [] {
      u', st' := u, st;
    } else {
      var first, others := PrintParameter(arguments[0].0, arguments[0].1), "\n" + PrintParameters(arguments[1..]) + rest;
      ParametersText(text, u, arguments, rest, first, others);
      var w, next := PassesParameter(text, lex, st, u, arguments[0].0, arguments[0].1, others, before);
      u', st' := PassesParameters(text, lex, next, w, arguments[1..], rest, before);
    }
  }

  lemma CallParts(text: string, u: string, lead: string, open: string, inner: string, close: string, rest: string)
    requires text == u + (lead + (open + inner + close) + rest)
    ensures text == u + lead + open + (inner + (close + rest))
  {
  }

  lemma InnerParts(nl: string, function_: string, name: string, gt: string, parameters: string, end: string, closing: string)
    ensures (nl + (function_ + name + gt + nl + parameters + end) + nl) + closing
         == nl + (function_ + name + gt + (nl + parameters + (end + (nl + closing))))
  {
  }

  lemma HeadParts(text: string, head: string, nl: string, function_: string, name: string, gt: string, body: string)
    requires text == head + (nl + (function_ + name + gt + body))
    ensures text == head + nl + function_ + name + gt + body && text == (head + nl + function_ + name + gt) + body
    ensures |head + nl + function_ + name + gt| == |head| + |nl| + |function_| + |name| + |gt|
  {
  }

  lemma CallText(text: string, u: string, lead: string, call: Call, rest: string, body: string, ending: string)
    requires text == u + (lead + ToolTurns.Wrapped(PrintInner(call)) + rest)
    requires ending == FUNCTION_END + ("\n" + CLOSE + rest) && body == "\n" + PrintParameters(call.arguments) + ending
    ensures text == u + lead + OPEN + ("\n" + (FUNCTION + call.name + ">" + body))
  {
    CallParts(text, u, lead, OPEN, PrintInner(call), CLOSE, rest);
    assert "\n" + (CLOSE + rest) == "\n" + CLOSE + rest;
    InnerParts("\n", FUNCTION, call.name, ">", PrintParameters(call.arguments), FUNCTION_END, CLOSE + rest);
  }

  lemma ClosersText(text: string, w: string, rest: string, v: string)
    requires text == w + ("\n" + (FUNCTION_END + ("\n" + CLOSE + rest))) && v == w + "\n" + FUNCTION_END
    ensures text == w + "\n" + FUNCTION_END + ("\n" + CLOSE + rest) && |v| == |w| + 1 + |FUNCTION_END|
    ensures text == v + "\n" + CLOSE + rest && text == (v + "\n" + CLOSE) + rest
  {
  }

  lemma {:induction false} PassesClosers(text: string, lex: Lexicon, st: State, w: string, rest: string, before: seq<Tag>)
    returns (u': string, st': State)
    requires InCall(text, lex, st, |w|, IN_FUNCTION) && text == w + ("\n" + (FUNCTION_END + ("\n" + CLOSE + rest)))
    ensures text == u' + rest && InCall(text, lex, st', |u'|, OUTSIDE) && SameTags(text, lex, st, st', before)
  {
    BlankIsQuiet("\n");
    var v := w + "\n" + FUNCTION_END;
    ClosersText(text, w, rest, v);
    var closed := PassesCloser(text, lex, st, w, "\n", FUNCTION_END, "\n" + CLOSE + rest, FunctionClose, IN_FUNCTION, before);
    st' := PassesCloser(text, lex, closed, v, "\n", CLOSE, rest, ToolClose, IN_TOOL, before);
    u' := v + "\n" + CLOSE;
  }

  /** One actual call is passed without reporting anything; what follows it is read as outside of reasoning. */
  lemma {:induction false} PassesCall(text: string, lex: Lexicon, st: State, u: string, lead: string, call: Call, rest: string,
                                      before: seq<Tag>)
    returns (u': string, st': State)
    requires Passable(call) && Quiet(lead) && text == u + (lead + ToolTurns.Wrapped(PrintInner(call)) + rest)
    requires Calm(text, lex, st) && st.pos == |u| && Actual(text, st, |u| + |lead|)
    ensures text == u' + rest && InCall(text, lex, st', |u'|, OUTSIDE) && SameTags(text, lex, st, st', before)
  {
    var ending := FUNCTION_END + ("\n" + CLOSE + rest);
    var body := "\n" + PrintParameters(call.arguments) + ending;
    CallText(text, u, lead, call, rest, body, ending);
    HeadParts(text, u + lead + OPEN, "\n", FUNCTION, call.name, ">", body);
    var called := OpensCall(text, lex, st, u, lead, FUNCTION + call.name + ">" + body, before);
    var inFunction := OpensFunction(text, lex, called, u + lead + OPEN, call.name, body, before);
    var w, read := PassesParameters(text, lex, inFunction, u + lead + OPEN + "\n" + FUNCTION + call.name + ">", call.arguments, ending,
                                    before);
    u', st' := PassesClosers(text, lex, read, w, rest, before);
  }

  ghost predicate Passables(calls: seq<Call>) {
    forall i :: 0 <= i < |calls| ==> Passable(calls[i])
  }

  predicate AllQuiet(leads: seq<string>) {
    forall i :: 0 <= i < |leads| ==> Quiet(leads[i])
  }

  lemma TurnStarts(leads: seq<string>, calls: seq<Call>, tail: string)
    requires |leads| == |calls| > 0
    ensures PrintAll(calls)[0] == PrintInner(calls[0]) && PrintAll(calls)[1..] == PrintAll(calls[1..])
    ensures ToolTurns.Turn(leads, PrintAll(calls), tail)
         == leads[0] + ToolTurns.Wrapped(PrintInner(calls[0])) + ToolTurns.Turn(leads[1..], PrintAll(calls[1..]), tail)
  {
    assert PrintAll(calls)[1..] == PrintAll(calls[1..]);
  }

  /** Actual calls are passed one after the other without reporting anything. */
  lemma {:induction false} PassesCalls(text: string, lex: Lexicon, st: State, u: string, leads: seq<string>, calls: seq<Call>, rest: string,
                                       before: seq<Tag>)
    returns (u': string, st': State)
    requires |leads| == |calls| && Passables(calls) && AllQuiet(leads)
    requires text == u + ToolTurns.Turn(leads, PrintAll(calls), rest) && Calm(text, lex, st) && st.pos == |u|
    requires leads != [] ==> Actual(text, st, |u| + |leads[0]|)
    ensures text == u' + rest && Calm(text, lex, st') && st'.pos == |u'| && SameTags(text, lex, st, st', before)
    ensures if leads == [] then st' == st && u' == u else st'.inReasoning == Some(false)
    decreases |leads|
  {
    if leads == [] {
      u', st' := u, st;
    } else {
      TurnStarts(leads, calls, rest);
      var w, next := PassesCall(text, lex, st, u, leads[0], calls[0], ToolTurns.Turn(leads[1..], PrintAll(calls[1..]), rest), before);
      u', st' := PassesCalls(text, lex, next, w, leads[1..], calls[1..], rest, before);
    }
  }

  /** From the start of the first call on, a turn of actual calls reports no tag at all. */
  lemma PassesTurn(text: string, lex: Lexicon, st: State, u: string, leads: seq<string>, calls: seq<Call>, tail: string, before: seq<Tag>)
    requires |leads| == |calls| && Passables(calls) && AllQuiet(leads) && Quiet(tail)
    requires text == u + ToolTurns.Turn(leads, PrintAll(calls), tail) && Calm(text, lex, st) && st.pos == |u|
    requires leads != [] ==> Actual(text, st, |u| + |leads[0]|)
    ensures TagsFrom(text, lex, st, before) == before
  {
    var u', st' := PassesCalls(text, lex, st, u, leads, calls, tail, before);
    assert text[|u'|..] == tail;
    NothingLeft(text, lex, st', before);
  }

  // ---- A call that is cut short --------------------------------------------------------------

  /** A call up to somewhere inside a value. */
  function Truncated(lead: string, name: string, arguments: seq<(string, string)>, key: string, partial: string): string {
    lead + OPEN + "\n" + (FUNCTION + name) + ">" + ("\n" + PrintParameters(arguments) + (PARAMETER + key + ">" + partial))
  }

  lemma TruncatedText(text: string, u: string, lead: string, open: string, nl: string, header: string, gt: string, body: string)
    requires text == u + (lead + open + nl + header + gt + body)
    ensures text == u + lead + open + (nl + (header + gt + body))
  {
  }

  lemma EndingText(text: string, w: string, key: string, partial: string)
    requires text == w + ("\n" + (PARAMETER + key + ">" + partial))
    ensures text == w + "\n" + PARAMETER + key + ">" + (partial + "") && |text| == |w| + 1 + |PARAMETER| + |key| + 1 + |partial|
  {
  }

  /** A call cut short inside a value keeps that value's text to the end. */
  lemma {:induction false} PassesTruncated(text: string, lex: Lexicon, st: State, u: string, lead: string, call: Call,
                                           key: string, partial: string, before: seq<Tag>)
    requires Passable(call) && Clean(key) && ClosersFree(partial) && Quiet(lead)
    requires text == u + Truncated(lead, call.name, call.arguments, key, partial)
    requires Calm(text, lex, st) && st.pos == |u| && Actual(text, st, |u| + |lead|)
    ensures TagsFrom(text, lex, st, before) == before
  {
    var ending := PARAMETER + key + ">" + partial;
    var body := "\n" + PrintParameters(call.arguments) + ending;
    TruncatedText(text, u, lead, OPEN, "\n", FUNCTION + call.name, ">", body);
    HeadParts(text, u + lead + OPEN, "\n", FUNCTION, call.name, ">", body);
    var called := OpensCall(text, lex, st, u, lead, FUNCTION + call.name + ">" + body, before);
    var inFunction := OpensFunction(text, lex, called, u + lead + OPEN, call.name, body, before);
    var w, read := PassesParameters(text, lex, inFunction, u + lead + OPEN + "\n" + FUNCTION + call.name + ">", call.arguments, ending,
                                    before);
    EndingText(text, w, key, partial);
    var inValue := OpensParameter(text, lex, read, w, key, partial, "", before);
    assert text[inValue.pos..] == "";
    NothingLeft(text, lex, inValue, before);
  }
}
