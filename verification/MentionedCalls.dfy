/**
 A call header that reasoning mentions without quoting it (proxyserver/tokenization/base.py, _xml_reasoning_value_end):
 it does not borrow the closing markers of an actual call behind the reasoning, but ends where the reasoning ends.
 */
module MentionedCalls {
  import opened Wrappers
  import opened Text
  import opened Markup
  import opened ToolBlocks
  import opened QwenCalls
  import opened ReasoningTokens
  import opened ReasoningMarks
  import opened ReasoningScan
  import opened ReasoningScopes
  import opened VisibleCalls
  import opened JsonCalls

  /** A header up to an open parameter, and the words that follow it. */
  datatype Mention = Mention(gap: string, name: string, space: string, key: string, words: string)

  function MentionText(m: Mention): string {
    OPEN + m.gap + (FUNCTION + m.name + ">") + m.space + (PARAMETER + m.key + ">") + m.words
  }

  /** Text without any marker that could end a value, of reasoning, or of a call. */
  ghost predicate MarkersFree(s: string) {
    ClosersFree(s) && Free(s, THINK) && Free(s, THINK_END) && Free(s, OPEN)
  }

  ghost predicate Mentionable(m: Mention) {
    Quiet(m.gap) && Clean(m.name) && Quiet(m.space) && Clean(m.key) && MarkersFree(m.words)
  }

  /** A header that opens no parameter, and quiet words behind it. */
  datatype Bare = Bare(gap: string, name: string, words: string)

  function BareText(m: Bare): string {
    OPEN + m.gap + (FUNCTION + m.name + ">") + m.words
  }

  predicate Barely(m: Bare) {
    Quiet(m.gap) && Clean(m.name) && Quiet(m.words)
  }

  /** The start of a JSON call up to somewhere inside its first key. */
  datatype Unfinished = Unfinished(gap: string, words: string)

  function UnfinishedText(m: Unfinished): string {
    OPEN + (m.gap + ("{" + ("\"" + m.words)))
  }

  ghost predicate LeftOpen(m: Unfinished) {
    && Blank(m.gap) && Free(m.words, THINK) && Free(m.words, THINK_END)
    && forall i :: 0 <= i < |m.words| ==> m.words[i] != '"' && m.words[i] != '\\'
  }

  // ---- Where the mention ends -------------------------------------------------------------------

  predicate NoMarker(text: string, from: nat, to: nat) {
    forall i :: from <= i < to ==> !ValueMarker(text, i, |text|)
  }

  lemma {:induction false} SkipsToMarker(text: string, p: nat, q: nat, depth: nat, boundary: Option<nat>)
    requires p <= q <= |text| && NoMarker(text, p, q)
    ensures ReasoningValueEnd(text, p, |text|, depth, boundary) == ReasoningValueEnd(text, q, |text|, depth, boundary)
    decreases q - p
  {
    if p < q {
      assert !ValueMarker(text, p, |text|);
      SkipsToMarker(text, p + 1, q, depth, boundary);
    }
  }

  lemma NotOthers(text: string, i: nat)
    ensures At(text, THINK_END, i) ==> !At(text, THINK, i)
    ensures At(text, OPEN, i) ==> !At(text, THINK, i) && !At(text, THINK_END, i)
  {
    MarksStart(text, i);
  }

  /** A closing tag of reasoning that a new call or the end of the text follows before any closing marker ends the value. */
  lemma RecoversAtClose(text: string, from: nat, close: nat, next: nat)
    requires from <= close && At(text, THINK_END, close) && close + |THINK_END| <= next <= |text|
    requires NoMarker(text, from, close) && NoMarker(text, close + |THINK_END|, next)
    requires next == |text| || At(text, OPEN, next)
    ensures ReasoningValueEnd(text, from, |text|, 0, None) == close
  {
    SkipsToMarker(text, from, close, 0, None);
    NotOthers(text, close);
    SkipsToMarker(text, close + |THINK_END|, next, 0, Some(close));
    NotOthers(text, next);
  }

  lemma NoMarkerIn(text: string, u: string, w: string, rest: string, from: nat, to: nat)
    requires MarkersFree(w) && text == u + w + rest && (rest == "" || rest[0] == '<')
    requires from == |u| && to == |u| + |w|
    ensures NoMarker(text, from, to)
  {
    QwenCalls.Tags();
    NoneBefore(text, u, w, rest, PARAMETER_END);
    NoneBefore(text, u, w, rest, FUNCTION_END);
    NoneBefore(text, u, w, rest, CLOSE);
    NoneBefore(text, u, w, rest, THINK);
    NoneBefore(text, u, w, rest, THINK_END);
    NoneBefore(text, u, w, rest, OPEN);
  }

  lemma QuietFree(s: string, marker: string)
    requires Quiet(s) && Markup.Tag(marker)
    ensures Free(s, marker)
  {
    forall i ensures !At(s, marker, i) {
      if At(s, marker, i) {
        AtChar(s, marker, i, 0);
      }
    }
  }

  lemma QuietMarkersFree(s: string)
    requires Quiet(s)
    ensures MarkersFree(s)
  {
    QwenCalls.Tags();
    QuietFree(s, PARAMETER_END);
    QuietFree(s, FUNCTION_END);
    QuietFree(s, CLOSE);
    QuietFree(s, THINK);
    QuietFree(s, THINK_END);
    QuietFree(s, OPEN);
  }

  // ---- The mention, mark by mark -------------------------------------------------------------------

  const MENTIONED := Scope(true, false, 0, 0, true)
  const MENTIONED_FUNCTION := Scope(true, true, 0, 0, true)

  /** At this position of a mentioned call. */
  predicate InMention(text: string, lex: Lexicon, st: State, pos: nat, scope: Scope, inReasoning: Option<bool>) {
    Calm(text, lex, st) && st.pos == pos && st.scope == scope && st.inReasoning == inReasoning && inReasoning != Some(false)
  }

  lemma SpaceStops(text: string, pos: nat, q: nat)
    requires pos <= q < |text| && !IsSpace(text[q])
    ensures SkipSpace(text, pos, |text|) <= q
  {
  }

  lemma NoObjectInQuiet(text: string, pos: nat, q: nat)
    requires pos <= q < |text| && Quiet(text[pos..q]) && text[q] == '<'
    ensures ObjectStart(text, pos, |text|) == None
  {
    var r := SkipSpace(text, pos, |text|);
    SpaceStops(text, pos, q);
    if r < q {
      assert text[pos..q][r - pos] == text[r];
    }
  }

  lemma {:induction false} TakesMention(text: string, lex: Lexicon, st: State, token: Token, before: seq<Tag>)
    returns (st': State)
    requires Calm(text, lex, st) && IsNext(text, lex, st.pos, token) && token.kind == ToolOpen && token.end <= |text|
    requires ObjectStart(text, token.end, |text|) == None
    requires st.inReasoning == Some(true) || (st.inReasoning == None && FirstContent(text) != token.start)
    ensures InMention(text, lex, st', token.end, MENTIONED, st.inReasoning) && SameTags(text, lex, st, st', before)
  {
    PassesToken(text, lex, st, token, before);
    st' := Taken(text, lex, st, token, |text|);
  }

  lemma {:induction false} TakesMentionedFunction(text: string, lex: Lexicon, st: State, token: Token, before: seq<Tag>)
    returns (st': State)
    requires InMention(text, lex, st, st.pos, MENTIONED, st.inReasoning) && IsNext(text, lex, st.pos, token)
    requires token.kind == FunctionOpen(true)
    ensures InMention(text, lex, st', token.end, MENTIONED_FUNCTION, st.inReasoning) && SameTags(text, lex, st, st', before)
  {
    PassesToken(text, lex, st, token, before);
    st' := Taken(text, lex, st, token, |text|);
  }

  lemma {:induction false} TakesMentionedParameter(text: string, lex: Lexicon, st: State, token: Token, end: nat,
                                                   before: seq<Tag>)
    returns (st': State)
    requires InMention(text, lex, st, st.pos, MENTIONED_FUNCTION, st.inReasoning) && IsNext(text, lex, st.pos, token)
    requires token.kind == ParameterOpen(true) && token.end <= |text| && ReasoningValueEnd(text, token.end, |text|, 0, None) == end
    ensures InMention(text, lex, st', end, MENTIONED_FUNCTION, st.inReasoning) && SameTags(text, lex, st, st', before)
  {
    PassesToken(text, lex, st, token, before);
    st' := Taken(text, lex, st, token, |text|);
  }

  /** The text from the mention on, part by part. */
  lemma {:induction false} MentionParts(text: string, u: string, open: string, gap: string, function_: string, space: string,
                                        parameter: string, words: string, rest: string)
    returns (atParameter: string, atWords: string)
    requires text == u + (open + gap + function_ + space + parameter + words) + rest
    ensures text == u + open + (gap + (function_ + (space + parameter + words + rest)))
    ensures text == (u + open) + gap + (function_ + (space + parameter + words + rest))
    ensures text == atParameter + space + (parameter + (words + rest)) && |atParameter| == |u| + |open| + |gap| + |function_|
    ensures text == atWords + words + rest && |atWords| == |atParameter| + |space| + |parameter|
  {
    atParameter := u + open + gap + function_;
    atWords := atParameter + space + parameter;
  }

  lemma SpreadHeader(text: string, u: string, lead: string, marker: string, name: string, gt: string, header: string, rest: string)
    requires text == u + lead + (header + rest) && header == marker + name + gt
    ensures text == u + lead + marker + name + gt + rest && |header| == |marker| + |name| + |gt|
  {
    assert text == u + lead + (marker + name + gt + rest);
  }

  lemma AngleBehind(text: string, u: string, gap: string, rest: string)
    requires text == u + gap + rest && rest != "" && rest[0] == '<'
    ensures text[|u|..|u| + |gap|] == gap && |u| + |gap| < |text| && text[|u| + |gap|] == '<'
  {
  }

  lemma {:induction false} OpensMention(text: string, lex: Lexicon, st: State, u: string, gap: string, rest: string,
                                        before: seq<Tag>)
    returns (st': State)
    requires Calm(text, lex, st) && st.pos <= |u| && text == u + OPEN + (gap + rest) && text == (u + OPEN) + gap + rest
    requires Quiet(text[st.pos..|u|]) && Quiet(gap) && rest != "" && rest[0] == '<'
    requires st.inReasoning == Some(true) || (st.inReasoning == None && FirstContent(text) != |u|)
    ensures InMention(text, lex, st', |u| + |OPEN|, MENTIONED, st.inReasoning) && SameTags(text, lex, st, st', before)
  {
    MarkerAt(text, u, OPEN, gap + rest);
    MarkerIsToken(text, OPEN, |u|, lex);
    var token := Token(|u|, |u| + |OPEN|, ToolOpen);
    AngleBehind(text, u + OPEN, gap, rest);
    NoObjectInQuiet(text, |u| + |OPEN|, |u| + |OPEN| + |gap|);
    st' := TakesMention(text, lex, st, token, before);
  }

  lemma {:induction false} MentionsFunction(text: string, lex: Lexicon, st: State, u: string, gap: string, name: string,
                                            header: string, rest: string, before: seq<Tag>)
    returns (st': State)
    requires Clean(name) && Quiet(gap) && InMention(text, lex, st, |u|, MENTIONED, st.inReasoning)
    requires header == FUNCTION + name + ">" && text == u + gap + (header + rest)
    ensures InMention(text, lex, st', |u| + |gap| + |header|, MENTIONED_FUNCTION, st.inReasoning)
    ensures SameTags(text, lex, st, st', before)
  {
    SpreadHeader(text, u, gap, FUNCTION, name, ">", header, rest);
    var token := FunctionIsNext(text, lex, u, gap, name, rest);
    st' := TakesMentionedFunction(text, lex, st, token, before);
  }

  lemma {:induction false} MentionedParameterIsNext(text: string, lex: Lexicon, u: string, space: string, key: string,
                                                    header: string, rest: string, from: nat)
    returns (token: Token)
    requires Clean(key) && Quiet(space) && header == PARAMETER + key + ">"
    requires text == u + space + (header + rest) && from == |u| + |space| + |header|
    ensures IsNext(text, lex, |u|, token) && token.kind == ParameterOpen(true) && token.end == from <= |text|
  {
    SpreadHeader(text, u, space, PARAMETER, key, ">", header, rest);
    token := ParameterIsNext(text, lex, u, space, key, rest);
  }

  lemma WordsHaveNoMarker(text: string, u: string, words: string, rest: string, from: nat, close: nat)
    requires MarkersFree(words) && text == u + words + rest && from == |u| && close == |u| + |words|
    requires At(text, THINK_END, close)
    ensures NoMarker(text, from, close)
  {
    AtChar(text, THINK_END, close, 0);
    assert rest[0] == text[close];
    NoMarkerIn(text, u, words, rest, from, close);
  }

  /** The value ends at the closing tag behind which a new call comes, or nothing. */
  lemma {:induction false} EndsAtClose(text: string, lex: Lexicon, st: State, token: Token, close: nat, next: nat,
                                       before: seq<Tag>)
    returns (st': State)
    requires InMention(text, lex, st, st.pos, MENTIONED_FUNCTION, st.inReasoning) && IsNext(text, lex, st.pos, token)
    requires token.kind == ParameterOpen(true) && token.end <= close && NoMarker(text, token.end, close)
    requires At(text, THINK_END, close) && close + |THINK_END| <= next <= |text|
    requires NoMarker(text, close + |THINK_END|, next) && (next == |text| || At(text, OPEN, next))
    ensures InMention(text, lex, st', close, MENTIONED_FUNCTION, st.inReasoning) && SameTags(text, lex, st, st', before)
  {
    RecoversAtClose(text, token.end, close, next);
    st' := TakesMentionedParameter(text, lex, st, token, close, before);
  }

  lemma MentionLength(u: string, open: string, gap: string, function_: string, space: string, parameter: string, words: string, m: string)
    requires m == open + gap + function_ + space + parameter + words
    ensures |u| + |m| == |u| + |open| + |gap| + |function_| + |space| + |parameter| + |words|
  {
  }

  lemma AngleFirst(function_: string, name: string, gt: string, behind: string)
    requires function_ != "" && function_[0] == '<'
    ensures ((function_ + name + gt) + behind) != "" && ((function_ + name + gt) + behind)[0] == '<'
  {
  }

  lemma {:induction false} MentionsCall(text: string, lex: Lexicon, st: State, u: string, m: Mention, function_: string,
                                        behind: string, before: seq<Tag>)
    returns (st': State)
    requires Clean(m.name) && Quiet(m.gap) && Calm(text, lex, st) && st.pos <= |u| <= |text| && Quiet(text[st.pos..|u|])
    requires function_ == FUNCTION + m.name + ">"
    requires text == u + OPEN + (m.gap + (function_ + behind)) && text == (u + OPEN) + m.gap + (function_ + behind)
    requires st.inReasoning == Some(true) || (st.inReasoning == None && FirstContent(text) != |u|)
    ensures InMention(text, lex, st', |u| + |OPEN| + |m.gap| + |function_|, MENTIONED_FUNCTION, st.inReasoning)
    ensures SameTags(text, lex, st, st', before)
  {
    AngleFirst(FUNCTION, m.name, ">", behind);
    var mentioned := OpensMention(text, lex, st, u, m.gap, function_ + behind, before);
    st' := MentionsFunction(text, lex, mentioned, u + OPEN, m.gap, m.name, function_, behind, before);
  }

  lemma {:induction false} MentionsParameter(text: string, lex: Lexicon, st: State, at: string, m: Mention, parameter: string,
                                             atWords: string, rest: string, close: nat, next: nat, before: seq<Tag>)
    returns (st': State)
    requires Quiet(m.space) && Clean(m.key) && MarkersFree(m.words) && parameter == PARAMETER + m.key + ">"
    requires InMention(text, lex, st, |at|, MENTIONED_FUNCTION, st.inReasoning)
    requires text == at + m.space + (parameter + (m.words + rest)) && |atWords| == |at| + |m.space| + |parameter|
    requires text == atWords + m.words + rest && close == |atWords| + |m.words|
    requires At(text, THINK_END, close) && close + |THINK_END| <= next <= |text|
    requires NoMarker(text, close + |THINK_END|, next) && (next == |text| || At(text, OPEN, next))
    ensures InMention(text, lex, st', close, MENTIONED_FUNCTION, st.inReasoning) && SameTags(text, lex, st, st', before)
  {
    WordsHaveNoMarker(text, atWords, m.words, rest, |atWords|, close);
    var token := MentionedParameterIsNext(text, lex, at, m.space, m.key, parameter, m.words + rest, |atWords|);
    st' := EndsAtClose(text, lex, st, token, close, next, before);
  }

  lemma {:induction false} PassesMentionParts(text: string, lex: Lexicon, st: State, u: string, m: Mention, function_: string,
                                              parameter: string, rest: string, behind: string, close: nat, next: nat,
                                              before: seq<Tag>)
    returns (st': State)
    requires Mentionable(m) && Calm(text, lex, st) && st.pos <= |u| <= |text| && Quiet(text[st.pos..|u|])
    requires function_ == FUNCTION + m.name + ">" && parameter == PARAMETER + m.key + ">"
    requires text == u + (OPEN + m.gap + function_ + m.space + parameter + m.words) + rest
    requires behind == m.space + parameter + m.words + rest
    requires st.inReasoning == Some(true) || (st.inReasoning == None && FirstContent(text) != |u|)
    requires close == |u| + |OPEN| + |m.gap| + |function_| + |m.space| + |parameter| + |m.words|
    requires At(text, THINK_END, close) && close + |THINK_END| <= next <= |text|
    requires NoMarker(text, close + |THINK_END|, next) && (next == |text| || At(text, OPEN, next))
    ensures InMention(text, lex, st', close, MENTIONED_FUNCTION, st.inReasoning) && SameTags(text, lex, st, st', before)
  {
    var atParameter, atWords := MentionParts(text, u, OPEN, m.gap, function_, m.space, parameter, m.words, rest);
    var inFunction := MentionsCall(text, lex, st, u, m, function_, behind, before);
    st' := MentionsParameter(text, lex, inFunction, atParameter, m, parameter, atWords, rest, close, next, before);
  }

  /** From the mention, the scanner goes to the closing tag of the reasoning that holds it. */
  lemma {:induction false} PassesMention(text: string, lex: Lexicon, st: State, u: string, m: Mention, rest: string, close: nat,
                                         next: nat, before: seq<Tag>)
    returns (st': State)
    requires Mentionable(m) && Calm(text, lex, st) && st.pos <= |u| && text == u + MentionText(m) + rest && Quiet(text[st.pos..|u|])
    requires st.inReasoning == Some(true) || (st.inReasoning == None && FirstContent(text) != |u|)
    requires close == |u| + |MentionText(m)| && At(text, THINK_END, close) && close + |THINK_END| <= next <= |text|
    requires NoMarker(text, close + |THINK_END|, next) && (next == |text| || At(text, OPEN, next))
    ensures InMention(text, lex, st', close, MENTIONED_FUNCTION, st.inReasoning) && SameTags(text, lex, st, st', before)
  {
    var function_, parameter := FUNCTION + m.name + ">", PARAMETER + m.key + ">";
    var behind := m.space + parameter + m.words + rest;
    MentionLength(u, OPEN, m.gap, function_, m.space, parameter, m.words, MentionText(m));
    st' := PassesMentionParts(text, lex, st, u, m, function_, parameter, rest, behind, close, next, before);
  }

  // ---- Mentions that protect nothing -----------------------------------------------------------------

  lemma BareParts(text: string, u: string, open: string, gap: string, header: string, words: string, rest: string)
    requires text == u + (open + gap + header + words) + rest
    ensures text == u + open + (gap + (header + (words + rest))) && text == (u + open) + gap + (header + (words + rest))
    ensures |u + open| == |u| + |open| && |open + gap + header + words| == |open| + |gap| + |header| + |words|
    ensures text == (u + open + gap + header) + words + rest && |u + open + gap + header| == |u| + |open| + |gap| + |header|
  {
  }

  /** A header without a parameter protects nothing: the scanner goes on right behind it. */
  lemma {:induction false} PassesBare(text: string, lex: Lexicon, st: State, u: string, m: Bare, function_: string,
                                      rest: string, close: nat, before: seq<Tag>)
    returns (st': State)
    requires Barely(m) && Calm(text, lex, st) && st.pos <= |u| <= |text| && Quiet(text[st.pos..|u|])
    requires function_ == FUNCTION + m.name + ">" && text == u + (OPEN + m.gap + function_ + m.words) + rest
    requires st.inReasoning == Some(true) || (st.inReasoning == None && FirstContent(text) != |u|)
    requires close == |u| + |OPEN + m.gap + function_ + m.words|
    ensures Calm(text, lex, st') && st'.pos <= close <= |text| && Quiet(text[st'.pos..close]) && SameTags(text, lex, st, st', before)
  {
    BareParts(text, u, OPEN, m.gap, function_, m.words, rest);
    st' := MentionsCall(text, lex, st, u, Mention(m.gap, m.name, "", "", ""), function_, m.words + rest, before);
    SliceOf(text, u + OPEN + m.gap + function_, m.words, rest);
  }

  const MENTIONED_OBJECT := Scope(true, false, 1, 0, true)

  lemma {:induction false} HeaderStopsAtTag(text: string, from: nat, close: nat)
    requires from <= close && At(text, THINK_END, close)
    requires forall i :: from <= i < close ==> text[i] != '"' && text[i] != '\\' && !ReasoningTagAt(text, i, |text|)
    ensures HeaderEnd(text, from, |text|) == (close, false)
    decreases close - from
  {
    if from < close {
      HeaderStopsAtTag(text, from + 1, close);
    } else {
      AtChar(text, THINK_END, close, 0);
    }
  }

  lemma {:induction false} TakesMentionedObject(text: string, lex: Lexicon, st: State, token: Token, end: nat, before: seq<Tag>)
    returns (st': State)
    requires Calm(text, lex, st) && IsNext(text, lex, st.pos, token) && token.kind == ToolOpen && token.end <= |text|
    requires ObjectStart(text, token.end, |text|) == Some(end)
    requires st.inReasoning == Some(true) || (st.inReasoning == None && FirstContent(text) != token.start)
    ensures InMention(text, lex, st', end, MENTIONED_OBJECT, st.inReasoning) && SameTags(text, lex, st, st', before)
  {
    PassesToken(text, lex, st, token, before);
    st' := Taken(text, lex, st, token, |text|);
  }

  lemma {:induction false} TakesUnfinishedKey(text: string, lex: Lexicon, st: State, at: nat, close: nat, before: seq<Tag>)
    returns (st': State)
    requires InMention(text, lex, st, at, MENTIONED_OBJECT, st.inReasoning) && at < |text| && text[at] == '"'
    requires HeaderEnd(text, at + 1, |text|) == (close, false)
    ensures Calm(text, lex, st') && st'.pos == close && SameTags(text, lex, st, st', before)
  {
    var token := Token(at, at + 1, QuoteKind(text, at, lex));
    assert text[at..at] == "";
    PassesToken(text, lex, st, token, before);
    st' := Taken(text, lex, st, token, |text|);
  }

  lemma NoTagIn(text: string, u: string, words: string, rest: string, from: nat, close: nat)
    requires text == u + words + rest && from == |u| && close == |u| + |words| && (rest == "" || rest[0] == '<')
    requires Free(words, THINK) && Free(words, THINK_END)
    ensures forall i :: from <= i < close ==> !ReasoningTagAt(text, i, |text|)
  {
    NoneBefore(text, u, words, rest, THINK);
    NoneBefore(text, u, words, rest, THINK_END);
  }

  lemma NoQuoteIn(text: string, u: string, words: string, rest: string, from: nat, close: nat)
    requires text == u + words + rest && from == |u| && close == |u| + |words|
    requires forall i :: 0 <= i < |words| ==> words[i] != '"' && words[i] != '\\'
    ensures forall i :: from <= i < close ==> text[i] != '"' && text[i] != '\\'
  {
    forall i | from <= i < close ensures text[i] != '"' && text[i] != '\\' {
      assert text[i] == words[i - |u|];
    }
  }

  lemma WordsStopAtTag(text: string, u: string, words: string, rest: string, from: nat, close: nat)
    requires text == u + words + rest && from == |u| && close == |u| + |words| && At(text, THINK_END, close)
    requires Free(words, THINK) && Free(words, THINK_END) && forall i :: 0 <= i < |words| ==> words[i] != '"' && words[i] != '\\'
    ensures HeaderEnd(text, from, |text|) == (close, false)
  {
    AtChar(text, THINK_END, close, 0);
    assert rest[0] == text[close];
    NoTagIn(text, u, words, rest, from, close);
    NoQuoteIn(text, u, words, rest, from, close);
    HeaderStopsAtTag(text, from, close);
  }

  lemma {:induction false} UnfinishedParts(text: string, u: string, open: string, gap: string, brace: string, quote: string,
                                           words: string, rest: string)
    returns (atKey: string, atWords: string)
    requires text == u + (open + (gap + (brace + (quote + words)))) + rest && |brace| == |quote| == 1
    ensures text == u + open + (gap + (brace + (quote + words + rest))) && text == (u + open) + gap + (brace + (quote + words + rest))
    ensures |atKey| == |u| + |open| + |gap| + 1 && |atWords| == |atKey| + 1 && |atKey| < |text| && text[|atKey|] == quote[0]
    ensures text == atWords + words + rest && |open + (gap + (brace + (quote + words)))| == |atWords| + |words| - |u|
  {
    atKey := u + open + gap + brace;
    atWords := atKey + quote;
    assert text == atKey + quote + (words + rest);
  }

  lemma OpenerStands(text: string, lex: Lexicon, pos: nat, u: string, rest: string, token: Token)
    requires text == u + OPEN + rest && pos <= |u| <= |text| && Quiet(text[pos..|u|]) && token == Token(|u|, |u| + |OPEN|, ToolOpen)
    ensures IsNext(text, lex, pos, token) && token.end <= |text|
  {
    MarkerAt(text, u, OPEN, rest);
    MarkerIsToken(text, OPEN, |u|, lex);
  }

  lemma ObjectAfter(text: string, u: string, open: string, gap: string, rest: string, from: nat, end: nat)
    requires text == (u + open) + gap + ("{" + rest) && Blank(gap) && from == |u| + |open| && end == from + |gap| + 1
    ensures from <= |text| && ObjectStart(text, from, |text|) == Some(end)
  {
    ObjectStarts(text, u + open, gap, rest);
  }

  lemma {:induction false} KeyBreaksOff(text: string, lex: Lexicon, st: State, at: nat, atWords: string, words: string,
                                        rest: string, close: nat, before: seq<Tag>)
    returns (st': State)
    requires InMention(text, lex, st, at, MENTIONED_OBJECT, st.inReasoning) && |atWords| == at + 1 && at < |text| && text[at] == '"'
    requires text == atWords + words + rest && close == |atWords| + |words| && At(text, THINK_END, close)
    requires Free(words, THINK) && Free(words, THINK_END) && forall i :: 0 <= i < |words| ==> words[i] != '"' && words[i] != '\\'
    ensures Calm(text, lex, st') && st'.pos == close && SameTags(text, lex, st, st', before)
  {
    WordsStopAtTag(text, atWords, words, rest, |atWords|, close);
    st' := TakesUnfinishedKey(text, lex, st, at, close, before);
  }

  /** A JSON call that breaks off inside a key does not hide where the reasoning ends. */
  lemma {:induction false} PassesUnfinished(text: string, lex: Lexicon, st: State, u: string, m: Unfinished, rest: string,
                                            close: nat, before: seq<Tag>)
    returns (st': State)
    requires LeftOpen(m) && Calm(text, lex, st) && st.pos <= |u| <= |text| && Quiet(text[st.pos..|u|])
    requires text == u + UnfinishedText(m) + rest && close == |u| + |UnfinishedText(m)| && At(text, THINK_END, close)
    requires st.inReasoning == Some(true) || (st.inReasoning == None && FirstContent(text) != |u|)
    ensures Calm(text, lex, st') && st'.pos == close && SameTags(text, lex, st, st', before)
  {
    var atKey, atWords := UnfinishedParts(text, u, OPEN, m.gap, "{", "\"", m.words, rest);
    var behind := "\"" + m.words + rest;
    var token := Token(|u|, |u| + |OPEN|, ToolOpen);
    OpenerStands(text, lex, st.pos, u, m.gap + ("{" + behind), token);
    ObjectAfter(text, u, OPEN, m.gap, behind, token.end, |atKey|);
    var open := TakesMentionedObject(text, lex, st, token, |atKey|, before);
    st' := KeyBreaksOff(text, lex, open, |atKey|, atWords, m.words, rest, close, before);
  }
}
