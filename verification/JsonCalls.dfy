/**
 Whole JSON tool calls and the reasoning scanner (proxyserver/tokenization/base.py): the name and the key of the
 arguments are read as headers, the arguments are passed as one value, and a turn of such calls holds no reasoning.
 */
module JsonCalls {
  import opened Wrappers
  import opened Text
  import opened Markup
  import opened ToolBlocks
  import opened ReasoningTokens
  import opened ReasoningMarks
  import opened ReasoningScan
  import opened VisibleCalls
  import opened VisibleJson
  import ToolTurns

  /** A call as a JSON object; `gap` and `end` stand between it and its markers. */
  datatype JsonCall = JsonCall(gap: string, name: string, key: string, arguments: Json, end: string)

  /** A name without quotes, backslashes or angle brackets. */
  predicate Plain(name: string) {
    forall i :: 0 <= i < |name| ==> name[i] != '"' && name[i] != '\\' && name[i] != '<'
  }

  const NAME := "name"

  predicate WellFormedCall(call: JsonCall) {
    && Blank(call.gap) && Plain(call.name) && ArgumentsKey(call.key) && WellFormed(call.arguments) && !call.arguments.Literal?
    && Blank(call.end)
  }

  /** The keys of a call decode to themselves. */
  predicate DecodesKeys(lex: Lexicon) {
    && lex.decode(Quoted(NAME)) == Some(NAME)
    && lex.decode(Quoted("arguments")) == Some("arguments") && lex.decode(Quoted("parameters")) == Some("parameters")
  }

  function PrintName(call: JsonCall, style: Style): string {
    Quoted(NAME) + style.colon + (Quoted(call.name) + style.comma)
  }

  function PrintArguments(call: JsonCall, style: Style): string {
    Quoted(call.key) + style.colon + Print(call.arguments, style)
  }

  function PrintObject(call: JsonCall, style: Style): string {
    "{" + (PrintName(call, style) + PrintArguments(call, style)) + "}"
  }

  function PrintCall(call: JsonCall, style: Style): string {
    call.gap + PrintObject(call, style) + call.end
  }

  // ---- Keys and names ---------------------------------------------------------------------

  lemma {:induction false} HeaderEnds(text: string, u: string, name: string, rest: string)
    requires Plain(name) && text == u + name + "\"" + rest
    ensures |u| + |name| + 1 <= |text| && HeaderEnd(text, |u|, |text|) == (|u| + |name| + 1, true)
    decreases |name|
  {
    if name == "" {
      assert text[|u|] == '"';
    } else {
      assert text == (u + name[..1]) + name[1..] + "\"" + rest;
      HeaderEnds(text, u + name[..1], name[1..], rest);
      assert text[|u|] == name[0];
    }
  }

  /** A key or name that does not lead to the arguments. */
  lemma {:induction false} TakesName(text: string, lex: Lexicon, st: State, at: nat, end: nat, before: seq<Tag>)
    returns (st': State)
    requires InJson(text, lex, st, at, 1, 0) && at < end <= |text| && text[at] == '"' && HeaderEnd(text, at + 1, |text|) == (end, true)
    requires KeyAt(text, lex, at, end, |text|).Other? || KeyAt(text, lex, at, end, |text|).Undecodable?
    ensures InJson(text, lex, st', end, 1, 0) && SameTags(text, lex, st, st', before)
  {
    var token := QuoteIsNext(text, lex, st.pos, at);
    PassesToken(text, lex, st, token, before);
    st' := Taken(text, lex, st, token, |text|);
    assert text[end..end] == "";
  }

  lemma QuotedSlice(text: string, u: string, name: string, rest: string)
    requires text == u + Quoted(name) + rest
    ensures |u| < |u| + |Quoted(name)| <= |text| && text[|u|..|u| + |Quoted(name)|] == Quoted(name)
  {
  }

  lemma {:induction false} PassesNamed(text: string, lex: Lexicon, st: State, u: string, name: string, rest: string,
                                       before: seq<Tag>)
    returns (st': State)
    requires InJson(text, lex, st, |u|, 1, 0) && Plain(name) && text == u + Quoted(name) + rest
    requires |u| + |Quoted(name)| <= |text|
    requires KeyAt(text, lex, |u|, |u| + |Quoted(name)|, |text|).Other? || KeyAt(text, lex, |u|, |u| + |Quoted(name)|, |text|).Undecodable?
    ensures InJson(text, lex, st', |u| + |Quoted(name)|, 1, 0) && SameTags(text, lex, st, st', before)
  {
    QuotedText(text, u, name, rest);
    HeaderEnds(text, u + "\"", name, rest);
    st' := TakesName(text, lex, st, |u|, |u| + |Quoted(name)|, before);
  }

  lemma NameIsNoArguments(text: string, lex: Lexicon, u: string, rest: string)
    requires DecodesKeys(lex) && text == u + Quoted(NAME) + rest
    ensures |u| + |Quoted(NAME)| <= |text| && KeyAt(text, lex, |u|, |u| + |Quoted(NAME)|, |text|) == Other
  {
    QuotedSlice(text, u, NAME, rest);
  }

  lemma CommaIsNoArguments(text: string, lex: Lexicon, u: string, name: string, rest: string)
    requires text == u + Quoted(name) + rest && rest != "" && rest[0] == ','
    ensures |u| + |Quoted(name)| <= |text|
    ensures KeyAt(text, lex, |u|, |u| + |Quoted(name)|, |text|).Other? || KeyAt(text, lex, |u|, |u| + |Quoted(name)|, |text|).Undecodable?
  {
    assert text[|u| + |Quoted(name)|] == rest[0];
    assert ArgumentStart(text, |u| + |Quoted(name)|, |text|) == None;
  }

  lemma TwoParts(text: string, u: string, a: string, b: string, rest: string)
    requires text == u + (a + b) + rest
    ensures text == u + a + (b + rest) && text == (u + a) + b + rest
    ensures |u + a| == |u| + |a| && |a + b| == |a| + |b|
  {
  }

  lemma {:induction false} PassesNameKey(text: string, lex: Lexicon, st: State, u: string, colon: string, rest: string,
                                         before: seq<Tag>)
    returns (st': State)
    requires DecodesKeys(lex) && Quiet(colon) && InJson(text, lex, st, |u|, 1, 0) && text == u + (Quoted(NAME) + colon) + rest
    ensures InJson(text, lex, st', |u| + |Quoted(NAME) + colon|, 1, 0) && SameTags(text, lex, st, st', before)
  {
    TwoParts(text, u, Quoted(NAME), colon, rest);
    NameIsNoArguments(text, lex, u, colon + rest);
    st' := PassesNamed(text, lex, st, u, NAME, colon + rest, before);
    PassesQuiet(text, lex, st', u + Quoted(NAME), colon, rest, 1, 0);
  }

  lemma {:induction false} PassesOwnName(text: string, lex: Lexicon, st: State, u: string, name: string, comma: string,
                                         rest: string, before: seq<Tag>)
    returns (st': State)
    requires Plain(name) && Quiet(comma) && comma != "" && comma[0] == ',' && InJson(text, lex, st, |u|, 1, 0)
    requires text == u + (Quoted(name) + comma) + rest
    ensures InJson(text, lex, st', |u| + |Quoted(name) + comma|, 1, 0) && SameTags(text, lex, st, st', before)
  {
    TwoParts(text, u, Quoted(name), comma, rest);
    CommaIsNoArguments(text, lex, u, name, comma + rest);
    st' := PassesNamed(text, lex, st, u, name, comma + rest, before);
    PassesQuiet(text, lex, st', u + Quoted(name), comma, rest, 1, 0);
  }

  lemma {:induction false} PassesName(text: string, lex: Lexicon, st: State, u: string, call: JsonCall, style: Style,
                                      rest: string, before: seq<Tag>)
    returns (st': State)
    requires Stylish(style) && DecodesKeys(lex) && Plain(call.name) && InJson(text, lex, st, |u|, 1, 0)
    requires text == u + PrintName(call, style) + rest
    ensures InJson(text, lex, st', |u| + |PrintName(call, style)|, 1, 0) && SameTags(text, lex, st, st', before)
  {
    StyleIsQuiet(style);
    var key, named := Quoted(NAME) + style.colon, Quoted(call.name) + style.comma;
    assert PrintName(call, style) == key + named;
    TwoParts(text, u, key, named, rest);
    var keyed := PassesNameKey(text, lex, st, u, style.colon, named + rest, before);
    st' := PassesOwnName(text, lex, keyed, u + key, call.name, style.comma, rest, before);
  }

  // ---- The arguments ------------------------------------------------------------------------

  lemma SkipsBlank(text: string, u: string, blank: string, rest: string)
    requires text == u + blank + rest && Blank(blank) && rest != "" && !IsSpace(rest[0])
    ensures SkipSpace(text, |u|, |text|) == |u| + |blank|
  {
    var r := SkipSpace(text, |u|, |text|);
    assert text[|u| + |blank|] == rest[0];
    SkipStops(text, |u|, |u| + |blank|);
    assert forall i :: |u| <= i < |u| + |blank| ==> text[i] == blank[i - |u|];
  }

  lemma SkipStops(text: string, pos: nat, q: nat)
    requires pos <= q < |text| && !IsSpace(text[q])
    ensures SkipSpace(text, pos, |text|) <= q
  {
  }

  lemma ArgumentsStart(text: string, u: string, colon: string, rest: string)
    requires text == u + colon + rest && |colon| > 0 && colon[0] == ':' && Blank(colon[1..])
    requires rest != "" && rest[0] in ARGUMENT_STARTS
    ensures ArgumentStart(text, |u|, |text|) == Some(|u| + |colon| + 1) && text[|u| + |colon|] == rest[0]
  {
    assert text[|u|] == colon[0];
    assert !IsSpace(':');
    SkipStops(text, |u|, |u|);
    assert text == (u + colon[..1]) + colon[1..] + rest;
    assert !IsSpace(rest[0]);
    SkipsBlank(text, u + colon[..1], colon[1..], rest);
  }

  /** Behind the key and the bracket that starts the arguments, their scope is open. */
  lemma {:induction false} TakesArguments(text: string, lex: Lexicon, st: State, at: nat, end: nat, argument: nat,
                                          before: seq<Tag>)
    returns (st': State)
    requires InJson(text, lex, st, at, 1, 0) && at < end <= argument <= |text| && text[at] == '"'
    requires HeaderEnd(text, at + 1, |text|) == (end, true) && KeyAt(text, lex, at, end, |text|) == NestedArguments(argument)
    ensures InJson(text, lex, st', argument, 2, 2) && SameTags(text, lex, st, st', before)
  {
    var token := QuoteIsNext(text, lex, st.pos, at);
    PassesToken(text, lex, st, token, before);
    st' := Taken(text, lex, st, token, |text|);
    assert text[argument..argument] == "";
  }

  /** Arguments that are one string are skipped with their key. */
  lemma {:induction false} TakesTextArguments(text: string, lex: Lexicon, st: State, at: nat, end: nat, argument: nat,
                                              last: nat, before: seq<Tag>)
    returns (st': State)
    requires InJson(text, lex, st, at, 1, 0) && at < end <= argument <= |text| && text[at] == '"'
    requires HeaderEnd(text, at + 1, |text|) == (end, true) && KeyAt(text, lex, at, end, |text|) == TextArguments(argument)
    requires JsonStringEnd(text, argument, |text|) == last
    ensures InJson(text, lex, st', last, 1, 0) && SameTags(text, lex, st, st', before)
  {
    var token := QuoteIsNext(text, lex, st.pos, at);
    PassesToken(text, lex, st, token, before);
    st' := Taken(text, lex, st, token, |text|);
    assert text[last..last] == "";
  }

  lemma KeyEnds(text: string, u: string, key: string, rest: string, at: nat, end: nat)
    requires ArgumentsKey(key) && text == u + Quoted(key) + rest && at == |u| && end == |u| + |Quoted(key)|
    ensures at < end <= |text| && text[at] == '"' && HeaderEnd(text, at + 1, |text|) == (end, true) && text[at..end] == Quoted(key)
  {
    QuotedText(text, u, key, rest);
    HeaderEnds(text, u + "\"", key, rest);
    QuotedSlice(text, u, key, rest);
  }

  lemma KeyIs(text: string, lex: Lexicon, key: string, at: nat, end: nat, argument: nat)
    requires ArgumentsKey(key) && DecodesKeys(lex) && at < end <= |text| && text[at..end] == Quoted(key)
    requires ArgumentStart(text, end, |text|) == Some(argument)
    ensures KeyAt(text, lex, at, end, |text|)
         == if text[argument - 1] == '"' then TextArguments(argument) else NestedArguments(argument)
  {
  }

  lemma {:induction false} Rejoined(text: string, u: string, quoted: string, colon: string, rest: string) returns (w: string)
    requires text == u + quoted + (colon + rest)
    ensures text == w + colon + rest && |w| == |u| + |quoted|
  {
    w := u + quoted;
  }

  lemma ArgumentsBehind(text: string, u: string, quoted: string, colon: string, rest: string, end: nat, argument: nat)
    requires text == u + quoted + (colon + rest) && end == |u| + |quoted| && argument == end + |colon| + 1
    requires |colon| > 0 && colon[0] == ':' && Blank(colon[1..]) && rest != "" && rest[0] in ARGUMENT_STARTS
    ensures argument <= |text| && ArgumentStart(text, end, |text|) == Some(argument) && text[argument - 1] == rest[0]
  {
    var w := Rejoined(text, u, quoted, colon, rest);
    ArgumentsStart(text, w, colon, rest);
  }

  /** The key of the arguments leads to what stands behind it. */
  lemma {:induction false} KeyLeads(text: string, lex: Lexicon, u: string, key: string, colon: string, rest: string, at: nat,
                                    end: nat, argument: nat)
    requires ArgumentsKey(key) && DecodesKeys(lex) && text == u + Quoted(key) + (colon + rest)
    requires |colon| > 0 && colon[0] == ':' && Blank(colon[1..]) && rest != "" && rest[0] in ARGUMENT_STARTS
    requires at == |u| && end == |u| + |Quoted(key)| && argument == end + |colon| + 1
    ensures at < end <= argument <= |text| && text[at] == '"' && HeaderEnd(text, at + 1, |text|) == (end, true)
    ensures KeyAt(text, lex, at, end, |text|) == if rest[0] == '"' then TextArguments(argument) else NestedArguments(argument)
  {
    KeyEnds(text, u, key, colon + rest, at, end);
    ArgumentsBehind(text, u, Quoted(key), colon, rest, end, argument);
    KeyIs(text, lex, key, at, end, argument);
  }

  lemma {:induction false} NestedParts(text: string, u: string, key: string, colon: string, open: string, inside: string,
                                       close: string, rest: string)
    returns (w: string, end: nat)
    requires text == u + (key + colon + (open + inside + close)) + rest && |open| == |close| == 1
    ensures end == |u| + |key|
    ensures text == u + key + (colon + (open + (inside + (close + rest))))
    ensures |w| == |u| + |key| + |colon| + 1 && text == w + inside + (close + rest) && text == (w + inside) + close + rest
    ensures |w + inside| == |w| + |inside| && |key + colon + (open + inside + close)| == |key| + |colon| + |inside| + 2
  {
    w, end := u + key + colon + open, |u| + |key|;
  }

  lemma {:induction false} NestedKey(text: string, lex: Lexicon, u: string, key: string, colon: string, open: string,
                                     inside: string, close: string, rest: string)
    returns (w: string, end: nat)
    requires |colon| > 0 && colon[0] == ':' && Blank(colon[1..]) && DecodesKeys(lex) && ArgumentsKey(key)
    requires |open| == |close| == 1 && (open[0] == '{' || open[0] == '[')
    requires text == u + (Quoted(key) + colon + (open + inside + close)) + rest
    ensures |u| < end <= |w| <= |text| && text[|u|] == '"' && HeaderEnd(text, |u| + 1, |text|) == (end, true)
    ensures KeyAt(text, lex, |u|, end, |text|) == NestedArguments(|w|)
    ensures text == w + inside + (close + rest) && text == (w + inside) + close + rest && |w + inside| == |w| + |inside|
    ensures |w| + |inside| + 1 == |u| + |Quoted(key) + colon + (open + inside + close)|
  {
    w, end := NestedParts(text, u, Quoted(key), colon, open, inside, close, rest);
    KeyLeads(text, lex, u, key, colon, open + (inside + (close + rest)), |u|, end, |w|);
  }

  lemma {:induction false} OpensArguments(text: string, lex: Lexicon, st: State, u: string, key: string, colon: string,
                                          open: string, inside: string, close: string, rest: string, before: seq<Tag>)
    returns (w: string, st': State)
    requires |colon| > 0 && colon[0] == ':' && Blank(colon[1..]) && DecodesKeys(lex) && ArgumentsKey(key) && InJson(text, lex, st, |u|, 1, 0)
    requires |open| == |close| == 1 && (open[0] == '{' || open[0] == '[')
    requires text == u + (Quoted(key) + colon + (open + inside + close)) + rest
    ensures InJson(text, lex, st', |w|, 2, 2) && SameTags(text, lex, st, st', before)
    ensures text == w + inside + (close + rest) && text == (w + inside) + close + rest && |w + inside| == |w| + |inside|
    ensures |w| + |inside| + 1 == |u| + |Quoted(key) + colon + (open + inside + close)|
  {
    var end;
    w, end := NestedKey(text, lex, u, key, colon, open, inside, close, rest);
    st' := TakesArguments(text, lex, st, |u|, end, |w|, before);
  }

  lemma {:induction false} PassesObjectArguments(text: string, lex: Lexicon, st: State, u: string, key: string,
                                                 members: Members, style: Style, rest: string, before: seq<Tag>)
    returns (st': State)
    requires Stylish(style) && DecodesKeys(lex) && ArgumentsKey(key) && MembersWellFormed(members) && InJson(text, lex, st, |u|, 1, 0)
    requires text == u + (Quoted(key) + style.colon + ("{" + PrintMembers(members, style) + "}")) + rest
    ensures InJson(text, lex, st', |u| + |Quoted(key) + style.colon + ("{" + PrintMembers(members, style) + "}")|, 1, 0)
    ensures SameTags(text, lex, st, st', before)
  {
    var inside := PrintMembers(members, style);
    var w, open := OpensArguments(text, lex, st, u, key, style.colon, "{", inside, "}", rest, before);
    var read := PassesMembers(text, lex, open, w, members, style, "}" + rest, 2, 2, before);
    st' := PassesBracket(text, lex, read, w + inside, "}", rest, 2, 2, before);
  }

  lemma {:induction false} PassesArrayArguments(text: string, lex: Lexicon, st: State, u: string, key: string, items: Items,
                                                style: Style, rest: string, before: seq<Tag>)
    returns (st': State)
    requires Stylish(style) && DecodesKeys(lex) && ArgumentsKey(key) && ItemsWellFormed(items) && InJson(text, lex, st, |u|, 1, 0)
    requires text == u + (Quoted(key) + style.colon + ("[" + PrintItems(items, style) + "]")) + rest
    ensures InJson(text, lex, st', |u| + |Quoted(key) + style.colon + ("[" + PrintItems(items, style) + "]")|, 1, 0)
    ensures SameTags(text, lex, st, st', before)
  {
    var inside := PrintItems(items, style);
    var w, open := OpensArguments(text, lex, st, u, key, style.colon, "[", inside, "]", rest, before);
    var read := PassesItems(text, lex, open, w, items, style, "]" + rest, 2, 2, before);
    st' := PassesBracket(text, lex, read, w + inside, "]", rest, 2, 2, before);
  }

  lemma {:induction false} PassesTextArguments(text: string, lex: Lexicon, st: State, u: string, key: string, raw: string,
                                               style: Style, rest: string, before: seq<Tag>)
    returns (st': State)
    requires Stylish(style) && DecodesKeys(lex) && ArgumentsKey(key) && Escaped(raw) && InJson(text, lex, st, |u|, 1, 0)
    requires text == u + (Quoted(key) + style.colon + ("\"" + raw + "\"")) + rest
    ensures InJson(text, lex, st', |u| + |Quoted(key) + style.colon + ("\"" + raw + "\"")|, 1, 0) && SameTags(text, lex, st, st', before)
  {
    var w, end := NestedParts(text, u, Quoted(key), style.colon, "\"", raw, "\"", rest);
    KeyLeads(text, lex, u, key, style.colon, "\"" + (raw + ("\"" + rest)), |u|, end, |w|);
    StringEnds(text, w, raw, rest);
    st' := TakesTextArguments(text, lex, st, |u|, end, |w|, |w| + |raw| + 1, before);
  }

  /** The arguments of a call, an object, an array or one string, are passed as one value. */
  lemma {:induction false} PassesArguments(text: string, lex: Lexicon, st: State, u: string, call: JsonCall, style: Style,
                                           rest: string, before: seq<Tag>)
    returns (st': State)
    requires Stylish(style) && DecodesKeys(lex) && WellFormedCall(call) && InJson(text, lex, st, |u|, 1, 0)
    requires text == u + PrintArguments(call, style) + rest
    ensures InJson(text, lex, st', |u| + |PrintArguments(call, style)|, 1, 0) && SameTags(text, lex, st, st', before)
  {
    match call.arguments
    case Object(members) => st' := PassesObjectArguments(text, lex, st, u, call.key, members, style, rest, before);
    case Array(items) => st' := PassesArrayArguments(text, lex, st, u, call.key, items, style, rest, before);
    case Text(raw) => st' := PassesTextArguments(text, lex, st, u, call.key, raw, style, rest, before);
  }

  // ---- Whole calls and turns ------------------------------------------------------------------

  lemma ObjectStarts(text: string, head: string, gap: string, rest: string)
    requires text == head + gap + ("{" + rest) && Blank(gap)
    ensures ObjectStart(text, |head|, |text|) == Some(|head| + |gap| + 1)
  {
    assert !IsSpace('{');
    SkipsBlank(text, head, gap, "{" + rest);
    assert text[|head| + |gap|] == ("{" + rest)[0];
  }

  lemma {:induction false} TakesJsonOpener(text: string, lex: Lexicon, st: State, token: Token, end: nat, before: seq<Tag>)
    returns (st': State)
    requires Calm(text, lex, st) && IsNext(text, lex, st.pos, token) && token.kind == ToolOpen && Actual(text, st, token.start)
    requires token.end <= |text| && ObjectStart(text, token.end, |text|) == Some(end)
    ensures InJson(text, lex, st', end, 1, 0) && SameTags(text, lex, st, st', before)
  {
    PassesToken(text, lex, st, token, before);
    st' := Taken(text, lex, st, token, |text|);
    assert text[end..end] == "";
  }

  lemma {:induction false} BraceParts(text: string, head: string, gap: string, brace: string, rest: string) returns (w: string)
    requires text == head + (gap + (brace + rest))
    ensures text == head + gap + (brace + rest) && text == w + rest && |w| == |head| + |gap| + |brace|
  {
    w := head + gap + brace;
  }

  lemma {:induction false} ObjectBehind(text: string, u: string, lead: string, open: string, gap: string, rest: string,
                                        from: nat)
    returns (w: string)
    requires text == u + lead + open + (gap + ("{" + rest)) && Blank(gap) && from == |u| + |lead| + |open|
    ensures from <= |text| && ObjectStart(text, from, |text|) == Some(|w|) && text == w + rest
  {
    var head := u + lead + open;
    w := BraceParts(text, head, gap, "{", rest);
    ObjectStarts(text, head, gap, rest);
  }

  lemma {:induction false} OpensJson(text: string, lex: Lexicon, st: State, u: string, lead: string, gap: string, rest: string,
                                     before: seq<Tag>)
    returns (w: string, st': State)
    requires Calm(text, lex, st) && st.pos == |u| && text == u + lead + OPEN + (gap + ("{" + rest)) && Quiet(lead) && Blank(gap)
    requires Actual(text, st, |u| + |lead|)
    ensures text == w + rest && InJson(text, lex, st', |w|, 1, 0) && SameTags(text, lex, st, st', before)
  {
    var token := MarkerIsNext(text, lex, u, lead, OPEN, gap + ("{" + rest));
    w := ObjectBehind(text, u, lead, OPEN, gap, rest, token.end);
    st' := TakesJsonOpener(text, lex, st, token, |w|, before);
  }

  lemma {:induction false} TakesJsonCloser(text: string, lex: Lexicon, st: State, at: nat, before: seq<Tag>)
    returns (st': State)
    requires InJson(text, lex, st, at, 0, 0) && At(text, CLOSE, at)
    ensures InCall(text, lex, st', at + |CLOSE|, OUTSIDE) && SameTags(text, lex, st, st', before)
  {
    MarkerIsToken(text, CLOSE, at, lex);
    var token := Token(at, at + |CLOSE|, ToolClose);
    PassesToken(text, lex, st, token, before);
    st' := Taken(text, lex, st, token, |text|);
  }

  lemma EndParts(text: string, u: string, brace: string, end: string, close: string, rest: string)
    requires text == u + (brace + (end + (close + rest)))
    ensures text == u + brace + (end + (close + rest)) && text == (u + brace) + end + (close + rest)
    ensures text == (u + brace + end) + close + rest && text == (u + brace + end + close) + rest
    ensures |u + brace + end| == |u| + |brace| + |end| && |u + brace| == |u| + |brace|
    ensures |u + brace + end + close| == |u + brace + end| + |close|
  {
  }

  /** Behind the arguments the object and the call are closed. */
  lemma {:induction false} PassesJsonEnd(text: string, lex: Lexicon, st: State, u: string, end: string, rest: string,
                                         before: seq<Tag>)
    returns (u': string, st': State)
    requires Blank(end) && InJson(text, lex, st, |u|, 1, 0) && text == u + ("}" + (end + (CLOSE + rest)))
    ensures text == u' + rest && InCall(text, lex, st', |u'|, OUTSIDE) && SameTags(text, lex, st, st', before)
  {
    EndParts(text, u, "}", end, CLOSE, rest);
    BlankIsQuiet(end);
    var closed := PassesBracket(text, lex, st, u, "}", end + (CLOSE + rest), 1, 0, before);
    PassesQuiet(text, lex, closed, u + "}", end, CLOSE + rest, 0, 0);
    MarkerAt(text, u + "}" + end, CLOSE, rest);
    st' := TakesJsonCloser(text, lex, closed, |u + "}" + end|, before);
    u' := u + "}" + end + CLOSE;
  }

  lemma {:induction false} ObjectParts(text: string, u: string, lead: string, open: string, gap: string, name: string,
                                       arguments: string, end: string, close: string, rest: string, behind: string)
    requires text == u + (lead + (open + (gap + ("{" + (name + arguments) + "}") + end) + close) + rest)
    requires behind == "}" + (end + (close + rest))
    ensures text == u + lead + open + (gap + ("{" + (name + arguments + behind)))
  {
    assert ("{" + (name + arguments) + "}") + (end + (close + rest)) == "{" + (name + arguments + behind);
    assert (gap + ("{" + (name + arguments) + "}") + end) + (close + rest) == gap + (("{" + (name + arguments) + "}") + (end + (close + rest)));
    CallParts(text, u, lead, open, gap + ("{" + (name + arguments) + "}") + end, close, rest);
  }

  lemma ThreeParts(text: string, w: string, a: string, b: string, c: string)
    requires text == w + (a + b + c)
    ensures text == w + a + (b + c) && text == (w + a) + b + c && text == (w + a + b) + c
    ensures |w + a| == |w| + |a| && |w + a + b| == |w + a| + |b|
  {
  }

  /** One actual JSON call is passed without reporting anything. */
  lemma {:induction false} PassesJsonCall(text: string, lex: Lexicon, st: State, u: string, lead: string, call: JsonCall,
                                          style: Style, rest: string, before: seq<Tag>)
    returns (u': string, st': State)
    requires Stylish(style) && DecodesKeys(lex) && WellFormedCall(call) && Quiet(lead)
    requires text == u + (lead + ToolTurns.Wrapped(PrintCall(call, style)) + rest)
    requires Calm(text, lex, st) && st.pos == |u| && Actual(text, st, |u| + |lead|)
    ensures text == u' + rest && InCall(text, lex, st', |u'|, OUTSIDE) && SameTags(text, lex, st, st', before)
  {
    var name, arguments, behind := PrintName(call, style), PrintArguments(call, style), "}" + (call.end + (CLOSE + rest));
    ObjectParts(text, u, lead, OPEN, call.gap, name, arguments, call.end, CLOSE, rest, behind);
    var w, open := OpensJson(text, lex, st, u, lead, call.gap, name + arguments + behind, before);
    ThreeParts(text, w, name, arguments, behind);
    var named := PassesName(text, lex, open, w, call, style, arguments + behind, before);
    var read := PassesArguments(text, lex, named, w + name, call, style, behind, before);
    u', st' := PassesJsonEnd(text, lex, read, w + name + arguments, call.end, rest, before);
  }

  predicate WellFormedCalls(calls: seq<JsonCall>) {
    forall i :: 0 <= i < |calls| ==> WellFormedCall(calls[i])
  }

  function PrintCalls(calls: seq<JsonCall>, style: Style): (r: seq<string>)
    ensures |r| == |calls| && forall i :: 0 <= i < |r| ==> r[i] == PrintCall(calls[i], style)
  {
    seq(|calls|, i requires 0 <= i < |calls| => PrintCall(calls[i], style))
  }

  lemma JsonTurnStarts(leads: seq<string>, calls: seq<JsonCall>, style: Style, tail: string)
    requires |leads| == |calls| > 0
    ensures PrintCalls(calls, style)[1..] == PrintCalls(calls[1..], style)
    ensures ToolTurns.Turn(leads, PrintCalls(calls, style), tail)
         == leads[0] + ToolTurns.Wrapped(PrintCall(calls[0], style)) + ToolTurns.Turn(leads[1..], PrintCalls(calls[1..], style), tail)
  {
    assert PrintCalls(calls, style)[1..] == PrintCalls(calls[1..], style);
  }

  /** From the start of the first call on, a turn of actual JSON calls reports no tag at all. */
  lemma {:induction false} PassesJsonTurn(text: string, lex: Lexicon, st: State, u: string, leads: seq<string>, calls: seq<JsonCall>,
                                          style: Style, tail: string, before: seq<Tag>)
    requires Stylish(style) && DecodesKeys(lex) && |leads| == |calls| && WellFormedCalls(calls) && AllQuiet(leads) && Quiet(tail)
    requires text == u + ToolTurns.Turn(leads, PrintCalls(calls, style), tail) && Calm(text, lex, st) && st.pos == |u|
    requires leads != [] ==> Actual(text, st, |u| + |leads[0]|)
    ensures TagsFrom(text, lex, st, before) == before
    decreases |leads|
  {
    if leads == [] {
      assert text[|u|..] == tail;
      NothingLeft(text, lex, st, before);
    } else {
      JsonTurnStarts(leads, calls, style, tail);
      var rest := ToolTurns.Turn(leads[1..], PrintCalls(calls[1..], style), tail);
      var u', st' := PassesJsonCall(text, lex, st, u, leads[0], calls[0], style, rest, before);
      PassesJsonTurn(text, lex, st', u', leads[1..], calls[1..], style, tail, before);
    }
  }
}
