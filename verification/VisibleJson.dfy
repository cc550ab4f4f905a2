/**
 JSON tool calls and the reasoning scanner (proxyserver/tokenization/base.py, _reasoning_markers): a call printed as a
 JSON object is passed without reporting anything, whatever the strings among its arguments hold.
 */
module VisibleJson {
  import opened Wrappers
  import opened Text
  import opened Markup
  import opened ToolBlocks
  import opened ReasoningTokens
  import opened ReasoningMarks
  import opened ReasoningScan
  import opened VisibleCalls
  import ToolTurns

  // ---- JSON values and their printed form -----------------------------------------------

  /** A JSON value; a text is kept as it is written between its quotes. */
  datatype Json = Literal(word: string) | Text(raw: string) | Array(items: Items) | Object(members: Members)
  datatype Items = NoItems | Items(item: Json, others: Items)
  datatype Members = NoMembers | Members(key: string, value: Json, others: Members)

  /** How the printer separates items, and keys from values. */
  datatype Style = Style(comma: string, colon: string)

  predicate Stylish(style: Style) {
    && |style.comma| > 0 && style.comma[0] == ',' && Blank(style.comma[1..])
    && |style.colon| > 0 && style.colon[0] == ':' && Blank(style.colon[1..])
  }

  function Quoted(raw: string): string {
    "\"" + raw + "\""
  }

  function Print(v: Json, style: Style): string {
    match v
    case Literal(word) => word
    case Text(raw) => Quoted(raw)
    case Array(items) => "[" + PrintItems(items, style) + "]"
    case Object(members) => "{" + PrintMembers(members, style) + "}"
  }

  function PrintItems(items: Items, style: Style): string {
    match items
    case NoItems => ""
    case Items(item, others) => Print(item, style) + (if others.NoItems? then "" else style.comma) + PrintItems(others, style)
  }

  function PrintMembers(members: Members, style: Style): string {
    match members
    case NoMembers => ""
    case Members(key, value, others) =>
      Quoted(key) + style.colon + Print(value, style) + (if others.NoMembers? then "" else style.comma) + PrintMembers(others, style)
  }

  /** A string's text between its quotes: every quote and backslash in it is escaped. */
  predicate Escaped(raw: string) {
    if raw == "" then true
    else if raw[0] == '\\' then |raw| >= 2 && Escaped(raw[2..])
    else raw[0] != '"' && Escaped(raw[1..])
  }

  /** Strings and keys may hold anything, escaped; numbers and words hold no mark. */
  predicate WellFormed(v: Json) {
    match v
    case Literal(word) => Quiet(word)
    case Text(raw) => Escaped(raw)
    case Array(items) => ItemsWellFormed(items)
    case Object(members) => MembersWellFormed(members)
  }

  predicate ItemsWellFormed(items: Items) {
    match items
    case NoItems => true
    case Items(item, others) => WellFormed(item) && ItemsWellFormed(others)
  }

  predicate MembersWellFormed(members: Members) {
    match members
    case NoMembers => true
    case Members(key, value, others) => Escaped(key) && WellFormed(value) && MembersWellFormed(others)
  }

  // ---- Marks inside a JSON object ----------------------------------------------------------

  /** Inside an actual JSON call, with nothing but quiet text before this position. */
  predicate InJson(text: string, lex: Lexicon, st: State, pos: nat, depth: nat, arguments: nat) {
    && Calm(text, lex, st) && st.pos <= pos <= |text| && Quiet(text[st.pos..pos])
    && st.scope == Scope(true, false, depth, arguments, false) && st.inReasoning == Some(false)
  }

  lemma QuietOnwards(text: string, from: nat, to: nat, end: nat)
    requires from <= to <= end <= |text| && Quiet(text[from..to]) && Quiet(text[to..end])
    ensures Quiet(text[from..end])
  {
    forall i | 0 <= i < |text[from..end]| ensures !Structural(text[from..end][i]) {
      if from + i < to {
        assert text[from..end][i] == text[from..to][i];
      } else {
        assert text[from..end][i] == text[to..end][from + i - to];
      }
    }
  }

  lemma PassesQuiet(text: string, lex: Lexicon, st: State, u: string, w: string, rest: string, depth: nat, arguments: nat)
    requires InJson(text, lex, st, |u|, depth, arguments) && text == u + w + rest && Quiet(w)
    ensures InJson(text, lex, st, |u| + |w|, depth, arguments)
  {
    SliceOf(text, u, w, rest);
    QuietOnwards(text, st.pos, |u|, |u| + |w|);
  }

  lemma {:induction false} QuoteIsNext(text: string, lex: Lexicon, pos: nat, at: nat) returns (token: Token)
    requires pos <= at < |text| && Quiet(text[pos..at]) && text[at] == '"'
    ensures IsNext(text, lex, pos, token) && token.start == at && token.end == at + 1 && token.kind.Quote? && token.kind.double
  {
    token := Token(at, at + 1, QuoteKind(text, at, lex));
  }

  lemma {:induction false} BracketIsNext(text: string, lex: Lexicon, pos: nat, at: nat) returns (token: Token)
    requires pos <= at < |text| && Quiet(text[pos..at]) && text[at] in "{}[]"
    ensures IsNext(text, lex, pos, token)
    ensures token == Token(at, at + 1, if text[at] in "{[" then BracketOpen else BracketClose)
  {
    token := Token(at, at + 1, if text[at] in "{[" then BracketOpen else BracketClose);
  }

  /** A string among the arguments is skipped to the quote that ends it. */
  lemma {:induction false} TakesString(text: string, lex: Lexicon, st: State, at: nat, end: nat, depth: nat, arguments: nat,
                                       before: seq<Tag>)
    returns (st': State)
    requires InJson(text, lex, st, at, depth, arguments) && at < |text| && text[at] == '"' && depth > 0 && arguments > 0
    requires JsonStringEnd(text, at + 1, |text|) == end
    ensures InJson(text, lex, st', end, depth, arguments) && SameTags(text, lex, st, st', before)
  {
    var token := QuoteIsNext(text, lex, st.pos, at);
    PassesToken(text, lex, st, token, before);
    st' := Taken(text, lex, st, token, |text|);
    assert text[end..end] == "";
  }

  function BehindBracket(depth: nat, open: bool): nat
    requires depth > 0
  {
    if open then depth + 1 else depth - 1
  }

  function ArgumentsBehind(depth: nat, arguments: nat): nat {
    if depth < arguments then 0 else arguments
  }

  lemma {:induction false} TakesBracket(text: string, lex: Lexicon, st: State, at: nat, depth: nat, arguments: nat,
                                        before: seq<Tag>)
    returns (st': State)
    requires InJson(text, lex, st, at, depth, arguments) && at < |text| && text[at] in "{}[]" && depth > 0
    ensures var depth' := BehindBracket(depth, text[at] in "{[");
            InJson(text, lex, st', at + 1, depth', if text[at] in "{[" then arguments else ArgumentsBehind(depth', arguments))
    ensures SameTags(text, lex, st, st', before)
  {
    var token := BracketIsNext(text, lex, st.pos, at);
    PassesToken(text, lex, st, token, before);
    st' := Taken(text, lex, st, token, |text|);
    assert text[at + 1..at + 1] == "";
  }

  // ---- Strings ---------------------------------------------------------------------------------

  lemma {:induction false} StringEnds(text: string, u: string, raw: string, rest: string)
    requires Escaped(raw) && text == u + raw + "\"" + rest
    ensures |u| + |raw| + 1 <= |text| && JsonStringEnd(text, |u|, |text|) == |u| + |raw| + 1
    decreases |raw|
  {
    if raw == "" {
      assert text[|u|] == '"';
    } else if raw[0] == '\\' {
      assert text == (u + raw[..2]) + raw[2..] + "\"" + rest;
      StringEnds(text, u + raw[..2], raw[2..], rest);
      assert text[|u|] == raw[0];
    } else {
      assert text == (u + raw[..1]) + raw[1..] + "\"" + rest;
      StringEnds(text, u + raw[..1], raw[1..], rest);
      assert text[|u|] == raw[0];
    }
  }

  lemma QuotedText(text: string, u: string, raw: string, rest: string)
    requires text == u + Quoted(raw) + rest
    ensures |u| < |text| && text[|u|] == '"' && |Quoted(raw)| == |raw| + 2
    ensures text == (u + "\"") + raw + "\"" + rest
  {
    assert text == u + "\"" + (raw + "\"" + rest);
  }

  lemma {:induction false} PassesText(text: string, lex: Lexicon, st: State, u: string, raw: string, rest: string, depth: nat,
                                      arguments: nat, before: seq<Tag>)
    returns (st': State)
    requires InJson(text, lex, st, |u|, depth, arguments) && text == u + Quoted(raw) + rest && Escaped(raw)
    requires depth > 0 && arguments > 0
    ensures InJson(text, lex, st', |u| + |Quoted(raw)|, depth, arguments) && SameTags(text, lex, st, st', before)
  {
    QuotedText(text, u, raw, rest);
    StringEnds(text, u + "\"", raw, rest);
    st' := TakesString(text, lex, st, |u|, |u| + |Quoted(raw)|, depth, arguments, before);
  }

  // ---- Values --------------------------------------------------------------------------------------

  lemma Parts(text: string, u: string, a: string, b: string, c: string, rest: string)
    requires text == u + (a + b + c) + rest
    ensures text == u + a + (b + c + rest) && text == (u + a) + b + (c + rest) && text == (u + a + b) + c + rest
    ensures |u + a + b| == |u + a| + |b| == |u| + |a| + |b| && |a + b + c| == |a| + |b| + |c|
  {
  }

  lemma SeparatorIsQuiet(s: string, blank: string)
    requires s != "" && !Structural(s[0]) && blank == s[1..] && Blank(blank)
    ensures Quiet(s)
  {
    forall i | 0 <= i < |s| ensures !Structural(s[i]) {
      assert i > 0 ==> s[i] == blank[i - 1];
    }
  }

  lemma StyleIsQuiet(style: Style)
    requires Stylish(style)
    ensures Quiet(style.comma) && Quiet(style.colon)
  {
    assert !Structural(',') && !Structural(':');
    SeparatorIsQuiet(style.comma, style.comma[1..]);
    SeparatorIsQuiet(style.colon, style.colon[1..]);
  }

  lemma {:induction false} PassesBracket(text: string, lex: Lexicon, st: State, u: string, bracket: string, rest: string,
                                         depth: nat, arguments: nat, before: seq<Tag>)
    returns (st': State)
    requires InJson(text, lex, st, |u|, depth, arguments) && text == u + bracket + rest && depth > 0
    requires |bracket| == 1 && bracket[0] in "{}[]"
    ensures var depth' := BehindBracket(depth, bracket[0] in "{[");
            InJson(text, lex, st', |u| + 1, depth', if bracket[0] in "{[" then arguments else ArgumentsBehind(depth', arguments))
    ensures SameTags(text, lex, st, st', before)
  {
    assert text[|u|] == bracket[0];
    st' := TakesBracket(text, lex, st, |u|, depth, arguments, before);
  }

  /** A printed value among the arguments is passed in the same scope, whatever its strings and keys hold. */
  lemma {:induction false} PassesJson(text: string, lex: Lexicon, st: State, u: string, v: Json, style: Style, rest: string,
                                      depth: nat, arguments: nat, before: seq<Tag>)
    returns (st': State)
    requires Stylish(style) && WellFormed(v) && 0 < arguments <= depth
    requires InJson(text, lex, st, |u|, depth, arguments) && text == u + Print(v, style) + rest
    ensures InJson(text, lex, st', |u| + |Print(v, style)|, depth, arguments) && SameTags(text, lex, st, st', before)
    decreases v, 1
  {
    match v
    case Literal(word) =>
      PassesQuiet(text, lex, st, u, word, rest, depth, arguments);
      st' := st;
    case Text(raw) =>
      st' := PassesText(text, lex, st, u, raw, rest, depth, arguments, before);
    case Array(items) => st' := PassesArray(text, lex, st, u, items, style, rest, depth, arguments, before);
    case Object(members) => st' := PassesObject(text, lex, st, u, members, style, rest, depth, arguments, before);
  }

  lemma {:induction false} PassesArray(text: string, lex: Lexicon, st: State, u: string, items: Items, style: Style, rest: string,
                                       depth: nat, arguments: nat, before: seq<Tag>)
    returns (st': State)
    requires Stylish(style) && ItemsWellFormed(items) && 0 < arguments <= depth
    requires InJson(text, lex, st, |u|, depth, arguments) && text == u + ("[" + PrintItems(items, style) + "]") + rest
    ensures InJson(text, lex, st', |u| + |"[" + PrintItems(items, style) + "]"|, depth, arguments) && SameTags(text, lex, st, st', before)
    decreases items, 1
  {
    Parts(text, u, "[", PrintItems(items, style), "]", rest);
    var unclosed := PassesBracket(text, lex, st, u, "[", PrintItems(items, style) + "]" + rest, depth, arguments, before);
    var inside := PassesItems(text, lex, unclosed, u + "[", items, style, "]" + rest, depth + 1, arguments, before);
    st' := PassesBracket(text, lex, inside, u + "[" + PrintItems(items, style), "]", rest, depth + 1, arguments, before);
  }

  lemma {:induction false} PassesObject(text: string, lex: Lexicon, st: State, u: string, members: Members, style: Style, rest: string,
                                        depth: nat, arguments: nat, before: seq<Tag>)
    returns (st': State)
    requires Stylish(style) && MembersWellFormed(members) && 0 < arguments <= depth
    requires InJson(text, lex, st, |u|, depth, arguments) && text == u + ("{" + PrintMembers(members, style) + "}") + rest
    ensures InJson(text, lex, st', |u| + |"{" + PrintMembers(members, style) + "}"|, depth, arguments) && SameTags(text, lex, st, st', before)
    decreases members, 1
  {
    Parts(text, u, "{", PrintMembers(members, style), "}", rest);
    var unclosed := PassesBracket(text, lex, st, u, "{", PrintMembers(members, style) + "}" + rest, depth, arguments, before);
    var inside := PassesMembers(text, lex, unclosed, u + "{", members, style, "}" + rest, depth + 1, arguments, before);
    st' := PassesBracket(text, lex, inside, u + "{" + PrintMembers(members, style), "}", rest, depth + 1, arguments, before);
  }

  lemma {:induction false} PassesItems(text: string, lex: Lexicon, st: State, u: string, items: Items, style: Style, rest: string,
                                       depth: nat, arguments: nat, before: seq<Tag>)
    returns (st': State)
    requires Stylish(style) && ItemsWellFormed(items) && 0 < arguments <= depth
    requires InJson(text, lex, st, |u|, depth, arguments) && text == u + PrintItems(items, style) + rest
    ensures InJson(text, lex, st', |u| + |PrintItems(items, style)|, depth, arguments) && SameTags(text, lex, st, st', before)
    decreases items, 0
  {
    match items
    case NoItems => st' := st;
    case Items(item, others) =>
      var first, sep := Print(item, style), if others.NoItems? then "" else style.comma;
      var more := PrintItems(others, style);
      StyleIsQuiet(style);
      Parts(text, u, first, sep, more, rest);
      var next := PassesJson(text, lex, st, u, item, style, sep + more + rest, depth, arguments, before);
      PassesQuiet(text, lex, next, u + first, sep, more + rest, depth, arguments);
      st' := PassesItems(text, lex, next, u + first + sep, others, style, rest, depth, arguments, before);
  }

  lemma {:induction false} PassesMembers(text: string, lex: Lexicon, st: State, u: string, members: Members, style: Style, rest: string,
                                         depth: nat, arguments: nat, before: seq<Tag>)
    returns (st': State)
    requires Stylish(style) && MembersWellFormed(members) && 0 < arguments <= depth
    requires InJson(text, lex, st, |u|, depth, arguments) && text == u + PrintMembers(members, style) + rest
    ensures InJson(text, lex, st', |u| + |PrintMembers(members, style)|, depth, arguments) && SameTags(text, lex, st, st', before)
    decreases members, 0
  {
    match members
    case NoMembers => st' := st;
    case Members(key, value, others) =>
      var first, sep := Print(value, style), if others.NoMembers? then "" else style.comma;
      var more := PrintMembers(others, style);
      StyleIsQuiet(style);
      var named, w := PassesKey(text, lex, st, u, key, style.colon, first, sep, more, rest, depth, arguments, before);
      var next := PassesJson(text, lex, named, w, value, style, sep + more + rest, depth, arguments, before);
      PassesQuiet(text, lex, next, w + first, sep, more + rest, depth, arguments);
      st' := PassesMembers(text, lex, next, w + first + sep, others, style, rest, depth, arguments, before);
  }

  lemma MemberParts(text: string, u: string, key: string, colon: string, first: string, sep: string, more: string, rest: string)
    requires text == u + (key + colon + first + sep + more) + rest
    ensures text == u + key + (colon + (first + (sep + more + rest))) && text == (u + key) + colon + (first + (sep + more + rest))
    ensures text == (u + key + colon) + first + (sep + more + rest) && text == (u + key + colon + first) + sep + (more + rest)
    ensures text == (u + key + colon + first + sep) + more + rest
    ensures |u + key + colon| == |u| + |key| + |colon| && |u + key + colon + first| == |u| + |key| + |colon| + |first|
    ensures |u + key + colon + first + sep| == |u| + |key| + |colon| + |first| + |sep|
    ensures |key + colon + first + sep + more| == |key| + |colon| + |first| + |sep| + |more|
  {
  }

  /** A key among the arguments and the colon behind it. */
  lemma {:induction false} PassesKey(text: string, lex: Lexicon, st: State, u: string, key: string, colon: string,
                                     first: string, sep: string, more: string, rest: string, depth: nat, arguments: nat,
                                     before: seq<Tag>)
    returns (st': State, w: string)
    requires Escaped(key) && Quiet(colon) && 0 < arguments <= depth && InJson(text, lex, st, |u|, depth, arguments)
    requires text == u + (Quoted(key) + colon + first + sep + more) + rest
    ensures text == w + first + (sep + more + rest) && text == (w + first) + sep + (more + rest)
    ensures text == (w + first + sep) + more + rest && |w + first| == |w| + |first| && |w + first + sep| == |w| + |first| + |sep|
    ensures |w| + |first| + |sep| + |more| == |u| + |Quoted(key) + colon + first + sep + more|
    ensures InJson(text, lex, st', |w|, depth, arguments) && SameTags(text, lex, st, st', before)
  {
    w := u + Quoted(key) + colon;
    MemberParts(text, u, Quoted(key), colon, first, sep, more, rest);
    st' := PassesText(text, lex, st, u, key, colon + (first + (sep + more + rest)), depth, arguments, before);
    PassesQuiet(text, lex, st', u + Quoted(key), colon, first + (sep + more + rest), depth, arguments);
  }
}
