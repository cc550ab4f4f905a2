/**
 The Qwen coder dialect (proxyserver/tokenization/tool_parser.py, Qwen3CoderToolParser): its block parser, the form
 its chat templates print, and the round trip between them.
 */
module QwenCalls {
  import opened Wrappers
  import opened Text
  import opened Markup
  import opened Sections
  import opened ToolBlocks
  import ToolTurns

  const FUNCTION := "<function="
  const FUNCTION_END := "</function>"
  const PARAMETER := "<parameter="
  const PARAMETER_END := "</parameter>"

  /** How a value's text is typed, by function name and key; text parameters keep their text. */
  type Coercion = (string, string, string) -> string

  // ---- The block parser -------------------------------------------------------

  /** A dictionary assignment: an existing key keeps its place and takes the new value. */
  function Put(arguments: seq<(string, string)>, key: string, value: string): seq<(string, string)> {
    if arguments == [] then [(key, value)]
    else if arguments[0].0 == key then [(key, value)] + arguments[1..]
    else [arguments[0]] + Put(arguments[1..], key, value)
  }

  /** The template writes one newline on each side of a value, and only those are removed. */
  function Unpadded(value: string): string {
    var v := if value != "" && value[0] == '\n' then value[1..] else value;
    if v != "" && v[|v| - 1] == '\n' then v[..|v| - 1] else v
  }

  function Arguments(name: string, coerce: Coercion, params: seq<(string, string)>): seq<(string, string)> {
    if params == [] then []
    else
      var (key, value) := params[|params| - 1];
      Put(Arguments(name, coerce, params[..|params| - 1]), key, coerce(name, key, Unpadded(value)))
  }

  /** The sections of a text with their contents, and whether only whitespace lies between and after them. */
  function Split(text: string, open: string, close: string): (seq<(string, string)>, bool) {
    SpansAreOrdered(text, open, close, 0, []);
    var spans := SpansFrom(text, open, close, 0, []);
    (Contents(text, open, close, spans), NothingStranded(text, close, spans))
  }

  /** One function section, unless its own markup was damaged. */
  function ParseFunction(name: string, body: string, coerce: Coercion): Option<Call> {
    var (params, wellFormed) := Split(body, PARAMETER, PARAMETER_END);
    if !wellFormed || (params == [] && !Blank(body)) then None
    else Some(Call(name, Arguments(name, coerce, params)))
  }

  function ParseFunctions(functions: seq<(string, string)>, coerce: Coercion): Option<seq<Call>> {
    if functions == [] then Some([])
    else
      var earlier := ParseFunctions(functions[..|functions| - 1], coerce);
      var last := ParseFunction(functions[|functions| - 1].0, functions[|functions| - 1].1, coerce);
      if earlier.None? || last.None? then None else Some(earlier.value + [last.value])
  }

  function ParseBlock(block: string, coerce: Coercion): Option<seq<Call>> {
    var (functions, wellFormed) := Split(block, FUNCTION, FUNCTION_END);
    if !wellFormed then None else ParseFunctions(functions, coerce)
  }

  lemma Openers()
    ensures Opener(FUNCTION) && Opener(PARAMETER)
  {
    assert FUNCTION[1] == 'f' && PARAMETER[1] == 'p';
  }

  lemma ArgumentsNext(name: string, coerce: Coercion, params: seq<(string, string)>, i: nat)
    requires i < |params|
    ensures Arguments(name, coerce, params[..i + 1])
         == Put(Arguments(name, coerce, params[..i]), params[i].0, coerce(name, params[i].0, Unpadded(params[i].1)))
  {
    assert params[..i + 1][..i] == params[..i];
  }

  method FunctionCall(name: string, body: string, coerce: Coercion) returns (call: Option<Call>)
    ensures call == ParseFunction(name, body, coerce)
  {
    Openers();
    var params, wellFormed, spans, examined := SplitSections(body, PARAMETER, PARAMETER_END);
    if !wellFormed || (params == [] && !Blank(body)) {
      return None;
    }
    var arguments: seq<(string, string)> := [];
    for i := 0 to |params|
      invariant arguments == Arguments(name, coerce, params[..i])
    {
      ArgumentsNext(name, coerce, params, i);
      arguments := Put(arguments, params[i].0, coerce(name, params[i].0, Unpadded(params[i].1)));
    }
    assert params[..|params|] == params;
    call := Some(Call(name, arguments));
  }

  lemma {:induction false} DamagedStays(functions: seq<(string, string)>, i: nat, n: nat, coerce: Coercion)
    requires i <= n <= |functions| && ParseFunctions(functions[..i], coerce).None?
    ensures ParseFunctions(functions[..n], coerce).None?
  {
    if i < n {
      DamagedStays(functions, i, n - 1, coerce);
      assert functions[..n][..n - 1] == functions[..n - 1];
    }
  }

  method FunctionCalls(functions: seq<(string, string)>, coerce: Coercion) returns (calls: Option<seq<Call>>)
    ensures calls == ParseFunctions(functions, coerce)
  {
    var parsed: seq<Call> := [];
    for i := 0 to |functions|
      invariant ParseFunctions(functions[..i], coerce) == Some(parsed)
    {
      assert functions[..i + 1][..i] == functions[..i];
      var call := FunctionCall(functions[i].0, functions[i].1, coerce);
      if call.None? {
        DamagedStays(functions, i + 1, |functions|, coerce);
        assert functions[..|functions|] == functions;
        return None;
      }
      parsed := parsed + [call.value];
    }
    assert functions[..|functions|] == functions;
    calls := Some(parsed);
  }

  method BlockCalls(block: string, coerce: Coercion) returns (calls: Option<seq<Call>>)
    ensures calls == ParseBlock(block, coerce)
  {
    Openers();
    var functions, wellFormed, spans, examined := SplitSections(block, FUNCTION, FUNCTION_END);
    if !wellFormed {
      return None;
    }
    calls := FunctionCalls(functions, coerce);
  }

  // ---- The printed form ----------------------------------------------------------

  function PrintParameter(key: string, value: string): string {
    PARAMETER + key + ">" + "\n" + value + "\n" + PARAMETER_END
  }

  function PrintParameters(arguments: seq<(string, string)>): string {
    if arguments == [] then ""
    else PrintParameter(arguments[0].0, arguments[0].1) + "\n" + PrintParameters(arguments[1..])
  }

  function PrintFunction(call: Call): string {
    FUNCTION + call.name + ">" + "\n" + PrintParameters(call.arguments) + FUNCTION_END
  }

  /** What stands between the tool-call markers. */
  function PrintInner(call: Call): string {
    "\n" + PrintFunction(call) + "\n"
  }

  predicate DistinctKeys(arguments: seq<(string, string)>) {
    forall i, j :: 0 <= i < j < |arguments| ==> arguments[i].0 != arguments[j].0
  }

  /** A value may hold anything but a closing marker of the dialect, newlines and opening markers included. */
  ghost predicate Printable(key: string, value: string) {
    Clean(key) && Free(value, PARAMETER_END) && Free(value, FUNCTION_END)
  }

  /** Inside a whole turn, the marker that closes a block counts too. */
  ghost predicate ValuesFree(arguments: seq<(string, string)>, marker: string) {
    forall i :: 0 <= i < |arguments| ==> Free(arguments[i].1, marker)
  }

  predicate KeysClean(arguments: seq<(string, string)>) {
    forall i :: 0 <= i < |arguments| ==> Clean(arguments[i].0)
  }

  ghost predicate PrintableCall(call: Call) {
    && Clean(call.name) && DistinctKeys(call.arguments)
    && forall i :: 0 <= i < |call.arguments| ==> Printable(call.arguments[i].0, call.arguments[i].1)
  }

  /** Every argument of the call is declared as text. */
  ghost predicate TextTyped(coerce: Coercion, call: Call) {
    forall key, value :: coerce(call.name, key, value) == value
  }

  // ---- No closing marker is printed inside -------------------------------------------

  lemma Tags()
    ensures Tag(OPEN) && Tag(CLOSE) && Tag(FUNCTION_END) && Tag(PARAMETER_END) && Tag(PARAMETER) && Tag(FUNCTION)
  {
  }

  predicate Foreign(marker: string) {
    marker == CLOSE || marker == FUNCTION_END
  }

  lemma OpenTagFree(open: string, name: string, marker: string)
    requires open == PARAMETER || open == FUNCTION
    requires marker == CLOSE || marker == FUNCTION_END || marker == PARAMETER_END
    requires NoAngles(name)
    ensures Free(open + name + ">", marker)
  {
    Tags();
    var text := open + name + ">";
    assert text[1] == open[1] && text[1] != '/';
    NotAt(text, marker, 0, 1);
    FreeTag(text, marker);
  }

  lemma CloseTagFree(marker: string)
    requires Foreign(marker)
    ensures Free(PARAMETER_END, marker)
  {
    Tags();
    assert marker[2] != PARAMETER_END[2];
    NotAt(PARAMETER_END, marker, 0, 2);
    FreeTag(PARAMETER_END, marker);
  }

  lemma ValueFree(value: string, marker: string)
    requires Tag(marker) && Free(value, marker)
    ensures Free("\n" + value + "\n", marker)
  {
    FreeLine(marker);
    FreeConcat("\n", value, marker);
    FreeConcat("\n" + value, "\n", marker);
  }

  lemma ParameterFree(key: string, value: string, marker: string)
    requires Clean(key) && Foreign(marker) && Free(value, marker)
    ensures Free(PrintParameter(key, value) + "\n", marker)
  {
    Tags();
    OpenTagFree(PARAMETER, key, marker);
    CloseTagFree(marker);
    ValueFree(value, marker);
    FreeLine(marker);
    var head := PARAMETER + key + ">";
    FreeConcat(head, "\n" + value + "\n", marker);
    FreeConcat(head + ("\n" + value + "\n"), PARAMETER_END, marker);
    FreeConcat(head + ("\n" + value + "\n") + PARAMETER_END, "\n", marker);
    assert head + ("\n" + value + "\n") + PARAMETER_END == PrintParameter(key, value);
  }

  lemma {:induction false} ParametersFree(arguments: seq<(string, string)>, marker: string)
    requires Foreign(marker) && KeysClean(arguments) && ValuesFree(arguments, marker)
    ensures Free(PrintParameters(arguments), marker)
  {
    Tags();
    FreeLine(marker);
    if arguments != [] {
      ParameterFree(arguments[0].0, arguments[0].1, marker);
      assert forall i :: 0 <= i < |arguments[1..]| ==> arguments[1..][i] == arguments[i + 1];
      ParametersFree(arguments[1..], marker);
      FreeConcat(PrintParameter(arguments[0].0, arguments[0].1) + "\n", PrintParameters(arguments[1..]), marker);
    }
  }

  // ---- One printed section is read back -----------------------------------------------

  lemma NameIsRead(a: string, name: string, c: string)
    requires Clean(name)
    ensures NameEnd(a + name + ">" + c, |a|) == |a| + |name|
    ensures (a + name + ">" + c)[|a|..|a| + |name|] == name
    ensures NameOk(a + name + ">" + c, |a|, |a| + |name|)
  {
    var text := a + name + ">" + c;
    assert text[|a| + |name|] == '>';
    forall i | |a| <= i < |a| + |name| ensures text[i] == name[i - |a|] {
    }
    assert text[|a|..|a| + |name|] == name;
    assert !Blank(name);
    var r := NameEnd(text, |a|);
    assert forall i :: |a| <= i < |a| + |name| ==> text[i] != '>';
  }

  function SectionText(open: string, name: string, body: string, close: string): string {
    open + name + ">" + body + close
  }

  lemma BodyIsRead(text: string, head: string, body: string, close: string, rest: string)
    requires text == head + body + close + rest && Tag(close) && Free(body, close)
    ensures Find(text, close, |head|) == |head| + |body|
    ensures text[|head|..|head| + |body|] == body
  {
    FindMarker(head, body, close, rest);
  }

  lemma SectionSpan(text: string, open: string, close: string, start: nat, nameEnd: nat, end: nat)
    requires At(text, open, start) && start + |open| <= nameEnd <= |text|
    requires NameEnd(text, start + |open|) == nameEnd && NameOk(text, start + |open|, nameEnd)
    requires Find(text, close, nameEnd + 1) == end
    ensures SectionAt(text, open, close, start) == Some(Span(start, nameEnd, end))
  {
  }

  lemma SectionContent(text: string, open: string, span: Span, name: string, body: string)
    requires span.start + |open| <= span.nameEnd < span.close <= |text|
    requires text[span.start + |open|..span.nameEnd] == name && text[span.nameEnd + 1..span.close] == body
    requires name != "" && !IsSpace(name[0]) && !IsSpace(name[|name| - 1])
    ensures Content(text, open, span) == (name, body)
  {
    StripClean(name);
  }

  lemma SectionFound(text: string, open: string, close: string, start: nat, nameEnd: nat, end: nat, name: string, body: string)
    requires At(text, open, start) && start + |open| <= nameEnd < end <= |text| && Clean(name)
    requires NameEnd(text, start + |open|) == nameEnd && NameOk(text, start + |open|, nameEnd)
    requires text[start + |open|..nameEnd] == name
    requires Find(text, close, nameEnd + 1) == end && text[nameEnd + 1..end] == body
    ensures SectionAt(text, open, close, start) == Some(Span(start, nameEnd, end))
    ensures Content(text, open, Span(start, nameEnd, end)) == (name, body)
  {
    SectionSpan(text, open, close, start, nameEnd, end);
    SectionContent(text, open, Span(start, nameEnd, end), name, body);
  }

  lemma Regroup(u: string, open: string, name: string, body: string, close: string, rest: string)
    ensures var text := u + SectionText(open, name, body, close) + rest;
            text == u + open + name + ">" + (body + close + rest) && text == u + open + name + ">" + body + close + rest
  {
  }

  lemma OpenerStands(text: string, u: string, open: string, rest: string)
    requires text == u + open + rest
    ensures At(text, open, |u|)
  {
    assert text[|u|..|u| + |open|] == open;
  }

  function Printed(u: string, open: string, name: string, body: string, close: string, rest: string): (text: string) {
    u + SectionText(open, name, body, close) + rest
  }

  /** The name stands at this position, up to the next '>'. */
  predicate NameStands(text: string, from: nat, name: string) {
    && from + |name| <= |text| && NameEnd(text, from) == from + |name|
    && NameOk(text, from, from + |name|) && text[from..from + |name|] == name
  }

  predicate BodyStands(text: string, from: nat, body: string, close: string) {
    from + |body| <= |text| && Find(text, close, from) == from + |body| && text[from..from + |body|] == body
  }

  lemma PrintedOpenerStands(text: string, u: string, open: string, name: string, body: string, close: string, rest: string, start: nat)
    requires text == Printed(u, open, name, body, close, rest) && start == |u|
    ensures At(text, open, start)
  {
    var tail := name + ">" + body + close + rest;
    assert text == u + open + tail;
    OpenerStands(text, u, open, tail);
  }

  lemma PrintedNameStands(text: string, u: string, open: string, name: string, body: string, close: string, rest: string, from: nat)
    requires Clean(name) && text == Printed(u, open, name, body, close, rest) && from == |u| + |open|
    ensures NameStands(text, from, name)
  {
    var tail := body + close + rest;
    var head := u + open;
    Regroup(u, open, name, body, close, rest);
    NameIsRead(head, name, tail);
  }

  lemma PrintedBodyStands(text: string, u: string, open: string, name: string, body: string, close: string, rest: string, from: nat)
    requires Tag(close) && Free(body, close) && text == Printed(u, open, name, body, close, rest)
    requires from == |u| + |open| + |name| + 1
    ensures BodyStands(text, from, body, close)
  {
    Regroup(u, open, name, body, close, rest);
    BodyIsRead(text, u + open + name + ">", body, close, rest);
  }

  lemma SectionStands(text: string, open: string, close: string, start: nat, nameStart: nat, nameEnd: nat, bodyStart: nat, end: nat,
                      name: string, body: string)
    requires At(text, open, start) && Clean(name)
    requires nameStart == start + |open| && nameEnd == nameStart + |name| && bodyStart == nameEnd + 1 && end == bodyStart + |body|
    requires NameStands(text, nameStart, name) && BodyStands(text, bodyStart, body, close)
    ensures SectionAt(text, open, close, start) == Some(Span(start, nameEnd, end))
    ensures Content(text, open, Span(start, nameEnd, end)) == (name, body)
  {
    SectionFound(text, open, close, start, nameEnd, end, name, body);
  }

  /** A printed section, wherever it stands, is found with its name and its body. */
  lemma SectionIsRead(text: string, u: string, open: string, name: string, body: string, close: string, rest: string)
    returns (span: Span)
    requires Clean(name) && Tag(close) && Free(body, close) && text == Printed(u, open, name, body, close, rest)
    ensures span.start == |u| && span.nameEnd == |u| + |open| + |name| && span.close == span.nameEnd + 1 + |body|
    ensures SectionAt(text, open, close, span.start) == Some(span) && SpanInside(text, open, close, span)
    ensures Content(text, open, span) == (name, body)
  {
    var start := |u|;
    var nameStart := start + |open|;
    var nameEnd := nameStart + |name|;
    var bodyStart := nameEnd + 1;
    var end := bodyStart + |body|;
    PrintedOpenerStands(text, u, open, name, body, close, rest, start);
    PrintedNameStands(text, u, open, name, body, close, rest, nameStart);
    PrintedBodyStands(text, u, open, name, body, close, rest, bodyStart);
    SectionStands(text, open, close, start, nameStart, nameEnd, bodyStart, end, name, body);
    span := Span(start, nameEnd, end);
    SectionInside(text, open, close, span);
  }

  lemma SectionInside(text: string, open: string, close: string, span: Span)
    requires SectionAt(text, open, close, span.start) == Some(span)
    ensures SpanInside(text, open, close, span)
  {
  }

  lemma OpenerLast(u: string, open: string, name: string, body: string, close: string, rest: string)
    ensures Printed(u + "\n", open, name, body, close, rest) == u + "\n" + open + (name + ">" + body + close + rest)
  {
  }

  lemma LineSlice(text: string, u: string, rest: string)
    requires text == u + "\n" + rest
    ensures Slice(text, |u|, |u| + 1) == "\n"
  {
    assert text[|u|] == '\n';
  }

  lemma OpenerAfterLine(text: string, u: string, open: string, rest: string)
    requires Tag(open) && text == u + "\n" + open + rest
    ensures Find(text, open, |u|) == |u| + 1 && Slice(text, |u|, |u| + 1) == "\n"
  {
    FreeLine(open);
    FindMarker(u, "\n", open, rest);
    assert text == u + "\n" + (open + rest);
    LineSlice(text, u, open + rest);
  }

  /** After a line end, the opener is the next thing found. */
  lemma OpenerIsFound(u: string, open: string, name: string, body: string, close: string, rest: string)
    requires Tag(open)
    ensures var text := Printed(u + "\n", open, name, body, close, rest);
            Find(text, open, |u|) == |u| + 1 && Slice(text, |u|, |u| + 1) == "\n"
  {
    OpenerLast(u, open, name, body, close, rest);
    OpenerAfterLine(Printed(u + "\n", open, name, body, close, rest), u, open, name + ">" + body + close + rest);
  }

  // ---- All printed parameters are read back ---------------------------------------------

  function Padded(arguments: seq<(string, string)>): (r: seq<(string, string)>)
    ensures |r| == |arguments|
    ensures forall i :: 0 <= i < |r| ==> r[i] == (arguments[i].0, "\n" + arguments[i].1 + "\n")
  {
    seq(|arguments|, i requires 0 <= i < |arguments| => (arguments[i].0, "\n" + arguments[i].1 + "\n"))
  }

  ghost predicate AllPrintable(arguments: seq<(string, string)>) {
    forall i :: 0 <= i < |arguments| ==> Printable(arguments[i].0, arguments[i].1)
  }

  /** What has been read of a text up to a position, with only whitespace in the gaps. */
  ghost predicate ReadUpTo(text: string, open: string, close: string, spans: seq<Span>, pos: nat) {
    Inside(text, open, close, spans) && GapsBlank(text, close, spans) && GapFrom(close, spans) == pos
  }

  lemma ReadUpToNext(text: string, open: string, close: string, before: seq<Span>, pos: nat, span: Span)
    requires ReadUpTo(text, open, close, before, pos) && SectionAt(text, open, close, span.start) == Some(span)
    requires Blank(Slice(text, pos, span.start))
    ensures ReadUpTo(text, open, close, before + [span], span.close + |close|)
  {
    GapsAppend(text, close, before, span);
    ContentsAppend(text, open, close, before, span);
  }

  lemma ReadOne(text: string, open: string, close: string, before: seq<Span>, pos: nat, span: Span, end: nat,
                content: (string, string))
    requires ReadUpTo(text, open, close, before, pos) && NextRead(text, open, close, pos, span, end, content)
    ensures ReadUpTo(text, open, close, before + [span], end)
    ensures SpansFrom(text, open, close, pos, before) == SpansFrom(text, open, close, end, before + [span])
    ensures Contents(text, open, close, before + [span]) == Contents(text, open, close, before) + [content]
  {
    ReadUpToNext(text, open, close, before, pos, span);
    ContentsAppend(text, open, close, before, span);
    NextIsTaken(text, open, close, pos, pos + 1, end, span, before);
  }

  lemma PrintedParameter(u: string, key: string, value: string, rest: string)
    ensures u + "\n" + PrintParameter(key, value) + rest
         == Printed(u + "\n", PARAMETER, key, "\n" + value + "\n", PARAMETER_END, rest)
    ensures |PrintParameter(key, value)| == |PARAMETER| + |key| + 1 + |"\n" + value + "\n"| + |PARAMETER_END|
  {
    assert PrintParameter(key, value) == SectionText(PARAMETER, key, "\n" + value + "\n", PARAMETER_END);
  }

  /** A section after a line end is the next thing read, with only that line end before it. */
  ghost predicate NextRead(text: string, open: string, close: string, pos: nat, span: Span, end: nat, content: (string, string)) {
    && Find(text, open, pos) == span.start == pos + 1 && SectionAt(text, open, close, span.start) == Some(span)
    && span.close + |close| == end
    && Content(text, open, span) == content && Slice(text, pos, span.start) == "\n"
  }

  lemma SectionIsNext(text: string, u: string, open: string, name: string, body: string, close: string, rest: string)
    returns (span: Span)
    requires Clean(name) && Tag(open) && Tag(close) && Free(body, close)
    requires text == Printed(u + "\n", open, name, body, close, rest)
    ensures NextRead(text, open, close, |u|, span, |u| + 1 + |open| + |name| + 1 + |body| + |close|, (name, body))
  {
    span := SectionIsRead(text, u + "\n", open, name, body, close, rest);
    OpenerIsFound(u, open, name, body, close, rest);
  }

  /** The first parameter after a line end, and where it ends. */
  lemma ParameterIsRead(text: string, u: string, key: string, value: string, rest: string, end: nat) returns (span: Span)
    requires Printable(key, value) && text == u + "\n" + PrintParameter(key, value) + rest
    requires end == |u| + 1 + |PrintParameter(key, value)|
    ensures NextRead(text, PARAMETER, PARAMETER_END, |u|, span, end, (key, "\n" + value + "\n"))
  {
    Tags();
    ValueFree(value, PARAMETER_END);
    PrintedParameter(u, key, value, rest);
    span := SectionIsNext(text, u, PARAMETER, key, "\n" + value + "\n", PARAMETER_END, rest);
  }

  lemma ParametersEnd(text: string, u: string, before: seq<Span>)
    requires text == u + "\n"
    ensures SpansFrom(text, PARAMETER, PARAMETER_END, |u|, before) == before
    ensures Slice(text, |u|, |text|) == "\n"
  {
    Tags();
    FreeLine(PARAMETER);
    FindNoMarker(u, "\n", PARAMETER);
    NothingIsNext(text, PARAMETER, PARAMETER_END, |u|, before);
    assert text[|u|..|text|] == "\n";
  }

  ghost predicate ReadAs(text: string, spans: seq<Span>, contents: seq<(string, string)>) {
    && Inside(text, PARAMETER, PARAMETER_END, spans) && GapsBlank(text, PARAMETER_END, spans)
    && Slice(text, GapFrom(PARAMETER_END, spans), |text|) == "\n"
    && Contents(text, PARAMETER, PARAMETER_END, spans) == contents
  }

  lemma {:induction false} ParametersAreRead(text: string, u: string, arguments: seq<(string, string)>, before: seq<Span>)
    requires AllPrintable(arguments) && text == u + "\n" + PrintParameters(arguments)
    requires ReadUpTo(text, PARAMETER, PARAMETER_END, before, |u|)
    ensures ReadAs(text, SpansFrom(text, PARAMETER, PARAMETER_END, |u|, before),
                   Contents(text, PARAMETER, PARAMETER_END, before) + Padded(arguments))
    decreases |arguments|
  {
    if arguments == [] {
      assert text == u + "\n";
      ParametersEnd(text, u, before);
      EmptyConcat(Contents(text, PARAMETER, PARAMETER_END, before));
    } else {
      NextParameter(text, u, arguments, before);
    }
  }

  lemma SplitFirst(text: string, u: string, arguments: seq<(string, string)>) returns (u': string)
    requires arguments != [] && text == u + "\n" + PrintParameters(arguments)
    ensures u' == u + "\n" + PrintParameter(arguments[0].0, arguments[0].1)
    ensures text == u' + ("\n" + PrintParameters(arguments[1..]))
    ensures text == u' + "\n" + PrintParameters(arguments[1..])
    ensures |u'| == |u| + 1 + |PrintParameter(arguments[0].0, arguments[0].1)|
  {
    var first := PrintParameter(arguments[0].0, arguments[0].1);
    var rest := PrintParameters(arguments[1..]);
    u' := u + "\n" + first;
    Associate(u + "\n", first, "\n", rest);
  }

  lemma Associate(a: string, b: string, c: string, d: string)
    ensures a + (b + c + d) == a + b + (c + d) == a + b + c + d
  {
  }

  /** Reading one parameter leaves the same text with the rest of the arguments. */
  lemma ReadFirst(text: string, u: string, arguments: seq<(string, string)>, before: seq<Span>)
    returns (u': string, longer: seq<Span>)
    requires arguments != []
    requires Printable(arguments[0].0, arguments[0].1) && text == u + "\n" + PrintParameters(arguments)
    requires ReadUpTo(text, PARAMETER, PARAMETER_END, before, |u|)
    ensures text == u' + "\n" + PrintParameters(arguments[1..])
    ensures ReadUpTo(text, PARAMETER, PARAMETER_END, longer, |u'|)
    ensures SpansFrom(text, PARAMETER, PARAMETER_END, |u|, before) == SpansFrom(text, PARAMETER, PARAMETER_END, |u'|, longer)
    ensures Contents(text, PARAMETER, PARAMETER_END, longer)
         == Contents(text, PARAMETER, PARAMETER_END, before) + [(arguments[0].0, "\n" + arguments[0].1 + "\n")]
  {
    u' := SplitFirst(text, u, arguments);
    var span := ParameterIsRead(text, u, arguments[0].0, arguments[0].1, "\n" + PrintParameters(arguments[1..]), |u'|);
    ReadOne(text, PARAMETER, PARAMETER_END, before, |u|, span, |u'|, (arguments[0].0, "\n" + arguments[0].1 + "\n"));
    longer := before + [span];
  }

  lemma NextParameter(text: string, u: string, arguments: seq<(string, string)>, before: seq<Span>)
    requires arguments != []
    requires AllPrintable(arguments) && text == u + "\n" + PrintParameters(arguments)
    requires ReadUpTo(text, PARAMETER, PARAMETER_END, before, |u|)
    ensures ReadAs(text, SpansFrom(text, PARAMETER, PARAMETER_END, |u|, before),
                   Contents(text, PARAMETER, PARAMETER_END, before) + Padded(arguments))
    decreases |arguments|, 0
  {
    var rest := arguments[1..];
    assert Printable(arguments[0].0, arguments[0].1);
    assert AllPrintable(rest) by {
      assert forall i :: 0 <= i < |rest| ==> rest[i] == arguments[i + 1];
    }
    var u', longer := ReadFirst(text, u, arguments, before);
    ParametersAreRead(text, u', rest, longer);
    PaddedFirst(Contents(text, PARAMETER, PARAMETER_END, before), arguments);
  }

  lemma PaddedFirst(done: seq<(string, string)>, arguments: seq<(string, string)>)
    requires arguments != []
    ensures done + Padded(arguments) == done + [(arguments[0].0, "\n" + arguments[0].1 + "\n")] + Padded(arguments[1..])
  {
    var first := (arguments[0].0, "\n" + arguments[0].1 + "\n");
    assert Padded(arguments) == [first] + Padded(arguments[1..]);
    ConcatAssociates(done, first, Padded(arguments[1..]));
  }

  lemma ConcatAssociates<T>(a: seq<T>, x: T, b: seq<T>)
    ensures a + [x] + b == a + ([x] + b)
  {
  }

  // ---- A printed call is parsed back ---------------------------------------------------------

  lemma {:induction false} PutNew(arguments: seq<(string, string)>, key: string, value: string)
    requires forall i :: 0 <= i < |arguments| ==> arguments[i].0 != key
    ensures Put(arguments, key, value) == arguments + [(key, value)]
  {
    if arguments != [] {
      assert forall i :: 0 <= i < |arguments[1..]| ==> arguments[1..][i] == arguments[i + 1];
      PutNew(arguments[1..], key, value);
      assert arguments == [arguments[0]] + arguments[1..];
    }
  }

  lemma UnpaddedValue(value: string)
    ensures Unpadded("\n" + value + "\n") == value
  {
    assert ("\n" + value + "\n")[1..] == value + "\n";
    assert (value + "\n")[..|value|] == value;
  }

  lemma {:induction false} ArgumentsAreRead(name: string, coerce: Coercion, arguments: seq<(string, string)>, n: nat)
    requires n <= |arguments| && DistinctKeys(arguments)
    requires forall key, value :: coerce(name, key, value) == value
    ensures Arguments(name, coerce, Padded(arguments)[..n]) == arguments[..n]
  {
    if n > 0 {
      ArgumentsAreRead(name, coerce, arguments, n - 1);
      UnpaddedValue(arguments[n - 1].1);
      assert Padded(arguments)[..n][..n - 1] == Padded(arguments)[..n - 1];
      PutNew(arguments[..n - 1], arguments[n - 1].0, arguments[n - 1].1);
      assert arguments[..n] == arguments[..n - 1] + [arguments[n - 1]];
    }
  }

  function BodyOf(call: Call): string {
    "\n" + PrintParameters(call.arguments)
  }

  lemma ParametersSplit(call: Call)
    requires PrintableCall(call)
    ensures Split(BodyOf(call), PARAMETER, PARAMETER_END) == (Padded(call.arguments), true)
  {
    var text := BodyOf(call);
    assert text == "" + "\n" + PrintParameters(call.arguments);
    ParametersAreRead(text, "", call.arguments, []);
    EmptyConcat(Padded(call.arguments));
    assert Blank("\n");
  }

  lemma FunctionIsRead(call: Call, coerce: Coercion)
    requires PrintableCall(call) && TextTyped(coerce, call)
    ensures ParseFunction(call.name, BodyOf(call), coerce) == Some(call)
  {
    ParametersSplit(call);
    ArgumentsAreRead(call.name, coerce, call.arguments, |call.arguments|);
    assert Padded(call.arguments)[..|call.arguments|] == Padded(call.arguments);
    assert call.arguments[..|call.arguments|] == call.arguments;
    if call.arguments == [] {
      assert BodyOf(call) == "\n";
    }
  }

  lemma BodyFree(call: Call, marker: string)
    requires KeysClean(call.arguments) && Foreign(marker) && ValuesFree(call.arguments, marker)
    ensures Free(BodyOf(call), marker)
  {
    Tags();
    FreeLine(marker);
    ParametersFree(call.arguments, marker);
    FreeConcat("\n", PrintParameters(call.arguments), marker);
  }

  lemma PrintedFunction(call: Call)
    ensures PrintFunction(call) == Printed("", FUNCTION, call.name, BodyOf(call), FUNCTION_END, "")
    ensures |PrintFunction(call)| == |FUNCTION| + |call.name| + 1 + |BodyOf(call)| + |FUNCTION_END|
  {
  }

  lemma OnlySection(text: string, open: string, close: string, span: Span)
    requires Tag(open) && SectionAt(text, open, close, 0) == Some(span) && span.close + |close| == |text|
    ensures SpansFrom(text, open, close, 0, []) == [span]
  {
    FindIs(text, open, 0, 0);
    NextIsTaken(text, open, close, 0, 0, |text|, span, []);
    FreeLine(open);
    FindNoMarker(text, "", open);
    EmptyConcat(text);
    NothingIsNext(text, open, close, |text|, [span]);
    EmptyConcat([span]);
    SameThroughout(SpansFrom(text, open, close, 0, []), SpansFrom(text, open, close, |text|, [span]), [span]);
  }

  lemma SectionAlone(text: string, open: string, name: string, body: string, close: string) returns (span: Span)
    requires Clean(name) && Tag(open) && Tag(close) && Free(body, close)
    requires text == Printed("", open, name, body, close, "")
    ensures SpansFrom(text, open, close, 0, []) == [span]
    ensures span.start + |open| <= span.nameEnd < span.close && span.close + |close| == |text|
    ensures Content(text, open, span) == (name, body)
  {
    span := SectionIsRead(text, "", open, name, body, close, "");
    OnlySection(text, open, close, span);
  }

  lemma FunctionSpan(call: Call) returns (span: Span)
    requires PrintableCall(call)
    ensures SpansFrom(PrintFunction(call), FUNCTION, FUNCTION_END, 0, []) == [span]
    ensures span.start + |FUNCTION| <= span.nameEnd < span.close && span.close + |FUNCTION_END| == |PrintFunction(call)|
    ensures Content(PrintFunction(call), FUNCTION, span) == (call.name, BodyOf(call))
  {
    Tags();
    BodyFree(call, FUNCTION_END);
    PrintedFunction(call);
    span := SectionAlone(PrintFunction(call), FUNCTION, call.name, BodyOf(call), FUNCTION_END);
  }

  lemma FunctionSplit(call: Call)
    requires PrintableCall(call)
    ensures Split(PrintFunction(call), FUNCTION, FUNCTION_END) == ([(call.name, BodyOf(call))], true)
  {
    var span := FunctionSpan(call);
    var text := PrintFunction(call);
    assert Contents(text, FUNCTION, FUNCTION_END, [span]) == [Content(text, FUNCTION, span)];
    assert Slice(text, |text|, |text|) == "";
  }

  lemma OneFunction(name: string, body: string, coerce: Coercion, call: Call)
    requires ParseFunction(name, body, coerce) == Some(call)
    ensures ParseFunctions([(name, body)], coerce) == Some([call])
  {
    var functions := [(name, body)];
    assert functions[..|functions| - 1] == [];
    assert ParseFunctions([], coerce) == Some([]);
    assert [] + [call] == [call];
  }

  lemma SplitDecides(block: string, coerce: Coercion, functions: seq<(string, string)>)
    requires Split(block, FUNCTION, FUNCTION_END) == (functions, true)
    ensures ParseBlock(block, coerce) == ParseFunctions(functions, coerce)
  {
  }

  /** The block parser gives back the printed call. */
  lemma BlockIsRead(call: Call, coerce: Coercion)
    requires PrintableCall(call) && TextTyped(coerce, call)
    ensures ParseBlock(PrintFunction(call), coerce) == Some([call])
  {
    FunctionSplit(call);
    FunctionIsRead(call, coerce);
    OneFunction(call.name, BodyOf(call), coerce, call);
    SplitDecides(PrintFunction(call), coerce, [(call.name, BodyOf(call))]);
  }

  // ---- Through the outer scan ------------------------------------------------------------------

  function Parser(coerce: Coercion): BlockParser {
    (block: string) => ParseBlock(block, coerce)
  }

  lemma FunctionFree(call: Call)
    requires PrintableCall(call) && ValuesFree(call.arguments, CLOSE)
    ensures Free(PrintInner(call), CLOSE)
  {
    Tags();
    OpenTagFree(FUNCTION, call.name, CLOSE);
    BodyFree(call, CLOSE);
    var head := FUNCTION + call.name + ">";
    NotAt(FUNCTION_END, CLOSE, 0, 2);
    FreeTag(FUNCTION_END, CLOSE);
    FreeConcat(head, BodyOf(call), CLOSE);
    FreeConcat(head + BodyOf(call), FUNCTION_END, CLOSE);
    assert head + BodyOf(call) + FUNCTION_END == PrintFunction(call);
    ValueFree(PrintFunction(call), CLOSE);
  }

  lemma FunctionStripped(call: Call)
    requires Clean(call.name)
    ensures Strip(PrintInner(call)) == PrintFunction(call)
  {
    var block := PrintFunction(call);
    assert block[0] == '<' && block[|block| - 1] == '>';
    StripPadded("\n", block, "\n");
  }

  function PrintAll(calls: seq<Call>): (r: seq<string>)
    ensures |r| == |calls| && forall i :: 0 <= i < |r| ==> r[i] == PrintInner(calls[i])
  {
    seq(|calls|, i requires 0 <= i < |calls| => PrintInner(calls[i]))
  }

  lemma CallYields(call: Call, coerce: Coercion)
    requires PrintableCall(call) && ValuesFree(call.arguments, CLOSE) && TextTyped(coerce, call)
    ensures ToolTurns.Yields(Parser(coerce), PrintInner(call), call)
  {
    FunctionFree(call);
    FunctionStripped(call);
    BlockIsRead(call, coerce);
  }

  /**
   Printing any number of calls between texts without an opener, and parsing the turn, gives back exactly those calls:
   the same names, keys and values in the same order, inner newlines and mentions of opening markup included.
   */
  lemma PrintedCallsRoundTrip(leads: seq<string>, calls: seq<Call>, tail: string, coerce: Coercion)
    requires |leads| == |calls| && ToolTurns.AllFree(leads) && Free(tail, OPEN)
    requires forall i :: 0 <= i < |calls| ==>
               PrintableCall(calls[i]) && ValuesFree(calls[i].arguments, CLOSE) && TextTyped(coerce, calls[i])
    ensures AllCalls(Pieces(ToolTurns.Turn(leads, PrintAll(calls), tail), Parser(coerce), 0, [])) == calls
  {
    forall i | 0 <= i < |calls| ensures ToolTurns.Yields(Parser(coerce), PrintAll(calls)[i], calls[i]) {
      CallYields(calls[i], coerce);
    }
    ToolTurns.TurnIsRead(leads, PrintAll(calls), tail, Parser(coerce), calls);
  }

  // ---- A value that closes its own section ------------------------------------------------

  lemma TailStranded(text: string, u: string, tail: string, span: Span, i: nat)
    requires text == u + tail && GapFrom(PARAMETER_END, [span]) == |u| && i < |tail| && !IsSpace(tail[i])
    ensures !NothingStranded(text, PARAMETER_END, [span])
  {
    assert text[|u|..|text|] == tail;
  }

  lemma OneSectionOnly(text: string, u: string, tail: string, span: Span, content: (string, string))
    requires text == u + tail && Free(tail, PARAMETER)
    requires NextRead(text, PARAMETER, PARAMETER_END, 0, span, |u|, content)
    ensures SpansFrom(text, PARAMETER, PARAMETER_END, 0, []) == [span]
  {
    Tags();
    NextIsTaken(text, PARAMETER, PARAMETER_END, 0, 1, |u|, span, []);
    FindNoMarker(u, tail, PARAMETER);
    NothingIsNext(text, PARAMETER, PARAMETER_END, |u|, [span]);
    EmptyConcat([span]);
    SameThroughout(SpansFrom(text, PARAMETER, PARAMETER_END, 0, []), SpansFrom(text, PARAMETER, PARAMETER_END, |u|, [span]), [span]);
  }

  lemma EarlyClose(key: string, a: string, b: string)
    ensures var tail := b + "\n" + PARAMETER_END + "\n";
            var text := "\n" + PrintParameter(key, a + PARAMETER_END + b) + "\n";
            && text == Printed("" + "\n", PARAMETER, key, "\n" + a, PARAMETER_END, tail)
            && text == "\n" + SectionText(PARAMETER, key, "\n" + a, PARAMETER_END) + tail
            && |tail| > |b| + 1 && tail[|b| + 1] == '<'
  {
  }

  /**
   A value that contains its own closing marker is reported as damaged markup, not cut short: nothing is called with a
   truncated argument, as long as what follows does not itself open another parameter.
   */
  lemma ClosedValueIsDamaged(name: string, key: string, a: string, b: string, coerce: Coercion)
    requires Clean(key) && Free(a, PARAMETER_END) && Free(b + "\n" + PARAMETER_END + "\n", PARAMETER)
    ensures ParseFunction(name, "\n" + PrintParameter(key, a + PARAMETER_END + b) + "\n", coerce) == None
  {
    Tags();
    var tail := b + "\n" + PARAMETER_END + "\n";
    var text := "\n" + PrintParameter(key, a + PARAMETER_END + b) + "\n";
    EarlyClose(key, a, b);
    FreeLine(PARAMETER_END);
    FreeConcat("\n", a, PARAMETER_END);
    var span := SectionIsNext(text, "", PARAMETER, key, "\n" + a, PARAMETER_END, tail);
    var u := "\n" + SectionText(PARAMETER, key, "\n" + a, PARAMETER_END);
    OneSectionOnly(text, u, tail, span, (key, "\n" + a));
    assert !IsSpace('<');
    TailStranded(text, u, tail, span, |b| + 1);
  }
}
