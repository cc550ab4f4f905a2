/**
 The GLM dialect (proxyserver/tokenization/tool_parser.py, GLMToolParser): its block parser, the form its chat
 template prints, and the round trip between them.
 */
module GlmCalls {
  import opened Wrappers
  import opened Text
  import opened Markup
  import opened ToolBlocks
  import QwenCalls
  import ToolTurns

  const KEY := "<arg_key>"
  const KEY_END := "</arg_key>"
  const VALUE := "<arg_value>"
  const VALUE_END := "</arg_value>"

  type Arguments = seq<(string, string)>

  // ---- The block parser --------------------------------------------------------

  /** The text before the first separator, whether there is one, and the text after it. */
  function Partition(text: string, separator: string): (string, bool, string) {
    var i := Find(text, separator, 0);
    if i < 0 then (text, false, "") else (text[..i], true, text[i + |separator|..])
  }

  predicate NameOk(name: string) {
    name != "" && NoAngles(name) && forall i :: 0 <= i < |name| ==> !IsSpace(name[i])
  }

  predicate HasKey(arguments: Arguments, key: string) {
    exists i :: 0 <= i < |arguments| && arguments[i].0 == key
  }

  datatype Step = Damaged | Done(arguments: Arguments) | More(arguments: Arguments, rest: string)

  /** One key and its value; `rest` follows the key's opener. */
  function ReadArgument(name: string, rest: string, arguments: Arguments, coerce: QwenCalls.Coercion): (step: Step)
    ensures step.More? ==> |step.rest| < |rest|
  {
    var (rawKey, keyClosed, afterKey) := Partition(rest, KEY_END);
    var key := Strip(rawKey);
    if !keyClosed || key == "" || !NoAngles(key) || HasKey(arguments, key) then Damaged
    else
      StripShortens(afterKey);
      var atValue := StripLeft(afterKey);
      if !StartsWith(atValue, VALUE) then Damaged
      else
        var (value, valueClosed, afterValue) := Partition(atValue[|VALUE|..], VALUE_END);
        if !valueClosed then Damaged
        else
          StripShortens(afterValue);
          var longer := arguments + [(key, coerce(name, key, value))];
          var next := Strip(afterValue);
          if next == "" then Done(longer)
          else if !StartsWith(next, KEY) then Damaged
          else More(longer, next[|KEY|..])
  }

  lemma {:induction false} StripLeftShortens(s: string)
    ensures |StripLeft(s)| <= |s|
  {
    if s != [] {
      StripLeftShortens(s[1..]);
    }
  }

  lemma {:induction false} StripRightShortens(s: string)
    ensures |StripRight(s)| <= |s|
  {
    if s != [] {
      StripRightShortens(s[..|s| - 1]);
    }
  }

  lemma StripShortens(s: string)
    ensures |StripLeft(s)| <= |s| && |Strip(s)| <= |s|
  {
    StripLeftShortens(s);
    StripRightShortens(StripLeft(s));
  }

  function ReadArguments(name: string, rest: string, arguments: Arguments, coerce: QwenCalls.Coercion): Option<Arguments>
    decreases |rest|
  {
    match ReadArgument(name, rest, arguments, coerce)
    case Damaged => None
    case Done(all) => Some(all)
    case More(longer, next) => ReadArguments(name, next, longer, coerce)
  }

  function ParseBlock(block: string, coerce: QwenCalls.Coercion): Option<seq<Call>> {
    var (rawName, marked, rest) := Partition(block, KEY);
    var name := Strip(rawName);
    if !NameOk(name) then None
    else if !marked then Some([Call(name, [])])
    else
      match ReadArguments(name, rest, [], coerce)
      case None => None
      case Some(arguments) => Some([Call(name, arguments)])
  }

  method BlockCalls(block: string, coerce: QwenCalls.Coercion) returns (calls: Option<seq<Call>>)
    ensures calls == ParseBlock(block, coerce)
  {
    var (rawName, marker, rest) := Partition(block, KEY);
    var name := Strip(rawName);
    if !NameOk(name) {
      return None;
    }
    var arguments: Arguments := [];
    while marker
      invariant marker ==> (match ReadArguments(name, rest, arguments, coerce)
                            case None => ParseBlock(block, coerce) == None
                            case Some(all) => ParseBlock(block, coerce) == Some([Call(name, all)]))
      invariant !marker ==> ParseBlock(block, coerce) == Some([Call(name, arguments)])
      decreases if marker then 1 else 0, |rest|
    {
      var (rawKey, keyClosed, afterKey) := Partition(rest, KEY_END);
      var key := Strip(rawKey);
      if !keyClosed || key == "" || !NoAngles(key) || HasKey(arguments, key) {
        return None;
      }
      var atValue := StripLeft(afterKey);
      if !StartsWith(atValue, VALUE) {
        return None;
      }
      var (value, valueClosed, afterValue) := Partition(atValue[|VALUE|..], VALUE_END);
      if !valueClosed {
        return None;
      }
      ghost var step := ReadArgument(name, rest, arguments, coerce);
      arguments := arguments + [(key, coerce(name, key, value))];
      var next := Strip(afterValue);
      if next == "" {
        assert step == Done(arguments);
        marker := false;
      } else {
        if !StartsWith(next, KEY) {
          return None;
        }
        assert step == More(arguments, next[|KEY|..]);
        rest := next[|KEY|..];
      }
    }
    calls := Some([Call(name, arguments)]);
  }

  // ---- The printed form ------------------------------------------------------------

  function PrintArgument(key: string, value: string): string {
    key + KEY_END + VALUE + value + VALUE_END
  }

  function PrintArguments(arguments: Arguments): string {
    if arguments == [] then ""
    else KEY + PrintArgument(arguments[0].0, arguments[0].1) + PrintArguments(arguments[1..])
  }

  function PrintInner(call: Call): string {
    call.name + PrintArguments(call.arguments)
  }

  /** A value may hold anything but a closing marker of the dialect. */
  ghost predicate Printable(key: string, value: string) {
    Clean(key) && Free(value, VALUE_END)
  }

  ghost predicate AllPrintable(arguments: Arguments) {
    forall i :: 0 <= i < |arguments| ==> Printable(arguments[i].0, arguments[i].1)
  }

  ghost predicate PrintableCall(call: Call) {
    NameOk(call.name) && QwenCalls.DistinctKeys(call.arguments) && AllPrintable(call.arguments)
  }

  lemma Tags()
    ensures Tag(OPEN) && Tag(CLOSE) && Tag(KEY) && Tag(KEY_END) && Tag(VALUE) && Tag(VALUE_END)
  {
  }

  lemma PartitionAt(text: string, w: string, separator: string, rest: string)
    requires Tag(separator) && Free(w, separator) && text == w + separator + rest
    ensures Partition(text, separator) == (w, true, rest)
  {
    FindMarker("", w, separator, rest);
    assert "" + w + separator + rest == text;
    assert text[..|w|] == w && text[|w| + |separator|..] == rest;
  }

  lemma PartitionNone(text: string, separator: string)
    requires Tag(separator) && Free(text, separator)
    ensures Partition(text, separator) == (text, false, "")
  {
    EmptyConcat(text);
    FindNoMarker("", text, separator);
  }

  lemma NameFree(name: string, marker: string)
    requires NoAngles(name) && Tag(marker)
    ensures Free(name, marker)
  {
    forall i ensures !At(name, marker, i) {
      if At(name, marker, i) {
        AtChar(name, marker, i, 0);
        assert false;
      }
    }
  }

  /** What follows a value: nothing, or the next argument; neither is changed by stripping. */
  lemma RestStripped(arguments: Arguments)
    ensures Strip(PrintArguments(arguments)) == PrintArguments(arguments)
    ensures arguments != [] ==>
              StartsWith(PrintArguments(arguments), KEY)
              && PrintArguments(arguments)[|KEY|..] == PrintArgument(arguments[0].0, arguments[0].1) + PrintArguments(arguments[1..])
  {
    if arguments != [] {
      PrintedEnd(arguments);
      var text := PrintArguments(arguments);
      var rest := PrintArgument(arguments[0].0, arguments[0].1) + PrintArguments(arguments[1..]);
      assert text == KEY + rest;
      assert text[0] == '<';
      StripClean(text);
    }
  }

  lemma {:induction false} PrintedEnd(arguments: Arguments)
    requires arguments != []
    ensures PrintArguments(arguments) != "" && PrintArguments(arguments)[|PrintArguments(arguments)| - 1] == '>'
  {
    var text := PrintArguments(arguments);
    var rest := PrintArguments(arguments[1..]);
    if arguments[1..] != [] {
      PrintedEnd(arguments[1..]);
      assert text[|text| - 1] == rest[|rest| - 1];
    } else {
      assert PrintArgument(arguments[0].0, arguments[0].1)[|PrintArgument(arguments[0].0, arguments[0].1)| - 1] == '>';
    }
  }

  lemma ValueText(value: string, tail: string)
    ensures StripLeft(VALUE + value + VALUE_END + tail) == VALUE + value + VALUE_END + tail
    ensures StartsWith(VALUE + value + VALUE_END + tail, VALUE)
    ensures (VALUE + value + VALUE_END + tail)[|VALUE|..] == value + VALUE_END + tail
  {
    var text := VALUE + value + VALUE_END + tail;
    assert text[0] == '<';
  }

  // ---- A printed call is parsed back -----------------------------------------------------

  function FirstAndRest(arguments: Arguments): string
    requires arguments != []
  {
    PrintArgument(arguments[0].0, arguments[0].1) + PrintArguments(arguments[1..])
  }

  lemma KeyIsRead(key: string, value: string, tail: string)
    requires Clean(key)
    ensures Partition(PrintArgument(key, value) + tail, KEY_END) == (key, true, VALUE + value + VALUE_END + tail)
    ensures Strip(key) == key
  {
    Tags();
    NameFree(key, KEY_END);
    var text := PrintArgument(key, value) + tail;
    assert text == key + KEY_END + (VALUE + value + VALUE_END + tail);
    PartitionAt(text, key, KEY_END, VALUE + value + VALUE_END + tail);
    StripClean(key);
  }

  lemma ValueIsRead(value: string, tail: string)
    requires Free(value, VALUE_END)
    ensures Partition(value + VALUE_END + tail, VALUE_END) == (value, true, tail)
  {
    Tags();
    PartitionAt(value + VALUE_END + tail, value, VALUE_END, tail);
  }

  lemma ArgumentIsRead(name: string, arguments: Arguments, before: Arguments, coerce: QwenCalls.Coercion)
    requires arguments != [] && Printable(arguments[0].0, arguments[0].1) && !HasKey(before, arguments[0].0)
    requires coerce(name, arguments[0].0, arguments[0].1) == arguments[0].1
    ensures var longer := before + [arguments[0]];
            ReadArgument(name, FirstAndRest(arguments), before, coerce)
              == if arguments[1..] == [] then Done(longer) else More(longer, FirstAndRest(arguments[1..]))
  {
    var (key, value) := arguments[0];
    var tail := PrintArguments(arguments[1..]);
    KeyIsRead(key, value, tail);
    ValueText(value, tail);
    ValueIsRead(value, tail);
    RestStripped(arguments[1..]);
    if arguments[1..] != [] {
      PrintedEnd(arguments[1..]);
    }
  }

  lemma KeyIsNew(done: Arguments, arguments: Arguments)
    requires QwenCalls.DistinctKeys(done + arguments) && arguments != []
    ensures !HasKey(done, arguments[0].0)
  {
    var all := done + arguments;
    assert all[|done|] == arguments[0];
    forall i | 0 <= i < |done| ensures done[i].0 != arguments[0].0 {
      assert all[i] == done[i];
    }
  }

  lemma RestPrintable(done: Arguments, arguments: Arguments)
    requires arguments != [] && AllPrintable(arguments)
    ensures AllPrintable(arguments[1..]) && Printable(arguments[0].0, arguments[0].1)
    ensures done + [arguments[0]] + arguments[1..] == done + arguments
    ensures arguments[1..] == [] ==> done + [arguments[0]] == done + arguments
  {
    forall i | 0 <= i < |arguments[1..]| ensures Printable(arguments[1..][i].0, arguments[1..][i].1) {
      assert arguments[1..][i] == arguments[i + 1];
    }
  }

  lemma ReadStep(name: string, rest: string, done: Arguments, coerce: QwenCalls.Coercion, step: Step)
    requires ReadArgument(name, rest, done, coerce) == step
    ensures ReadArguments(name, rest, done, coerce)
         == match step case Damaged => None case Done(all) => Some(all) case More(longer, next) => ReadArguments(name, next, longer, coerce)
  {
  }

  lemma {:induction false} ArgumentsAreRead(name: string, arguments: Arguments, done: Arguments, coerce: QwenCalls.Coercion)
    requires arguments != [] && AllPrintable(arguments) && QwenCalls.DistinctKeys(done + arguments)
    requires forall key, value :: coerce(name, key, value) == value
    ensures ReadArguments(name, FirstAndRest(arguments), done, coerce) == Some(done + arguments)
    decreases |arguments|
  {
    var rest := arguments[1..];
    var longer := done + [arguments[0]];
    RestPrintable(done, arguments);
    KeyIsNew(done, arguments);
    ArgumentIsRead(name, arguments, done, coerce);
    if rest == [] {
      ReadStep(name, FirstAndRest(arguments), done, coerce, Done(longer));
    } else {
      ReadStep(name, FirstAndRest(arguments), done, coerce, More(longer, FirstAndRest(rest)));
      ArgumentsAreRead(name, rest, longer, coerce);
    }
  }

  lemma NameIsClean(name: string)
    requires NameOk(name)
    ensures Strip(name) == name && name != "" && !IsSpace(name[0]) && !IsSpace(name[|name| - 1])
  {
    StripClean(name);
  }

  /** The block parser gives back the printed call. */
  lemma BlockIsRead(call: Call, coerce: QwenCalls.Coercion)
    requires PrintableCall(call) && QwenCalls.TextTyped(coerce, call)
    ensures ParseBlock(PrintInner(call), coerce) == Some([call])
  {
    Tags();
    NameIsClean(call.name);
    NameFree(call.name, KEY);
    if call.arguments == [] {
      assert PrintInner(call) == call.name;
      PartitionNone(call.name, KEY);
    } else {
      assert PrintInner(call) == call.name + KEY + FirstAndRest(call.arguments);
      PartitionAt(PrintInner(call), call.name, KEY, FirstAndRest(call.arguments));
      EmptyConcat(call.arguments);
      ArgumentsAreRead(call.name, call.arguments, [], coerce);
    }
  }

  lemma InnerStripped(call: Call)
    requires NameOk(call.name)
    ensures Strip(PrintInner(call)) == PrintInner(call)
  {
    NameIsClean(call.name);
    var text := PrintInner(call);
    if call.arguments == [] {
      assert text == call.name;
    } else {
      PrintedEnd(call.arguments);
      assert text[|text| - 1] == '>' && text[0] == call.name[0];
    }
    StripClean(text);
  }

  lemma TagFree(tag: string)
    requires tag == KEY || tag == KEY_END || tag == VALUE || tag == VALUE_END
    ensures Free(tag, CLOSE)
  {
    Tags();
    if tag == KEY || tag == VALUE {
      NotAt(tag, CLOSE, 0, 1);
    } else {
      NotAt(tag, CLOSE, 0, 2);
    }
    FreeTag(tag, CLOSE);
  }

  lemma ArgumentFree(key: string, value: string)
    requires Printable(key, value) && Free(value, CLOSE)
    ensures Free(KEY + PrintArgument(key, value), CLOSE)
  {
    Tags();
    TagFree(VALUE);
    TagFree(VALUE_END);
    TagFree(KEY_END);
    var head := KEY + key;
    NotAt(head, CLOSE, 0, 1);
    FreeTag(head, CLOSE);
    FreeConcat(head, KEY_END, CLOSE);
    FreeConcat(head + KEY_END, VALUE, CLOSE);
    FreeConcat(head + KEY_END + VALUE, value, CLOSE);
    FreeConcat(head + KEY_END + VALUE + value, VALUE_END, CLOSE);
    assert head + KEY_END + VALUE + value + VALUE_END == KEY + PrintArgument(key, value);
  }

  lemma {:induction false} ArgumentsFree(arguments: Arguments)
    requires AllPrintable(arguments) && QwenCalls.ValuesFree(arguments, CLOSE)
    ensures Free(PrintArguments(arguments), CLOSE)
  {
    Tags();
    FreeLine(CLOSE);
    if arguments != [] {
      RestPrintable([], arguments);
      ArgumentFree(arguments[0].0, arguments[0].1);
      assert forall i :: 0 <= i < |arguments[1..]| ==> arguments[1..][i] == arguments[i + 1];
      ArgumentsFree(arguments[1..]);
      FreeConcat(KEY + PrintArgument(arguments[0].0, arguments[0].1), PrintArguments(arguments[1..]), CLOSE);
    }
  }

  lemma InnerFree(call: Call)
    requires PrintableCall(call) && QwenCalls.ValuesFree(call.arguments, CLOSE)
    ensures Free(PrintInner(call), CLOSE)
  {
    Tags();
    NameFree(call.name, CLOSE);
    ArgumentsFree(call.arguments);
    if call.arguments != [] {
      RestStripped(call.arguments);
      assert PrintArguments(call.arguments)[..|KEY|][0] == '<';
    }
    FreeConcat(call.name, PrintArguments(call.arguments), CLOSE);
  }

  // ---- Through the outer scan ----------------------------------------------------------------

  function Parser(coerce: QwenCalls.Coercion): BlockParser {
    (block: string) => ParseBlock(block, coerce)
  }

  function PrintAll(calls: seq<Call>): (r: seq<string>)
    ensures |r| == |calls| && forall i :: 0 <= i < |r| ==> r[i] == PrintInner(calls[i])
  {
    seq(|calls|, i requires 0 <= i < |calls| => PrintInner(calls[i]))
  }

  lemma CallYields(call: Call, coerce: QwenCalls.Coercion)
    requires PrintableCall(call) && QwenCalls.ValuesFree(call.arguments, CLOSE) && QwenCalls.TextTyped(coerce, call)
    ensures ToolTurns.Yields(Parser(coerce), PrintInner(call), call)
  {
    InnerFree(call);
    InnerStripped(call);
    BlockIsRead(call, coerce);
  }

  /**
   Printing any number of calls between texts without an opener, and parsing the turn, gives back exactly those calls:
   the same names, keys and values in the same order, whitespace and mentions of other markup included.
   */
  lemma PrintedCallsRoundTrip(leads: seq<string>, calls: seq<Call>, tail: string, coerce: QwenCalls.Coercion)
    requires |leads| == |calls| && ToolTurns.AllFree(leads) && Free(tail, OPEN)
    requires forall i :: 0 <= i < |calls| ==>
               PrintableCall(calls[i]) && QwenCalls.ValuesFree(calls[i].arguments, CLOSE) && QwenCalls.TextTyped(coerce, calls[i])
    ensures AllCalls(Pieces(ToolTurns.Turn(leads, PrintAll(calls), tail), Parser(coerce), 0, [])) == calls
  {
    forall i | 0 <= i < |calls| ensures ToolTurns.Yields(Parser(coerce), PrintAll(calls)[i], calls[i]) {
      CallYields(calls[i], coerce);
    }
    ToolTurns.TurnIsRead(leads, PrintAll(calls), tail, Parser(coerce), calls);
  }

  // ---- A value that closes its own section ------------------------------------------------

  /**
   A value that contains its own closing marker damages the block: what follows the marker is neither the end of the
   block nor another key.
   */
  lemma ClosedValueIsDamaged(name: string, key: string, a: string, b: string, tail: string, done: Arguments,
                             coerce: QwenCalls.Coercion)
    requires Clean(key) && Free(a, VALUE_END)
    requires Strip(b + VALUE_END + tail) != "" && !StartsWith(Strip(b + VALUE_END + tail), KEY)
    ensures ReadArgument(name, PrintArgument(key, a + VALUE_END + b) + tail, done, coerce) == Damaged
  {
    var value := a + VALUE_END + b;
    var rest := b + VALUE_END + tail;
    KeyIsRead(key, value, tail);
    ValueText(value, tail);
    assert value + VALUE_END + tail == a + VALUE_END + rest;
    ValueIsRead(a, rest);
  }
}
