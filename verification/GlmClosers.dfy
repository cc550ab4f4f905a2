/**
 Values that close their own section in the GLM dialect (proxyserver/tokenization/tool_parser.py, GLMToolParser):
 exactly when the parser reports damage, and when it reads on and takes the rest of the value for further arguments.
 */
module GlmClosers {
  import opened Wrappers
  import opened Text
  import opened Markup
  import opened ToolBlocks
  import opened GlmCalls
  import QwenCalls
  import ToolTurns

  // ---- No parsed value holds a closer -------------------------------------------------

  lemma PartitionFree(text: string, separator: string, marker: string)
    requires marker != "" && (marker == separator || Free(text, marker))
    ensures Partition(text, separator).1 ==> Free(Partition(text, separator).0, marker)
    ensures Free(text, marker) ==> Free(Partition(text, separator).2, marker)
  {
    var i := Find(text, separator, 0);
    if i >= 0 {
      ToolTurns.PartFree(text, marker, 0, i);
      assert text[0..i] == text[..i];
      if Free(text, marker) {
        ToolTurns.PartFree(text, marker, i + |separator|, |text|);
        assert text[i + |separator|..|text|] == text[i + |separator|..];
      }
    }
  }

  lemma DropFree(text: string, marker: string, from: nat)
    requires Free(text, marker) && from <= |text|
    ensures Free(text[from..], marker)
  {
    ToolTurns.PartFree(text, marker, from, |text|);
    assert text[from..|text|] == text[from..];
  }

  lemma AtValueFree(rest: string, marker: string)
    requires marker != "" && Free(rest, marker)
    ensures Free(StripLeft(Partition(rest, KEY_END).2), marker)
  {
    PartitionFree(rest, KEY_END, marker);
    ToolTurns.StripLeftFree(Partition(rest, KEY_END).2, marker);
  }

  function LongerOf(step: Step): Arguments {
    match step case Damaged => [] case Done(all) => all case More(all, _) => all
  }

  lemma StepFree(name: string, rest: string, done: Arguments, coerce: QwenCalls.Coercion, marker: string)
    requires QwenCalls.ValuesFree(done, marker) && (forall key, value :: coerce(name, key, value) == value)
    requires marker != "" && (marker == VALUE_END || Free(rest, marker))
    ensures QwenCalls.ValuesFree(LongerOf(ReadArgument(name, rest, done, coerce)), marker)
  {
    var step := ReadArgument(name, rest, done, coerce);
    if !step.Damaged? {
      var atValue := StripLeft(Partition(rest, KEY_END).2);
      if marker != VALUE_END {
        AtValueFree(rest, marker);
        DropFree(atValue, marker, |VALUE|);
      }
      PartitionFree(atValue[|VALUE|..], VALUE_END, marker);
    }
  }

  lemma NextFree(name: string, rest: string, done: Arguments, coerce: QwenCalls.Coercion, marker: string)
    requires marker != "" && Free(rest, marker) && ReadArgument(name, rest, done, coerce).More?
    ensures Free(ReadArgument(name, rest, done, coerce).rest, marker)
  {
    var atValue := StripLeft(Partition(rest, KEY_END).2);
    AtValueFree(rest, marker);
    DropFree(atValue, marker, |VALUE|);
    PartitionFree(atValue[|VALUE|..], VALUE_END, marker);
    var afterValue := Partition(atValue[|VALUE|..], VALUE_END).2;
    ToolTurns.StripFree(afterValue, marker);
    DropFree(Strip(afterValue), marker, |KEY|);
  }

  lemma {:induction false} ReadValuesFree(name: string, rest: string, done: Arguments, coerce: QwenCalls.Coercion, marker: string)
    requires QwenCalls.ValuesFree(done, marker) && (forall key, value :: coerce(name, key, value) == value)
    requires marker != "" && (marker == VALUE_END || Free(rest, marker))
    ensures ReadArguments(name, rest, done, coerce).Some? ==>
              QwenCalls.ValuesFree(ReadArguments(name, rest, done, coerce).value, marker)
    decreases |rest|
  {
    StepFree(name, rest, done, coerce, marker);
    var step := ReadArgument(name, rest, done, coerce);
    ReadStep(name, rest, done, coerce, step);
    if step.More? {
      if marker != VALUE_END {
        NextFree(name, rest, done, coerce, marker);
      }
      ReadValuesFree(name, step.rest, step.arguments, coerce, marker);
    }
  }

  /** However a block is written, no text argument of its calls contains a marker that would have ended it. */
  lemma BlockValuesFree(block: string, coerce: QwenCalls.Coercion, calls: seq<Call>, call: Call, marker: string)
    requires ParseBlock(block, coerce) == Some(calls) && call in calls && QwenCalls.TextTyped(coerce, call)
    requires marker != "" && (marker == VALUE_END || Free(block, marker))
    ensures QwenCalls.ValuesFree(call.arguments, marker)
  {
    var (rawName, marked, rest) := Partition(block, KEY);
    if marked {
      if marker != VALUE_END {
        PartitionFree(block, KEY, marker);
      }
      ReadValuesFree(Strip(rawName), rest, [], coerce, marker);
    }
  }

  // ---- Exactly the calls that round-trip ------------------------------------------------

  /** What the printed form asks of names and keys, and of arguments: a dictionary of texts. */
  ghost predicate WellNamed(coerce: QwenCalls.Coercion, call: Call) {
    && NameOk(call.name) && QwenCalls.KeysClean(call.arguments) && QwenCalls.DistinctKeys(call.arguments)
    && QwenCalls.TextTyped(coerce, call)
  }

  /** A printed call is parsed back exactly when none of its values contains the closer of a value. */
  lemma BlockIsReadExactly(call: Call, coerce: QwenCalls.Coercion)
    requires WellNamed(coerce, call)
    ensures ParseBlock(PrintInner(call), coerce) == Some([call]) <==> QwenCalls.ValuesFree(call.arguments, VALUE_END)
  {
    if ParseBlock(PrintInner(call), coerce) == Some([call]) {
      assert call in [call];
      BlockValuesFree(PrintInner(call), coerce, [call], call, VALUE_END);
    } else if QwenCalls.ValuesFree(call.arguments, VALUE_END) {
      assert forall i :: 0 <= i < |call.arguments| ==> Printable(call.arguments[i].0, call.arguments[i].1);
      BlockIsRead(call, coerce);
    }
  }

  /** No value of the call holds a closing marker of the dialect. */
  ghost predicate NothingCloses(call: Call) {
    QwenCalls.ValuesFree(call.arguments, VALUE_END) && QwenCalls.ValuesFree(call.arguments, CLOSE)
  }

  /** A printed turn is parsed back to its calls exactly when none of their values contains a closing marker. */
  lemma CallsRoundTripExactly(leads: seq<string>, calls: seq<Call>, tail: string, coerce: QwenCalls.Coercion)
    requires |leads| == |calls| && ToolTurns.AllFree(leads) && Free(tail, OPEN)
    requires forall i :: 0 <= i < |calls| ==> WellNamed(coerce, calls[i])
    ensures AllCalls(Pieces(ToolTurns.Turn(leads, PrintAll(calls), tail), Parser(coerce), 0, [])) == calls
       <==> forall i :: 0 <= i < |calls| ==> NothingCloses(calls[i])
  {
    var text := ToolTurns.Turn(leads, PrintAll(calls), tail);
    if AllCalls(Pieces(text, Parser(coerce), 0, [])) == calls {
      forall i | 0 <= i < |calls| ensures NothingCloses(calls[i]) {
        var block, read := ToolTurns.CallComesFrom(text, Parser(coerce), calls[i]);
        BlockValuesFree(block, coerce, read, calls[i], VALUE_END);
        BlockValuesFree(block, coerce, read, calls[i], CLOSE);
      }
    } else if forall i :: 0 <= i < |calls| ==> NothingCloses(calls[i]) {
      forall i | 0 <= i < |calls| ensures PrintableCall(calls[i]) {
        var arguments := calls[i].arguments;
        assert forall k :: 0 <= k < |arguments| ==> Printable(arguments[k].0, arguments[k].1);
      }
      PrintedCallsRoundTrip(leads, calls, tail, coerce);
    }
  }

  // ---- What a closing value is read as -----------------------------------------------------

  /** The text behind the first key's opener: the earlier arguments, then the text behind another key's opener. */
  function BehindKey(earlier: Arguments, next: string): string {
    if earlier == [] then next else PrintArgument(earlier[0].0, earlier[0].1) + (KEY + BehindKey(earlier[1..], next))
  }

  predicate EndsInk(text: string) {
    text != "" && !IsSpace(text[|text| - 1])
  }

  lemma {:induction false} BehindKeyEnds(earlier: Arguments, next: string)
    requires EndsInk(next)
    ensures EndsInk(BehindKey(earlier, next))
    decreases |earlier|
  {
    if earlier != [] {
      BehindKeyEnds(earlier[1..], next);
      var inner, text := BehindKey(earlier[1..], next), BehindKey(earlier, next);
      assert text[|text| - 1] == inner[|inner| - 1];
    }
  }

  lemma KeyText(inner: string)
    requires EndsInk(inner)
    ensures Strip(KEY + inner) == KEY + inner && KEY + inner != ""
    ensures StartsWith(KEY + inner, KEY) && (KEY + inner)[|KEY|..] == inner
  {
    var text := KEY + inner;
    assert text[0] == '<' && text[|text| - 1] == inner[|inner| - 1];
    StripClean(text);
  }

  lemma EarlierIsRead(name: string, key: string, value: string, inner: string, done: Arguments, coerce: QwenCalls.Coercion)
    requires Printable(key, value) && !HasKey(done, key) && coerce(name, key, value) == value && EndsInk(inner)
    ensures ReadArgument(name, PrintArgument(key, value) + (KEY + inner), done, coerce) == More(done + [(key, value)], inner)
  {
    KeyText(inner);
    KeyIsRead(key, value, KEY + inner);
    ValueText(value, KEY + inner);
    ValueIsRead(value, KEY + inner);
  }

  /** The arguments printed first are read, whatever comes after them. */
  lemma {:induction false} EarlierAreRead(name: string, earlier: Arguments, next: string, done: Arguments, coerce: QwenCalls.Coercion)
    requires AllPrintable(earlier) && QwenCalls.DistinctKeys(done + earlier) && EndsInk(next)
    requires forall key, value :: coerce(name, key, value) == value
    ensures ReadArguments(name, BehindKey(earlier, next), done, coerce) == ReadArguments(name, next, done + earlier, coerce)
    decreases |earlier|
  {
    if earlier == [] {
      EmptyConcat(done);
    } else {
      var inner, longer := BehindKey(earlier[1..], next), done + [earlier[0]];
      RestPrintable(done, earlier);
      KeyIsNew(done, earlier);
      BehindKeyEnds(earlier[1..], next);
      EarlierIsRead(name, earlier[0].0, earlier[0].1, inner, done, coerce);
      ReadStep(name, BehindKey(earlier, next), done, coerce, More(longer, inner));
      EarlierAreRead(name, earlier[1..], next, longer, coerce);
    }
  }

  /** What stands behind the closer inside the value: the rest of the value, its own closer, and the later arguments. */
  function BehindCloser(b: string, later: Arguments): string {
    b + VALUE_END + PrintArguments(later)
  }

  lemma BehindCloserEnds(b: string, later: Arguments)
    ensures EndsInk(BehindCloser(b, later)) && Strip(BehindCloser(b, later)) != ""
  {
    var text := BehindCloser(b, later);
    if later != [] {
      PrintedEnd(later);
    }
    assert text[|text| - 1] == '>';
    InkStays(text);
  }

  lemma InkStays(text: string)
    requires EndsInk(text)
    ensures Strip(text) != ""
  {
    LeftKeepsInk(text);
  }

  lemma {:induction false} LeftKeepsInk(text: string)
    requires EndsInk(text)
    ensures EndsInk(StripLeft(text))
    decreases |text|
  {
    if IsSpace(text[0]) {
      LeftKeepsInk(text[1..]);
    }
  }

  /** After the closer inside a value, reading goes on with another argument if one starts there, and fails otherwise. */
  lemma ClosedArgument(name: string, key: string, a: string, b: string, later: Arguments, done: Arguments, coerce: QwenCalls.Coercion)
    requires Clean(key) && !HasKey(done, key) && Free(a, VALUE_END) && coerce(name, key, a) == a
    ensures var behind := Strip(BehindCloser(b, later));
            ReadArgument(name, PrintArgument(key, a + VALUE_END + b) + PrintArguments(later), done, coerce)
              == if StartsWith(behind, KEY) then More(done + [(key, a)], behind[|KEY|..]) else Damaged
  {
    var value, tail := a + VALUE_END + b, PrintArguments(later);
    var rest := BehindCloser(b, later);
    KeyIsRead(key, value, tail);
    ValueText(value, tail);
    assert value + VALUE_END + tail == a + VALUE_END + rest;
    ValueIsRead(a, rest);
    BehindCloserEnds(b, later);
  }

  lemma {:induction false} PrintedBehind(earlier: Arguments, next: string)
    ensures PrintArguments(earlier) + (KEY + next) == KEY + BehindKey(earlier, next)
    decreases |earlier|
  {
    if earlier == [] {
      assert "" + (KEY + next) == KEY + next;
    } else {
      PrintedBehind(earlier[1..], next);
      FirstBehind(PrintArgument(earlier[0].0, earlier[0].1), PrintArguments(earlier[1..]), KEY + next, KEY + BehindKey(earlier[1..], next));
    }
  }

  lemma FirstBehind(first: string, others: string, next: string, behind: string)
    requires others + next == behind
    ensures KEY + first + others + next == KEY + (first + behind)
  {
  }

  lemma {:induction false} PrintedAppend(xs: Arguments, ys: Arguments)
    ensures PrintArguments(xs + ys) == PrintArguments(xs) + PrintArguments(ys)
    decreases |xs|
  {
    if xs == [] {
      assert xs + ys == ys;
    } else {
      assert (xs + ys)[1..] == xs[1..] + ys;
      PrintedAppend(xs[1..], ys);
    }
  }

  lemma PrintedFirst(arguments: Arguments, first: (string, string), others: Arguments)
    requires arguments == [first] + others
    ensures PrintArguments(arguments) == KEY + (PrintArgument(first.0, first.1) + PrintArguments(others))
  {
    assert arguments[1..] == others;
  }

  lemma PrintedParts(arguments: Arguments, earlier: Arguments, rest: Arguments, first: (string, string), others: Arguments)
    requires arguments == earlier + rest && rest == [first] + others
    ensures PrintArguments(arguments) == KEY + BehindKey(earlier, PrintArgument(first.0, first.1) + PrintArguments(others))
  {
    PrintedAppend(earlier, rest);
    PrintedFirst(rest, first, others);
    PrintedBehind(earlier, PrintArgument(first.0, first.1) + PrintArguments(others));
  }

  lemma BlockReads(name: string, behind: string, coerce: QwenCalls.Coercion)
    requires NameOk(name)
    ensures ParseBlock(name + (KEY + behind), coerce)
         == match ReadArguments(name, behind, [], coerce) case None => None case Some(all) => Some([Call(name, all)])
  {
    Tags();
    NameIsClean(name);
    NameFree(name, KEY);
    assert name + (KEY + behind) == name + KEY + behind;
    PartitionAt(name + (KEY + behind), name, KEY, behind);
  }

  lemma ClosedReads(name: string, earlier: Arguments, key: string, a: string, b: string, later: Arguments, coerce: QwenCalls.Coercion)
    requires AllPrintable(earlier) && QwenCalls.DistinctKeys(earlier) && Clean(key) && !HasKey(earlier, key) && Free(a, VALUE_END)
    requires forall key, value :: coerce(name, key, value) == value
    ensures var behind := Strip(BehindCloser(b, later));
            ReadArguments(name, BehindKey(earlier, PrintArgument(key, a + VALUE_END + b) + PrintArguments(later)), [], coerce)
              == if StartsWith(behind, KEY) then ReadArguments(name, behind[|KEY|..], earlier + [(key, a)], coerce) else None
  {
    var next := PrintArgument(key, a + VALUE_END + b) + PrintArguments(later);
    assert EndsInk(next) by {
      BehindCloserEnds(b, later);
      var behind := BehindCloser(b, later);
      assert next == key + KEY_END + VALUE + a + VALUE_END + behind;
      assert next[|next| - 1] == behind[|behind| - 1];
    }
    EmptyConcat(earlier);
    EarlierAreRead(name, earlier, next, [], coerce);
    ClosedArgument(name, key, a, b, later, earlier, coerce);
    ReadStep(name, next, earlier, coerce, ReadArgument(name, next, earlier, coerce));
  }

  /**
   What becomes of the first value that contains the closer of a value: the block is damaged unless another key starts
   behind that closer; if one does, the value is cut at the closer and reading goes on with that key.
   */
  lemma ClosedValueExactly(call: Call, i: nat, a: string, b: string, coerce: QwenCalls.Coercion)
    requires WellNamed(coerce, call) && i < |call.arguments| && call.arguments[i].1 == a + VALUE_END + b
    requires AllPrintable(call.arguments[..i]) && Free(a, VALUE_END)
    ensures var behind := Strip(BehindCloser(b, call.arguments[i + 1..]));
            var read := if StartsWith(behind, KEY) then
                          ReadArguments(call.name, behind[|KEY|..], call.arguments[..i] + [(call.arguments[i].0, a)], coerce)
                        else None;
            ParseBlock(PrintInner(call), coerce) == (match read case None => None case Some(all) => Some([Call(call.name, all)]))
  {
    var earlier, key, later := call.arguments[..i], call.arguments[i].0, call.arguments[i + 1..];
    var next := PrintArgument(key, a + VALUE_END + b) + PrintArguments(later);
    PrintedParts(call.arguments, earlier, call.arguments[i..], call.arguments[i], later);
    BlockReads(call.name, BehindKey(earlier, next), coerce);
    ClosedReads(call.name, earlier, key, a, b, later, coerce);
  }

  // ---- A value that spells out another argument ------------------------------------------------

  /** A value that closes itself and opens another argument. */
  function Spelling(a: string, key: string, value: string): string {
    a + VALUE_END + KEY + key + KEY_END + VALUE + value
  }

  lemma SpellingPrints(key: string, a: string, key': string, value: string)
    ensures PrintArgument(key, Spelling(a, key', value)) == PrintArgument(key, a) + KEY + PrintArgument(key', value)
  {
  }

  lemma SameLetters(name: string, earlier: Arguments, key: string, a: string, key': string, value: string, later: Arguments)
    ensures PrintInner(Call(name, earlier + ([(key, Spelling(a, key', value))] + later)))
         == PrintInner(Call(name, earlier + ([(key, a), (key', value)] + later)))
  {
    var one, two := [(key, Spelling(a, key', value))] + later, [(key, a), (key', value)] + later;
    PrintedAppend(earlier, one);
    PrintedAppend(earlier, two);
    PrintedFirst(one, (key, Spelling(a, key', value)), later);
    assert two == [(key, a)] + ([(key', value)] + later);
    PrintedFirst(two, (key, a), [(key', value)] + later);
    PrintedFirst([(key', value)] + later, (key', value), later);
    SpellingPrints(key, a, key', value);
    Around(PrintArgument(key, a), PrintArgument(key', value), PrintArguments(later));
  }

  lemma Around(first: string, second: string, later: string)
    ensures KEY + (first + KEY + second + later) == KEY + (first + (KEY + (second + later)))
  {
  }

  /**
   Two different calls are printed as the same text when a value spells out the other call's next argument; the parser
   gives back the one with the shorter value and the additional argument, and nothing tells the caller.
   */
  lemma SpelledArgumentIsRead(name: string, earlier: Arguments, key: string, a: string, key': string, value: string,
                              later: Arguments, coerce: QwenCalls.Coercion)
    requires var read := Call(name, earlier + ([(key, a), (key', value)] + later));
             PrintableCall(read) && QwenCalls.TextTyped(coerce, read)
    ensures ParseBlock(PrintInner(Call(name, earlier + ([(key, Spelling(a, key', value))] + later))), coerce)
         == Some([Call(name, earlier + ([(key, a), (key', value)] + later))])
  {
    SameLetters(name, earlier, key, a, key', value, later);
    BlockIsRead(Call(name, earlier + ([(key, a), (key', value)] + later)), coerce);
  }
}
