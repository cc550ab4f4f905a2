/** Which token stands at a printed marker, header or reasoning tag, and where a printed value ends. */
module ReasoningMarks {
  import opened Wrappers
  import opened Text
  import opened Markup
  import opened ToolBlocks
  import opened QwenCalls
  import opened ReasoningTokens

  lemma FirstChars(text: string, marker: string, i: nat)
    requires |marker| >= 4
    ensures At(text, marker, i) ==>
              text[i] == marker[0] && text[i + 1] == marker[1] && text[i + 2] == marker[2] && text[i + 3] == marker[3]
  {
    if At(text, marker, i) {
      AtChar(text, marker, i, 0);
      AtChar(text, marker, i, 1);
      AtChar(text, marker, i, 2);
      AtChar(text, marker, i, 3);
    }
  }

  lemma MarksStart(text: string, i: nat)
    ensures At(text, THINK, i) ==> text[i] == '<' && text[i + 1] == 't' && text[i + 2] == 'h'
    ensures At(text, THINK_END, i) ==> text[i] == '<' && text[i + 1] == '/' && text[i + 2] == 't' && text[i + 3] == 'h'
    ensures At(text, OPEN, i) ==> text[i] == '<' && text[i + 1] == 't' && text[i + 2] == 'o'
    ensures At(text, CLOSE, i) ==> text[i] == '<' && text[i + 1] == '/' && text[i + 2] == 't' && text[i + 3] == 'o'
    ensures At(text, FUNCTION, i) ==> text[i] == '<' && text[i + 1] == 'f'
    ensures At(text, PARAMETER, i) ==> text[i] == '<' && text[i + 1] == 'p'
    ensures At(text, FUNCTION_END, i) ==> text[i] == '<' && text[i + 1] == '/' && text[i + 2] == 'f'
    ensures At(text, PARAMETER_END, i) ==> text[i] == '<' && text[i + 1] == '/' && text[i + 2] == 'p'
  {
    FirstChars(text, THINK, i);
    FirstChars(text, THINK_END, i);
    FirstChars(text, OPEN, i);
    FirstChars(text, CLOSE, i);
    FirstChars(text, FUNCTION, i);
    FirstChars(text, PARAMETER, i);
    FirstChars(text, FUNCTION_END, i);
    FirstChars(text, PARAMETER_END, i);
  }

  /** The tokens that stand for one marker each. */
  function KindOf(marker: string): Option<Kind> {
    if marker == THINK then Some(Reasoning(true))
    else if marker == THINK_END then Some(Reasoning(false))
    else if marker == OPEN then Some(ToolOpen)
    else if marker == CLOSE then Some(ToolClose)
    else if marker == FUNCTION_END then Some(FunctionClose)
    else if marker == PARAMETER_END then Some(OtherMark)
    else None
  }

  lemma MarkerIsToken(text: string, marker: string, i: nat, lex: Lexicon)
    requires KindOf(marker).Some? && At(text, marker, i)
    ensures i < |text| && TokenAt(text, i, |text|, lex) == Some(Token(i, i + |marker|, KindOf(marker).value))
  {
    MarksStart(text, i);
    assert i + |marker| <= |text|;
  }

  lemma {:induction false} NameIsRead(text: string, from: nat, end: nat)
    requires from <= end < |text| && text[end] == '>'
    requires forall k :: from <= k < end ==> text[k] !in "<>\n"
    ensures NameEnd(text, from, |text|) == end
    decreases end - from
  {
    if from < end {
      NameIsRead(text, from + 1, end);
    }
  }

  lemma HeaderIsRead(text: string, i: nat, from: nat, name: string, rest: string, function_: bool)
    requires Clean(name) && i < from <= |text| && text[from..] == name + ">" + rest
    ensures Header(text, i, from, |text|, function_)
         == Some(Token(i, from + |name| + 1, if function_ then FunctionOpen(true) else ParameterOpen(true)))
  {
    var end := from + |name|;
    assert text[end] == text[from..][|name|] == '>';
    forall k | from <= k < end ensures text[k] !in "<>\n" {
      assert text[k] == text[from..][k - from] == name[k - from];
    }
    NameIsRead(text, from, end);
    assert text[from..end] == name;
  }

  lemma FunctionIsToken(text: string, u: string, name: string, rest: string, i: nat, lex: Lexicon)
    requires Clean(name) && text == u + FUNCTION + name + ">" + rest && i == |u|
    ensures i < |text|
    ensures TokenAt(text, i, |text|, lex) == Some(Token(i, i + |FUNCTION| + |name| + 1, FunctionOpen(true)))
  {
    assert text[i..i + |FUNCTION|] == FUNCTION;
    MarksStart(text, i);
    var from := i + |FUNCTION|;
    assert text[from..] == name + ">" + rest;
    HeaderIsRead(text, i, from, name, rest, true);
  }

  lemma ParameterIsToken(text: string, u: string, name: string, rest: string, i: nat, lex: Lexicon)
    requires Clean(name) && text == u + PARAMETER + name + ">" + rest && i == |u|
    ensures i < |text|
    ensures TokenAt(text, i, |text|, lex) == Some(Token(i, i + |PARAMETER| + |name| + 1, ParameterOpen(true)))
  {
    assert text[i..i + |PARAMETER|] == PARAMETER;
    MarksStart(text, i);
    var from := i + |PARAMETER|;
    assert text[from..] == name + ">" + rest;
    HeaderIsRead(text, i, from, name, rest, false);
  }

  // ---- Values ------------------------------------------------------------------------

  lemma NoneBefore(text: string, u: string, w: string, rest: string, marker: string)
    requires Tag(marker) && Free(w, marker) && text == u + w + rest && (rest == "" || rest[0] == '<')
    ensures forall i :: |u| <= i < |u| + |w| ==> !At(text, marker, i)
  {
    forall i | |u| <= i < |u| + |w| ensures !At(text, marker, i) {
      if i + |marker| <= |u| + |w| {
        AtPart(u, w, rest, marker, i);
      } else if At(text, marker, i) {
        AtChar(text, marker, i, |u| + |w| - i);
        assert false;
      }
    }
  }

  ghost predicate ClosersFree(value: string) {
    Free(value, PARAMETER_END) && Free(value, FUNCTION_END) && Free(value, CLOSE)
  }

  lemma NoCloserBefore(text: string, u: string, value: string, rest: string, v: nat)
    requires ClosersFree(value) && text == u + value + rest && (rest == "" || rest[0] == '<') && v == |u| + |value|
    ensures forall i :: |u| <= i < v ==> !Closer(text, i, |text|)
  {
    QwenCalls.Tags();
    NoneBefore(text, u, value, rest, PARAMETER_END);
    NoneBefore(text, u, value, rest, FUNCTION_END);
    NoneBefore(text, u, value, rest, CLOSE);
  }

  lemma ValueIsRead(text: string, u: string, value: string, rest: string, v: nat)
    requires ClosersFree(value) && text == u + value + rest && v == |u| + |value|
    requires rest == "" || At(text, PARAMETER_END, v)
    ensures ValueEnd(text, |u|, |text|) == v
  {
    if rest != "" {
      AtChar(text, PARAMETER_END, v, 0);
      assert rest[0] == text[v];
    }
    NoCloserBefore(text, u, value, rest, v);
    assert v == |text| || Closer(text, v, |text|);
  }
}
