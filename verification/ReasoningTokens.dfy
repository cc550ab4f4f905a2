/**
 What the reasoning scanner searches for (proxyserver/tokenization/base.py, the compiled patterns, _json_header_end and
 _xml_reasoning_value_end): its tokens, and where quoted names, JSON strings and parameter values end.
 */
module ReasoningTokens {
  import opened Wrappers
  import opened Text
  import opened Markup
  import opened ToolBlocks
  import opened QwenCalls
  import ProseQuotes

  const THINK := "<think>"
  const THINK_END := "</think>"

  /** What the token search can find. `named` says whether a header's name is not blank. */
  datatype Kind =
    | CodeMark
    | Quote(double: bool, mayOpen: bool)
    | Reasoning(open: bool)
    | ToolOpen
    | ToolClose
    | BracketOpen
    | BracketClose
    | FunctionOpen(named: bool)
    | FunctionClose
    | ParameterOpen(named: bool)
    | OtherMark

  datatype Token = Token(start: nat, end: nat, kind: Kind)

  /**
   What the scanner takes from elsewhere: where each closed quoted example ends, which characters are letters or digits,
   and what a quoted JSON string decodes to, if it decodes.
   */
  datatype Lexicon = Lexicon(quotes: map<nat, nat>, alnum: char -> bool, decode: string -> Option<string>)

  predicate QuotesFit(text: string, lex: Lexicon) {
    forall p :: p in lex.quotes ==> lex.quotes[p] <= |text|
  }

  /** The pattern occurs here and ends before the limit. */
  predicate Within(text: string, pattern: string, i: nat, limit: nat) {
    i + |pattern| <= limit && At(text, pattern, i)
  }

  // ---- Tokens ----------------------------------------------------------------------

  const QUOTE_CLOSERS :=
    "\"'\U{201D}\U{2019}\U{BB}\U{203A}\U{201C}\U{2018}\U{300D}\U{300F}\U{301E}\U{301F}\U{FE42}\U{FE44}\U{FF02}\U{FF07}"

  predicate QuoteMark(c: char) {
    ProseQuotes.Closers(c) != "" || c in QUOTE_CLOSERS
  }

  /** A token can only start with one of these. */
  predicate Structural(c: char) {
    c == '<' || c == '`' || c == '~' || c in "{}[]" || QuoteMark(c)
  }

  /** Text in which no token starts. */
  predicate Quiet(s: string) {
    forall i :: 0 <= i < |s| ==> !Structural(s[i])
  }

  function RunEnd(text: string, pos: nat, limit: nat, c: char): (r: nat)
    requires pos <= limit <= |text|
    ensures pos <= r <= limit
    decreases limit - pos
  {
    if pos < limit && text[pos] == c then RunEnd(text, pos + 1, limit, c) else pos
  }

  /** Where the name of a header ends: at an angle bracket, a newline or the limit. */
  function NameEnd(text: string, pos: nat, limit: nat): (r: nat)
    requires pos <= limit <= |text|
    ensures pos <= r <= limit
    decreases limit - pos
  {
    if pos < limit && text[pos] !in "<>\n" then NameEnd(text, pos + 1, limit) else pos
  }

  /** A function or parameter header: its marker, a nonempty name on one line, and the bracket that ends it. */
  function Header(text: string, i: nat, from: nat, limit: nat, function_: bool): (r: Option<Token>)
    requires i < from <= limit <= |text|
    ensures r.Some? ==> r.value.start == i && from < r.value.end <= limit && (r.value.kind.FunctionOpen? || r.value.kind.ParameterOpen?)
  {
    var end := NameEnd(text, from, limit);
    if from < end < limit && text[end] == '>' then
      var named := !Blank(text[from..end]);
      Some(Token(i, end + 1, if function_ then FunctionOpen(named) else ParameterOpen(named)))
    else None
  }

  predicate Tagged(text: string, t: Token) {
    && (t.kind.Reasoning? ==>
          var tag := if t.kind.open then THINK else THINK_END;
          At(text, tag, t.start) && t.end == t.start + |tag|)
    && (t.kind.ToolOpen? ==> At(text, OPEN, t.start) && t.end == t.start + |OPEN|)
  }

  function Mark(text: string, i: nat, limit: nat): (r: Option<Token>)
    requires i < limit <= |text|
    ensures r.Some? ==> r.value.start == i < r.value.end <= limit && Tagged(text, r.value)
  {
    if Within(text, THINK, i, limit) then Some(Token(i, i + |THINK|, Reasoning(true)))
    else if Within(text, THINK_END, i, limit) then Some(Token(i, i + |THINK_END|, Reasoning(false)))
    else if Within(text, OPEN, i, limit) then Some(Token(i, i + |OPEN|, ToolOpen))
    else if Within(text, CLOSE, i, limit) then Some(Token(i, i + |CLOSE|, ToolClose))
    else if Within(text, FUNCTION, i, limit) then Header(text, i, i + |FUNCTION|, limit, true)
    else if Within(text, PARAMETER, i, limit) then Header(text, i, i + |PARAMETER|, limit, false)
    else if Within(text, FUNCTION_END, i, limit) then Some(Token(i, i + |FUNCTION_END|, FunctionClose))
    else if Within(text, PARAMETER_END, i, limit) then Some(Token(i, i + |PARAMETER_END|, OtherMark))
    else None
  }

  /** A mark that closes as it opens, an apostrophe or an inch mark, opens nothing behind a letter or digit. */
  function QuoteKind(text: string, i: nat, lex: Lexicon): Kind
    requires i < |text|
  {
    var closers := ProseQuotes.Closers(text[i]);
    if closers == "" then OtherMark
    else Quote(text[i] == '"', closers != [text[i]] || i == 0 || !lex.alnum(text[i - 1]))
  }

  function TokenAt(text: string, i: nat, limit: nat, lex: Lexicon): (r: Option<Token>)
    requires i < limit <= |text|
    ensures r.Some? ==> r.value.start == i < r.value.end <= limit && Tagged(text, r.value) && Structural(text[i])
  {
    var c := text[i];
    if c == '<' then Mark(text, i, limit)
    else if c == '{' || c == '[' then Some(Token(i, i + 1, BracketOpen))
    else if c == '}' || c == ']' then Some(Token(i, i + 1, BracketClose))
    else if QuoteMark(c) then Some(Token(i, i + 1, QuoteKind(text, i, lex)))
    else if c == '`' then
      var end := RunEnd(text, i + 1, limit, c);
      Some(Token(i, end, CodeMark))
    else if c == '~' then
      var end := RunEnd(text, i + 1, limit, c);
      if i + 3 <= end then Some(Token(i, end, CodeMark)) else None
    else None
  }

  predicate TokenFits(text: string, pos: nat, limit: nat, t: Token) {
    pos <= t.start < t.end <= limit && Tagged(text, t)
  }

  /** The first token from this position that ends before the limit. */
  function NextToken(text: string, pos: nat, limit: nat, lex: Lexicon): (r: Option<Token>)
    requires pos <= limit <= |text|
    ensures r.Some? ==> TokenFits(text, pos, limit, r.value)
    decreases limit - pos
  {
    if pos == limit then None
    else
      var here := TokenAt(text, pos, limit, lex);
      if here.Some? then here else NextToken(text, pos + 1, limit, lex)
  }

  /** Behind quiet text, the token that stands there is the next one. */
  lemma {:induction false} TokenIsNext(text: string, pos: nat, at: nat, limit: nat, lex: Lexicon, token: Token)
    requires pos <= at < limit <= |text| && Quiet(text[pos..at])
    requires TokenAt(text, at, limit, lex) == Some(token)
    ensures NextToken(text, pos, limit, lex) == Some(token)
    decreases at - pos
  {
    if pos < at {
      assert text[pos..at][0] == text[pos];
      assert text[pos + 1..at] == text[pos..at][1..];
      TokenIsNext(text, pos + 1, at, limit, lex, token);
    }
  }

  lemma {:induction false} NoTokenIsNext(text: string, pos: nat, limit: nat, lex: Lexicon)
    requires pos <= limit <= |text| && Quiet(text[pos..limit])
    ensures NextToken(text, pos, limit, lex) == None
    decreases limit - pos
  {
    if pos < limit {
      assert text[pos..limit][0] == text[pos];
      assert text[pos + 1..limit] == text[pos..limit][1..];
      NoTokenIsNext(text, pos + 1, limit, lex);
    }
  }

  lemma BlankIsQuiet(s: string)
    requires Blank(s)
    ensures Quiet(s)
  {
  }

  // ---- JSON ------------------------------------------------------------------------

  function SkipSpace(text: string, pos: nat, limit: nat): (r: nat)
    requires pos <= limit <= |text|
    ensures pos <= r <= limit && Blank(text[pos..r]) && (r < limit ==> !IsSpace(text[r]))
    decreases limit - pos
  {
    if pos < limit && IsSpace(text[pos]) then SkipSpace(text, pos + 1, limit) else pos
  }

  /** Behind the brace of a JSON object, if one starts here. */
  function ObjectStart(text: string, pos: nat, limit: nat): (r: Option<nat>)
    requires pos <= limit <= |text|
    ensures r.Some? ==> pos < r.value <= limit && text[r.value - 1] == '{' && Blank(text[pos..r.value - 1])
  {
    var p := SkipSpace(text, pos, limit);
    if p < limit && text[p] == '{' then Some(p + 1) else None
  }

  /** Behind the quote that ends a JSON string whose opening quote was just read, or the limit; escapes are skipped. */
  function JsonStringEnd(text: string, pos: nat, limit: nat): (r: nat)
    requires pos <= limit <= |text|
    ensures pos <= r <= limit
    decreases limit - pos
  {
    if pos == limit then limit
    else if text[pos] == '"' then pos + 1
    else if text[pos] == '\\' then if pos + 1 == limit then limit else JsonStringEnd(text, pos + 2, limit)
    else JsonStringEnd(text, pos + 1, limit)
  }

  predicate ReasoningTagAt(text: string, i: nat, limit: nat) {
    Within(text, THINK, i, limit) || Within(text, THINK_END, i, limit)
  }

  /** The markers of the header search: an escape, a quote or a reasoning tag. */
  predicate HeaderMarker(text: string, i: nat, limit: nat)
    requires i < limit <= |text|
  {
    || text[i] == '"'
    || (text[i] == '\\' && i + 1 < limit)
    || (text[i] == '<' && ReasoningTagAt(text, i, limit))
  }

  /** The end of a key or name, at its quote or an actual reasoning tag, and whether it was a quote. */
  function HeaderEnd(text: string, pos: nat, limit: nat): (r: (nat, bool))
    requires pos <= limit <= |text|
    ensures pos <= r.0 <= limit && (r.1 ==> pos < r.0 && text[r.0 - 1] == '"')
    decreases limit - pos
  {
    if pos == limit then (limit, false)
    else if !HeaderMarker(text, pos, limit) then HeaderEnd(text, pos + 1, limit)
    else if text[pos] == '"' then (pos + 1, true)
    else if text[pos] == '<' then (pos, false)
    else HeaderEnd(text, pos + 2, limit)
  }

  method NextHeaderMarker(text: string, pos: nat, limit: nat) returns (r: nat)
    requires pos <= limit <= |text|
    ensures pos <= r <= limit && (r < limit ==> HeaderMarker(text, r, limit))
    ensures HeaderEnd(text, r, limit) == HeaderEnd(text, pos, limit)
  {
    r := pos;
    while r < limit && !HeaderMarker(text, r, limit)
      invariant pos <= r <= limit
      invariant HeaderEnd(text, r, limit) == HeaderEnd(text, pos, limit)
    {
      r := r + 1;
    }
  }

  /** Each round goes on behind an escape or stops; nothing is searched twice. */
  method JsonHeaderEnd(text: string, pos: nat, limit: nat) returns (end: nat, closed: bool)
    requires pos <= limit <= |text|
    ensures (end, closed) == HeaderEnd(text, pos, limit)
  {
    var p := NextHeaderMarker(text, pos, limit);
    while p < limit
      invariant pos <= p <= limit && (p < limit ==> HeaderMarker(text, p, limit))
      invariant HeaderEnd(text, p, limit) == HeaderEnd(text, pos, limit)
      decreases limit - p
    {
      if text[p] == '"' {
        return p + 1, true;
      } else if text[p] == '<' {
        return p, false;
      }
      p := NextHeaderMarker(text, p + 2, limit);
    }
    end, closed := limit, false;
  }

  const ARGUMENT_STARTS := "[{\""

  /** Behind the character a key's value starts with, if it starts an array, an object or a string. */
  function ArgumentStart(text: string, pos: nat, limit: nat): (r: Option<nat>)
    requires pos <= limit <= |text|
    ensures r.Some? ==> pos < r.value <= limit && text[r.value - 1] in ARGUMENT_STARTS
  {
    var colon := SkipSpace(text, pos, limit);
    if colon == limit || text[colon] != ':' then None
    else
      var p := SkipSpace(text, colon + 1, limit);
      if p < limit && text[p] in ARGUMENT_STARTS then Some(p + 1) else None
  }

  predicate ArgumentsKey(key: string) {
    key == "arguments" || key == "parameters"
  }

  predicate Word(text: string, pattern: string, i: nat, limit: nat, lex: Lexicon)
    requires limit <= |text|
  {
    var end := i + |pattern|;
    Within(text, pattern, i, limit) && (end == limit || !(lex.alnum(text[end]) || text[end] == '_'))
  }

  const VALUE_STARTS := "\"{[-0123456789"

  /** Whether JSON goes on behind a string: a closing bracket, or a colon or comma and the start of a value. */
  predicate JsonFollows(text: string, pos: nat, limit: nat, lex: Lexicon)
    requires pos <= limit <= |text|
  {
    var p := SkipSpace(text, pos, limit);
    && p < limit
    && (|| text[p] in "}]"
        || (text[p] in ":," &&
            var v := SkipSpace(text, p + 1, limit);
            && v < limit
            && (text[v] in VALUE_STARTS || Word(text, "true", v, limit, lex) || Word(text, "false", v, limit, lex)
                || Word(text, "null", v, limit, lex))))
  }

  // ---- Parameter values ------------------------------------------------------------------

  /** One of the markers that end a parameter's value. */
  predicate Closer(text: string, i: nat, limit: nat) {
    Within(text, PARAMETER_END, i, limit) || Within(text, FUNCTION_END, i, limit) || Within(text, CLOSE, i, limit)
  }

  /** A value ends at the first closing marker, or with its scope. */
  function ValueEnd(text: string, pos: nat, limit: nat): (r: nat)
    requires pos <= limit <= |text|
    ensures pos <= r <= limit && (r == limit || Closer(text, r, limit))
    ensures forall i :: pos <= i < r ==> !Closer(text, i, limit)
    decreases limit - pos
  {
    if pos == limit || Closer(text, pos, limit) then pos else ValueEnd(text, pos + 1, limit)
  }

  /**
   Inside reasoning a value also ends at an unmatched closing tag, when a new call or the end of the scope comes before
   any closing marker; the last such tag is the one.
   */
  function ReasoningValueEnd(text: string, pos: nat, limit: nat, depth: nat, boundary: Option<nat>): (r: nat)
    requires pos <= limit <= |text|
    ensures r <= limit || Some(r) == boundary
    ensures pos <= r || Some(r) == boundary
    decreases limit - pos
  {
    if pos == limit then if boundary.Some? then boundary.value else limit
    else if Within(text, THINK, pos, limit) then ReasoningValueEnd(text, pos + |THINK|, limit, depth + 1, boundary)
    else if Within(text, THINK_END, pos, limit) then
      if depth > 0 then ReasoningValueEnd(text, pos + |THINK_END|, limit, depth - 1, boundary)
      else ReasoningValueEnd(text, pos + |THINK_END|, limit, depth, Some(pos))
    else if Within(text, OPEN, pos, limit) then
      if boundary.Some? then boundary.value else ReasoningValueEnd(text, pos + |OPEN|, limit, depth, boundary)
    else if Closer(text, pos, limit) then pos
    else ReasoningValueEnd(text, pos + 1, limit, depth, boundary)
  }

  /** No closing tag of reasoning between these positions. */
  predicate NoThinkEnd(text: string, pos: nat, end: nat, limit: nat) {
    forall i :: pos <= i < end ==> !Within(text, THINK_END, i, limit)
  }

  predicate IsValueEnd(text: string, pos: nat, limit: nat, v: nat) {
    pos <= v <= limit <= |text| && (v == limit || Closer(text, v, limit)) && forall i :: pos <= i < v ==> !Closer(text, i, limit)
  }

  lemma MarkerStops(text: string, marker: string, pos: nat, limit: nat, v: nat)
    requires Markup.Tag(marker) && Within(text, marker, pos, limit) && IsValueEnd(text, pos, limit, v) && pos < v
    ensures pos + |marker| <= v
  {
    if v < pos + |marker| {
      AtChar(text, marker, pos, v - pos);
      StartsWithAngle(text, v, limit);
    }
  }

  lemma StartsWithAngle(text: string, i: nat, limit: nat)
    requires Closer(text, i, limit)
    ensures text[i] == '<'
  {
    if At(text, PARAMETER_END, i) {
      AtChar(text, PARAMETER_END, i, 0);
    } else if At(text, FUNCTION_END, i) {
      AtChar(text, FUNCTION_END, i, 0);
    } else {
      AtChar(text, CLOSE, i, 0);
    }
  }

  lemma StaysValueEnd(text: string, pos: nat, next: nat, limit: nat, v: nat)
    requires IsValueEnd(text, pos, limit, v) && pos <= next <= v
    ensures IsValueEnd(text, next, limit, v)
  {
  }

  /** The search goes on behind the marker here, or one character on. */
  predicate Jumps(text: string, pos: nat, limit: nat, next: nat) {
    || next == pos + 1
    || (Within(text, THINK, pos, limit) && next == pos + |THINK|)
    || (Within(text, THINK_END, pos, limit) && next == pos + |THINK_END|)
    || (Within(text, OPEN, pos, limit) && next == pos + |OPEN|)
  }

  lemma JumpsStop(text: string, pos: nat, limit: nat, next: nat, v: nat)
    requires IsValueEnd(text, pos, limit, v) && pos < v && Jumps(text, pos, limit, next)
    ensures pos < next <= v
  {
    if Within(text, THINK, pos, limit) {
      MarkerStops(text, THINK, pos, limit, v);
    }
    if Within(text, THINK_END, pos, limit) {
      MarkerStops(text, THINK_END, pos, limit, v);
    }
    if Within(text, OPEN, pos, limit) {
      MarkerStops(text, OPEN, pos, limit, v);
    }
  }

  /** One step of the search before a closing marker: it is over, or goes on further behind. */
  lemma {:induction false} SearchStep(text: string, pos: nat, limit: nat, depth: nat, boundary: Option<nat>)
    returns (over: bool, next: nat, depth': nat, boundary': Option<nat>)
    requires pos < limit <= |text| && !Closer(text, pos, limit) && (boundary.Some? ==> boundary.value <= pos)
    ensures over ==> Some(ReasoningValueEnd(text, pos, limit, depth, boundary)) == boundary
    ensures !over ==>
              && Jumps(text, pos, limit, next) && next <= limit && (boundary'.Some? ==> boundary'.value <= pos)
              && ReasoningValueEnd(text, pos, limit, depth, boundary) == ReasoningValueEnd(text, next, limit, depth', boundary')
              && (boundary.None? && !Within(text, THINK_END, pos, limit) ==> boundary'.None?)
  {
    over, next, depth', boundary' := false, pos + 1, depth, boundary;
    if Within(text, THINK, pos, limit) {
      next, depth' := pos + |THINK|, depth + 1;
    } else if Within(text, THINK_END, pos, limit) {
      next, depth', boundary' := pos + |THINK_END|, if depth > 0 then depth - 1 else 0, if depth > 0 then boundary else Some(pos);
    } else if Within(text, OPEN, pos, limit) {
      over, next := boundary.Some?, pos + |OPEN|;
    }
  }

  lemma AtCloser(text: string, v: nat, limit: nat, depth: nat, boundary: Option<nat>)
    requires v <= limit <= |text| && (v == limit || Closer(text, v, limit)) && (boundary.Some? ==> boundary.value <= v)
    ensures ReasoningValueEnd(text, v, limit, depth, boundary) <= v
    ensures boundary.None? ==> ReasoningValueEnd(text, v, limit, depth, boundary) == v
  {
    if v < limit {
      CloserIsNoOther(text, v, limit);
    }
  }

  lemma {:induction false} EndsBy(text: string, pos: nat, limit: nat, depth: nat, boundary: Option<nat>, v: nat)
    requires IsValueEnd(text, pos, limit, v) && (boundary.Some? ==> boundary.value <= pos)
    ensures ReasoningValueEnd(text, pos, limit, depth, boundary) <= v
    ensures boundary.None? && NoThinkEnd(text, pos, v, limit) ==> ReasoningValueEnd(text, pos, limit, depth, boundary) == v
    decreases limit - pos
  {
    if pos == v {
      AtCloser(text, v, limit, depth, boundary);
    } else {
      var over, next, depth', boundary' := SearchStep(text, pos, limit, depth, boundary);
      if !over {
        JumpsStop(text, pos, limit, next, v);
        StaysValueEnd(text, pos, next, limit, v);
        EndsBy(text, next, limit, depth', boundary', v);
      }
    }
  }

  lemma CloserIsNoOther(text: string, i: nat, limit: nat)
    requires Closer(text, i, limit)
    ensures !ReasoningTagAt(text, i, limit) && !Within(text, OPEN, i, limit)
  {
    Differ(text, i);
  }

  lemma Differ(text: string, i: nat)
    ensures At(text, PARAMETER_END, i) || At(text, FUNCTION_END, i) || At(text, CLOSE, i) ==>
              !At(text, THINK, i) && !At(text, THINK_END, i) && !At(text, OPEN, i)
  {
    if At(text, PARAMETER_END, i) {
      AtChar(text, PARAMETER_END, i, 1);
      AtChar(text, PARAMETER_END, i, 2);
    } else if At(text, FUNCTION_END, i) {
      AtChar(text, FUNCTION_END, i, 1);
      AtChar(text, FUNCTION_END, i, 2);
    } else if At(text, CLOSE, i) {
      AtChar(text, CLOSE, i, 1);
      AtChar(text, CLOSE, i, 2);
      AtChar(text, CLOSE, i, 3);
    }
    SecondChars(text, i);
  }

  lemma SecondChars(text: string, i: nat)
    ensures At(text, THINK, i) ==> text[i + 1] == 't'
    ensures At(text, OPEN, i) ==> text[i + 1] == 't'
    ensures At(text, THINK_END, i) ==> text[i + 2] == 't' && text[i + 3] == 'h'
  {
    if At(text, THINK, i) {
      AtChar(text, THINK, i, 1);
    }
    if At(text, OPEN, i) {
      AtChar(text, OPEN, i, 1);
    }
    if At(text, THINK_END, i) {
      AtChar(text, THINK_END, i, 2);
      AtChar(text, THINK_END, i, 3);
    }
  }

  /**
   A value mentioned in reasoning never reaches past the marker that would close it in an actual call, and where no
   closing tag of reasoning comes before that marker, both end there.
   */
  lemma ReasoningEndsNoLater(text: string, pos: nat, limit: nat)
    requires pos <= limit <= |text|
    ensures ReasoningValueEnd(text, pos, limit, 0, None) <= ValueEnd(text, pos, limit)
    ensures NoThinkEnd(text, pos, ValueEnd(text, pos, limit), limit) ==>
              ReasoningValueEnd(text, pos, limit, 0, None) == ValueEnd(text, pos, limit)
  {
    EndsBy(text, pos, limit, 0, None, ValueEnd(text, pos, limit));
  }

  predicate ValueMarker(text: string, i: nat, limit: nat) {
    ReasoningTagAt(text, i, limit) || Within(text, OPEN, i, limit) || Closer(text, i, limit)
  }

  method XmlReasoningValueEnd(text: string, pos: nat, limit: nat) returns (end: nat)
    requires pos <= limit <= |text|
    ensures end == ReasoningValueEnd(text, pos, limit, 0, None)
  {
    var depth: nat, boundary: Option<nat>, p := 0, None, pos;
    while p < limit
      invariant pos <= p <= limit
      invariant ReasoningValueEnd(text, p, limit, depth, boundary) == ReasoningValueEnd(text, pos, limit, 0, None)
    {
      if !ValueMarker(text, p, limit) {
        p := p + 1;
      } else if Within(text, THINK, p, limit) {
        p, depth := p + |THINK|, depth + 1;
      } else if Within(text, THINK_END, p, limit) {
        if depth > 0 {
          depth := depth - 1;
        } else {
          boundary := Some(p);
        }
        p := p + |THINK_END|;
      } else if Within(text, OPEN, p, limit) {
        if boundary.Some? {
          return boundary.value;
        }
        p := p + |OPEN|;
      } else {
        return p;
      }
    }
    end := if boundary.Some? then boundary.value else limit;
  }
}
