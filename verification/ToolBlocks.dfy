/**
 Separating tool-call blocks from content (proxyserver/tokenization/tool_parser.py, BaseToolParser.parse), for any
 block parser: which blocks are consumed, that no text is lost, and how much text is handed to the block parser.
 */
module ToolBlocks {
  import opened Wrappers
  import opened Text

  const OPEN := "<tool_call>"
  const CLOSE := "</tool_call>"

  /** A parsed call; its arguments in the order a dictionary keeps them. */
  datatype Call = Call(name: string, arguments: seq<(string, string)>)

  /** A block parser: None for damaged markup, no calls when the block holds none. */
  type BlockParser = string -> Option<seq<Call>>

  /** A block between an opener and the closer that ends it, and what it parsed to. */
  datatype Piece = Piece(start: nat, close: nat, calls: seq<Call>)

  // ---- The blocks of a text, one per close marker -------------------------------

  function Body(text: string, start: nat, close: nat): string {
    if start + |OPEN| <= close <= |text| then Strip(text[start + |OPEN|..close]) else ""
  }

  function CallsOf(parsed: Option<seq<Call>>): seq<Call> {
    if parsed.Some? then parsed.value else []
  }

  /** A block that parses to nothing is retried once from its innermost opener. */
  function Pick(text: string, parse: BlockParser, start: nat, close: nat): Piece {
    var outer := parse(Body(text, start, close));
    if outer == Some([]) && start + |OPEN| <= close <= |text| && FindLast(text, OPEN, start + |OPEN|, close) >= 0 then
      var inner := FindLast(text, OPEN, start + |OPEN|, close);
      Piece(inner, close, CallsOf(parse(Body(text, inner, close))))
    else Piece(start, close, CallsOf(outer))
  }

  function With(before: seq<Piece>, piece: Piece): seq<Piece> {
    if piece.calls == [] then before else before + [piece]
  }

  /** Each close marker ends at most one block: the one from the first opener since the previous close marker. */
  function Pieces(text: string, parse: BlockParser, from: nat, before: seq<Piece>): seq<Piece>
    decreases |text| - from
  {
    var close := Find(text, CLOSE, from);
    if close < 0 then before
    else
      var start := Find(text, OPEN, from);
      if start < 0 || close < start + |OPEN| then Pieces(text, parse, close + |CLOSE|, before)
      else Pieces(text, parse, close + |CLOSE|, With(before, Pick(text, parse, start, close)))
  }

  lemma MarkersAreApart(text: string, s: nat, c: nat)
    requires At(text, OPEN, s) && At(text, CLOSE, c)
    ensures c + |CLOSE| <= s || s + |OPEN| <= c
  {
    forall k | 0 <= k < |OPEN| ensures text[s + k] == OPEN[k] {
      assert text[s..s + |OPEN|][k] == OPEN[k];
    }
    forall k | 0 <= k < |CLOSE| ensures text[c + k] == CLOSE[k] {
      assert text[c..c + |CLOSE|][k] == CLOSE[k];
    }
    assert forall k :: 0 < k < |OPEN| ==> OPEN[k] != '<';
    assert forall k :: 0 < k < |CLOSE| ==> CLOSE[k] != '<';
    assert text[c] == '<' && text[s] == '<' && text[c + 1] == '/' && text[s + 1] == 't';
    assert c <= s ==> s == c || c + |CLOSE| <= s by {
      assert forall j :: c < j < c + |CLOSE| ==> text[j] == CLOSE[j - c];
    }
    assert s <= c ==> s == c || s + |OPEN| <= c by {
      assert forall j :: s < j < s + |OPEN| ==> text[j] == OPEN[j - s];
    }
  }

  lemma {:induction false} NoOpener(text: string, parse: BlockParser, from: nat, before: seq<Piece>)
    requires Find(text, OPEN, from) < 0
    ensures Pieces(text, parse, from, before) == before
    decreases |text| - from
  {
    var close := Find(text, CLOSE, from);
    if close >= 0 {
      FindNone(text, OPEN, close + |CLOSE|);
      NoOpener(text, parse, close + |CLOSE|, before);
    }
  }

  lemma NoCloserAhead(text: string, from: nat, start: nat)
    requires Find(text, CLOSE, from) < 0 && from <= start
    ensures Find(text, CLOSE, start + |OPEN|) < 0
  {
    FindNone(text, CLOSE, start + |OPEN|);
  }

  lemma FirstCloser(text: string, from: nat, start: nat, first: nat)
    requires Find(text, OPEN, from) == start && Find(text, CLOSE, from) == first
    ensures if first < start then first + |CLOSE| <= start && Find(text, OPEN, first + |CLOSE|) == start
            else start + |OPEN| <= first && Find(text, CLOSE, start + |OPEN|) == first
  {
    MarkersAreApart(text, start, first);
    if first < start {
      FindIs(text, OPEN, first + |CLOSE|, start);
    } else {
      FindIs(text, CLOSE, start + |OPEN|, first);
    }
  }

  lemma PiecesStep(text: string, parse: BlockParser, from: nat, before: seq<Piece>, start: nat, close: nat)
    requires Find(text, OPEN, from) == start && Find(text, CLOSE, from) == close && start + |OPEN| <= close
    ensures Pieces(text, parse, from, before) == Pieces(text, parse, close + |CLOSE|, With(before, Pick(text, parse, start, close)))
  {
  }

  lemma PiecesStepAt(text: string, parse: BlockParser, from: nat, before: seq<Piece>, start: nat, close: nat, next: nat)
    requires Find(text, OPEN, from) == start && Find(text, CLOSE, from) == close && start + |OPEN| <= close
    requires next == close + |CLOSE|
    ensures Pieces(text, parse, from, before) == Pieces(text, parse, next, With(before, Pick(text, parse, start, close)))
  {
  }

  lemma PiecesStepTo(text: string, parse: BlockParser, from: nat, before: seq<Piece>, start: nat, close: nat, next: nat,
                     after: seq<Piece>)
    requires Find(text, OPEN, from) == start && Find(text, CLOSE, from) == close && start + |OPEN| <= close
    requires next == close + |CLOSE| && after == With(before, Pick(text, parse, start, close))
    ensures Pieces(text, parse, from, before) == Pieces(text, parse, next, after)
  {
    PiecesStepAt(text, parse, from, before, start, close, next);
  }

  lemma PiecesSkipAt(text: string, parse: BlockParser, from: nat, before: seq<Piece>, start: nat, close: nat, next: nat)
    requires Find(text, OPEN, from) == start && Find(text, CLOSE, from) == close && close < start + |OPEN|
    requires next == close + |CLOSE|
    ensures Pieces(text, parse, from, before) == Pieces(text, parse, next, before)
  {
  }

  lemma PiecesSkip(text: string, parse: BlockParser, from: nat, before: seq<Piece>, start: nat, close: nat)
    requires Find(text, OPEN, from) == start && Find(text, CLOSE, from) == close && close < start
    ensures Pieces(text, parse, from, before) == Pieces(text, parse, close + |CLOSE|, before)
  {
    PiecesSkipAt(text, parse, from, before, start, close, close + |CLOSE|);
  }

  lemma NoPieces(text: string, parse: BlockParser, from: nat, before: seq<Piece>)
    requires Find(text, CLOSE, from) < 0
    ensures Pieces(text, parse, from, before) == before
  {
  }

  /** Close markers before the next opener end nothing. */
  lemma {:induction false} SkipClosers(text: string, parse: BlockParser, from: nat, before: seq<Piece>, start: nat) returns (at: nat)
    requires Find(text, OPEN, from) == start
    ensures Pieces(text, parse, at, before) == Pieces(text, parse, from, before)
    ensures Find(text, OPEN, at) == start
    ensures Find(text, CLOSE, at) == Find(text, CLOSE, start + |OPEN|)
    decreases |text| - from
  {
    var first := Find(text, CLOSE, from);
    at := from;
    if first < 0 {
      NoCloserAhead(text, from, start);
    } else {
      FirstCloser(text, from, start, first);
      if first < start {
        PiecesSkip(text, parse, from, before, start, first);
        at := SkipClosers(text, parse, first + |CLOSE|, before, start);
      }
    }
  }

  /** Looking for an opener first and its closer next visits the same blocks. */
  lemma OpenerFirst(text: string, parse: BlockParser, from: nat, before: seq<Piece>, start: nat, close: nat)
    requires Find(text, OPEN, from) == start && Find(text, CLOSE, start + |OPEN|) == close
    ensures Pieces(text, parse, from, before) == Pieces(text, parse, close + |CLOSE|, With(before, Pick(text, parse, start, close)))
  {
    var at := SkipClosers(text, parse, from, before, start);
    PiecesStep(text, parse, at, before, start, close);
  }

  lemma OpenerFirstTo(text: string, parse: BlockParser, from: nat, before: seq<Piece>, start: nat, close: nat, next: nat,
                      after: seq<Piece>)
    requires Find(text, OPEN, from) == start && Find(text, CLOSE, start + |OPEN|) == close
    requires next == close + |CLOSE| && after == With(before, Pick(text, parse, start, close))
    ensures Pieces(text, parse, from, before) == Pieces(text, parse, next, after)
  {
    OpenerFirst(text, parse, from, before, start, close);
  }

  /** An opener no close marker follows opens nothing, and neither does any later one. */
  lemma NeverClosed(text: string, parse: BlockParser, from: nat, before: seq<Piece>, start: nat)
    requires Find(text, OPEN, from) == start && Find(text, CLOSE, start + |OPEN|) < 0
    ensures Pieces(text, parse, from, before) == before
  {
    var at := SkipClosers(text, parse, from, before, start);
    NoPieces(text, parse, at, before);
  }

  // ---- The scan -------------------------------------------------------------------

  predicate Consumed(text: string, parse: BlockParser, piece: Piece) {
    && At(text, OPEN, piece.start) && At(text, CLOSE, piece.close) && piece.start + |OPEN| <= piece.close
    && (forall c :: piece.start <= c < piece.close ==> !At(text, CLOSE, c))
    && parse(Body(text, piece.start, piece.close)) == Some(piece.calls) && piece.calls != []
  }

  function AllCalls(pieces: seq<Piece>): seq<Call> {
    if pieces == [] then [] else AllCalls(pieces[..|pieces| - 1]) + pieces[|pieces| - 1].calls
  }

  function Joined(parts: seq<string>): string {
    if parts == [] then "" else Joined(parts[..|parts| - 1]) + parts[|parts| - 1]
  }

  /** Content parts and consumed blocks in turn. */
  function Interleaved(parts: seq<string>, blocks: seq<string>): string
    requires |parts| == |blocks|
  {
    if parts == [] then "" else
      Interleaved(parts[..|parts| - 1], blocks[..|blocks| - 1]) + parts[|parts| - 1] + blocks[|blocks| - 1]
  }

  /** What one block costs and yields. */
  method PickBlock(text: string, parse: BlockParser, start: nat, close: nat) returns (piece: Piece, ghost handed: int)
    requires At(text, OPEN, start) && Find(text, CLOSE, start + |OPEN|) == close
    ensures piece == Pick(text, parse, start, close) && start <= piece.start <= piece.close == close
    ensures piece.calls != [] ==> Consumed(text, parse, piece)
    ensures handed <= 2 * (close - start)
  {
    var body := text[start + |OPEN|..close];
    handed := |body|;
    var parsed := parse(Strip(body));
    var from := start;
    if parsed == Some([]) {
      var inner := FindLast(text, OPEN, start + |OPEN|, close);
      if inner >= 0 {
        from := inner;
        body := text[inner + |OPEN|..close];
        handed := handed + |body|;
        parsed := parse(Strip(body));
      }
    }
    piece := Piece(from, close, CallsOf(parsed));
    NoCloserInside(text, start, from, close);
  }

  lemma NoCloserInside(text: string, start: nat, from: nat, close: nat)
    requires At(text, OPEN, start) && Find(text, CLOSE, start + |OPEN|) == close && start <= from
    ensures forall c :: from <= c < close ==> !At(text, CLOSE, c)
  {
    forall c | from <= c < close ensures !At(text, CLOSE, c) {
      if At(text, CLOSE, c) {
        MarkersAreApart(text, start, c);
      }
    }
  }

  lemma AppendPiece(text: string, pieces: seq<Piece>, piece: Piece)
    ensures AllCalls(pieces + [piece]) == AllCalls(pieces) + piece.calls
  {
    assert (pieces + [piece])[..|pieces|] == pieces;
  }

  lemma AppendPart(parts: seq<string>, blocks: seq<string>, part: string, block: string)
    requires |parts| == |blocks|
    ensures Interleaved(parts + [part], blocks + [block]) == Interleaved(parts, blocks) + part + block
  {
    assert (parts + [part])[..|parts|] == parts;
    assert (blocks + [block])[..|blocks|] == blocks;
  }

  function BlockOf(text: string, piece: Piece): string {
    if piece.start <= piece.close + |CLOSE| <= |text| then text[piece.start..piece.close + |CLOSE|] else ""
  }

  /** The consumed blocks, and the content parts before each of them, make up the text so far. */
  ghost predicate Separated(text: string, parse: BlockParser, pieces: seq<Piece>, parts: seq<string>, blocks: seq<string>, last: nat) {
    && last <= |text| && |parts| == |blocks| == |pieces|
    && Interleaved(parts, blocks) == text[..last]
    && forall k :: 0 <= k < |pieces| ==> Consumed(text, parse, pieces[k]) && blocks[k] == BlockOf(text, pieces[k])
  }

  lemma NextPart(text: string, last: nat, start: nat, end: nat)
    requires last <= start <= end <= |text|
    ensures text[..last] + text[last..start] + text[start..end] == text[..end]
  {
  }

  lemma SeparatesNext(text: string, parse: BlockParser, pieces: seq<Piece>, parts: seq<string>, blocks: seq<string>,
                      last: nat, piece: Piece)
    requires Separated(text, parse, pieces, parts, blocks, last)
    requires Consumed(text, parse, piece) && last <= piece.start
    ensures Separated(text, parse, pieces + [piece], parts + [text[last..piece.start]], blocks + [BlockOf(text, piece)],
                      piece.close + |CLOSE|)
  {
    AppendPart(parts, blocks, text[last..piece.start], BlockOf(text, piece));
    NextPart(text, last, piece.start, piece.close + |CLOSE|);
  }

  lemma {:induction false} BlockIsNext(text: string, parse: BlockParser, pos: nat, before: seq<Piece>, start: nat, close: nat,
                                       next: nat, piece: Piece, after: seq<Piece>)
    requires Find(text, OPEN, pos) == start && Find(text, CLOSE, start + |OPEN|) == close && next == close + |CLOSE|
    requires piece == Pick(text, parse, start, close) && after == With(before, piece)
    ensures Pieces(text, parse, pos, before) == Pieces(text, parse, next, after)
  {
    OpenerFirst(text, parse, pos, before, start, close);
  }

  /** The next block a close marker ends, if any, and where the scan goes on. */
  method NextBlock(text: string, parse: BlockParser, pos: nat, ghost before: seq<Piece>)
    returns (piece: Option<Piece>, next: nat, ghost after: seq<Piece>, ghost handed: int)
    requires pos <= |text|
    ensures piece.None? ==> Pieces(text, parse, pos, before) == before
    ensures piece.Some? ==> Pieces(text, parse, pos, before) == Pieces(text, parse, next, after)
    ensures piece.Some? ==>
              && pos <= piece.value.start <= piece.value.close && next == piece.value.close + |CLOSE| <= |text|
              && after == With(before, piece.value)
              && (piece.value.calls != [] ==> Consumed(text, parse, piece.value))
    ensures piece.Some? ==> handed <= 2 * (next - pos)
    ensures piece.None? ==> handed == 0
  {
    piece, next, after, handed := None, pos, before, 0;
    var start := Find(text, OPEN, pos);
    if start < 0 {
      NoOpener(text, parse, pos, before);
      return;
    }
    var end := Find(text, CLOSE, start + |OPEN|);
    if end < 0 {
      NeverClosed(text, parse, pos, before, start);
      return;
    }
    var picked: Piece;
    picked, handed := PickBlock(text, parse, start, end);
    next := end + |CLOSE|;
    after := With(before, picked);
    BlockIsNext(text, parse, pos, before, start, end, next, picked, after);
    piece := Some(picked);
  }

  /** Adds a block that gave calls to what has been read; any other block stays in the content. */
  method Consume(text: string, parse: BlockParser, piece: Piece, calls: seq<Call>, contentParts: seq<string>, consumed: nat,
                 ghost pieces: seq<Piece>, ghost after: seq<Piece>, ghost blocks: seq<string>)
    returns (calls': seq<Call>, parts': seq<string>, consumed': nat, ghost blocks': seq<string>)
    requires calls == AllCalls(pieces) && Separated(text, parse, pieces, contentParts, blocks, consumed)
    requires consumed <= piece.start && piece.start <= piece.close && piece.close + |CLOSE| <= |text|
    requires (piece.calls != [] ==> Consumed(text, parse, piece)) && after == With(pieces, piece)
    ensures calls' == AllCalls(after) && Separated(text, parse, after, parts', blocks', consumed')
    ensures consumed' <= piece.close + |CLOSE|
  {
    calls', parts', consumed', blocks' := calls, contentParts, consumed, blocks;
    if piece.calls != [] {
      SeparatesNext(text, parse, pieces, contentParts, blocks, consumed, piece);
      AppendPiece(text, pieces, piece);
      parts' := contentParts + [text[consumed..piece.start]];
      blocks' := blocks + [BlockOf(text, piece)];
      calls' := calls + piece.calls;
      consumed' := piece.close + |CLOSE|;
    }
  }

  /** The loop over the blocks. */
  method Scan(text: string, parse: BlockParser)
    returns (calls: seq<Call>, contentParts: seq<string>, consumed: nat, ghost blocks: seq<string>, ghost pieces: seq<Piece>,
             ghost handed: int)
    ensures pieces == Pieces(text, parse, 0, []) && calls == AllCalls(pieces)
    ensures Separated(text, parse, pieces, contentParts, blocks, consumed)
    ensures handed <= 2 * |text|
  {
    calls, contentParts, consumed, pieces, blocks, handed := [], [], 0, [], [], 0;
    var pos: nat := 0;
    while true
      invariant consumed <= pos <= |text|
      invariant Pieces(text, parse, pos, pieces) == Pieces(text, parse, 0, [])
      invariant calls == AllCalls(pieces)
      invariant Separated(text, parse, pieces, contentParts, blocks, consumed)
      invariant handed <= 2 * pos
      decreases |text| - pos
    {
      var found: Option<Piece>, next: nat;
      ghost var after: seq<Piece>, h: int;
      found, next, after, h := NextBlock(text, parse, pos, pieces);
      handed := handed + h;
      if found.None? {
        break;
      }
      calls, contentParts, consumed, blocks := Consume(text, parse, found.value, calls, contentParts, consumed, pieces, after, blocks);
      pieces := after;
      pos := next;
    }
  }

  /**
   The calls are those of the blocks found close marker by close marker, each consumed block gave at least one call,
   the content is everything else in order, and the block parser sees at most twice the text.
   */
  method Parse(text: string, parse: BlockParser)
    returns (content: string, calls: seq<Call>, ghost parts: seq<string>, ghost blocks: seq<string>,
             ghost pieces: seq<Piece>, ghost last: nat, ghost handed: int)
    ensures pieces == Pieces(text, parse, 0, []) && calls == AllCalls(pieces)
    ensures Separated(text, parse, pieces, parts, blocks, last)
    ensures Interleaved(parts, blocks) + text[last..] == text
    ensures content == Strip(Joined(parts + [text[last..]]))
    ensures handed <= 2 * |text|
  {
    var contentParts: seq<string>, consumed: nat;
    calls, contentParts, consumed, blocks, pieces, handed := Scan(text, parse);
    parts, last := contentParts, consumed;
    WholeText(text, consumed);
    content := Strip(Joined(contentParts + [text[consumed..]]));
  }

  lemma WholeText(text: string, n: nat)
    requires n <= |text|
    ensures text[..n] + text[n..] == text
  {
  }
}
