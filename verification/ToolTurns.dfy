/**
 A whole turn with tool calls (proxyserver/tokenization/tool_parser.py): when each printed block is read back by the
 block parser, the outer scan reads back the turn, whatever text surrounds the calls.
 */
module ToolTurns {
  import opened Wrappers
  import opened Text
  import opened Markup
  import opened ToolBlocks

  function Wrapped(inner: string): string {
    OPEN + inner + CLOSE
  }

  /** Calls, each after some text of its own, and a last text. */
  function Turn(leads: seq<string>, inners: seq<string>, tail: string): string
    requires |leads| == |inners|
  {
    if leads == [] then tail else leads[0] + Wrapped(inners[0]) + Turn(leads[1..], inners[1..], tail)
  }

  /** The block parser reads this printed block as this call. */
  ghost predicate Yields(parse: BlockParser, inner: string, call: Call) {
    Free(inner, CLOSE) && parse(Strip(inner)) == Some([call])
  }

  ghost predicate AllYield(parse: BlockParser, inners: seq<string>, calls: seq<Call>) {
    |inners| == |calls| && forall i :: 0 <= i < |inners| ==> Yields(parse, inners[i], calls[i])
  }

  ghost predicate AllFree(leads: seq<string>) {
    forall i :: 0 <= i < |leads| ==> Free(leads[i], OPEN)
  }

  lemma Tags()
    ensures Tag(OPEN) && Tag(CLOSE)
  {
  }

  lemma Regroup(text: string, u: string, lead: string, inner: string, rest: string)
    requires text == u + (lead + Wrapped(inner) + rest)
    ensures text == u + lead + OPEN + (inner + CLOSE + rest) && text == (u + lead + OPEN) + inner + CLOSE + rest
    ensures text == u + lead + Wrapped(inner) + rest
    ensures |u + lead + Wrapped(inner)| == |u| + |lead| + |OPEN| + |inner| + |CLOSE|
  {
  }

  lemma BodyIsInner(text: string, head: string, inner: string, rest: string, start: nat, close: nat)
    requires text == head + inner + CLOSE + rest && |head| == start + |OPEN| && close == start + |OPEN| + |inner|
    ensures Body(text, start, close) == Strip(inner)
  {
    assert text[|head|..|head| + |inner|] == inner;
  }

  lemma OpenerIsFound(text: string, u: string, lead: string, inner: string, rest: string, start: nat)
    requires Free(lead, OPEN) && text == u + (lead + Wrapped(inner) + rest) && start == |u| + |lead|
    ensures Find(text, OPEN, |u|) == start
  {
    Tags();
    Regroup(text, u, lead, inner, rest);
    FindMarker(u, lead, OPEN, inner + CLOSE + rest);
  }

  lemma CloserIsFound(text: string, u: string, lead: string, inner: string, rest: string, bodyStart: nat, close: nat)
    requires Free(inner, CLOSE) && text == u + (lead + Wrapped(inner) + rest)
    requires bodyStart == |u| + |lead| + |OPEN| && close == bodyStart + |inner|
    ensures Find(text, CLOSE, bodyStart) == close
  {
    Tags();
    Regroup(text, u, lead, inner, rest);
    FindMarker(u + lead + OPEN, inner, CLOSE, rest);
  }

  lemma {:induction false} BodyIsCall(text: string, u: string, lead: string, inner: string, rest: string, parse: BlockParser,
                                      call: Call, start: nat, close: nat)
    requires Yields(parse, inner, call) && text == u + (lead + Wrapped(inner) + rest)
    requires start == |u| + |lead| && close == start + |OPEN| + |inner|
    ensures Pick(text, parse, start, close) == Piece(start, close, [call])
  {
    Regroup(text, u, lead, inner, rest);
    BodyIsInner(text, u + lead + OPEN, inner, rest, start, close);
    PickIs(text, parse, start, close, call);
  }

  lemma PickIs(text: string, parse: BlockParser, start: nat, close: nat, call: Call)
    requires parse(Body(text, start, close)) == Some([call])
    ensures Pick(text, parse, start, close) == Piece(start, close, [call])
  {
  }

  lemma {:induction false} PieceIsTaken(text: string, parse: BlockParser, from: nat, before: seq<Piece>, start: nat, close: nat,
                                        end: nat, call: Call, longer: seq<Piece>)
    requires Find(text, OPEN, from) == start && Find(text, CLOSE, start + |OPEN|) == close && end == close + |CLOSE|
    requires Pick(text, parse, start, close) == Piece(start, close, [call])
    requires longer == before + [Piece(start, close, [call])]
    ensures Pieces(text, parse, from, before) == Pieces(text, parse, end, longer)
    ensures AllCalls(longer) == AllCalls(before) + [call]
  {
    OpenerFirst(text, parse, from, before, start, close);
    AppendPiece(text, before, Piece(start, close, [call]));
  }

  lemma {:induction false} CallIsConsumed(text: string, u: string, lead: string, inner: string, rest: string,
                                          parse: BlockParser, call: Call, before: seq<Piece>)
    returns (u': string, longer: seq<Piece>)
    requires Free(lead, OPEN) && Yields(parse, inner, call)
    requires text == u + (lead + Wrapped(inner) + rest)
    ensures text == u' + rest
    ensures Pieces(text, parse, |u|, before) == Pieces(text, parse, |u'|, longer)
    ensures AllCalls(longer) == AllCalls(before) + [call]
  {
    var start := |u| + |lead|;
    var close := start + |OPEN| + |inner|;
    OpenerIsFound(text, u, lead, inner, rest, start);
    CloserIsFound(text, u, lead, inner, rest, start + |OPEN|, close);
    BodyIsCall(text, u, lead, inner, rest, parse, call, start, close);
    Regroup(text, u, lead, inner, rest);
    u' := u + lead + Wrapped(inner);
    longer := before + [Piece(start, close, [call])];
    PieceIsTaken(text, parse, |u|, before, start, close, |u'|, call, longer);
  }

  lemma TailIsRead(text: string, u: string, tail: string, parse: BlockParser, before: seq<Piece>)
    requires text == u + tail && Free(tail, OPEN)
    ensures Pieces(text, parse, |u|, before) == before
  {
    Tags();
    FindNoMarker(u, tail, OPEN);
    NoOpener(text, parse, |u|, before);
  }

  lemma FirstOf<T>(done: seq<T>, xs: seq<T>)
    requires xs != []
    ensures done + [xs[0]] + xs[1..] == done + xs
  {
  }

  lemma RestYields(parse: BlockParser, leads: seq<string>, inners: seq<string>, calls: seq<Call>)
    requires AllYield(parse, inners, calls) && AllFree(leads) && |leads| == |inners| > 0
    ensures AllYield(parse, inners[1..], calls[1..]) && AllFree(leads[1..])
    ensures Yields(parse, inners[0], calls[0]) && Free(leads[0], OPEN)
  {
    forall i | 0 <= i < |inners[1..]| ensures Yields(parse, inners[1..][i], calls[1..][i]) && Free(leads[1..][i], OPEN) {
      assert Yields(parse, inners[i + 1], calls[i + 1]);
      assert Free(leads[i + 1], OPEN);
    }
  }

  lemma {:induction false} CallsAreRead(text: string, u: string, leads: seq<string>, inners: seq<string>, tail: string,
                                        parse: BlockParser, calls: seq<Call>, before: seq<Piece>)
    requires |leads| == |inners| && AllYield(parse, inners, calls) && AllFree(leads) && Free(tail, OPEN)
    requires text == u + Turn(leads, inners, tail)
    ensures AllCalls(Pieces(text, parse, |u|, before)) == AllCalls(before) + calls
    decreases |leads|
  {
    if leads == [] {
      TailIsRead(text, u, tail, parse, before);
      EmptyConcat(AllCalls(before));
    } else {
      RestYields(parse, leads, inners, calls);
      var u', longer := CallIsConsumed(text, u, leads[0], inners[0], Turn(leads[1..], inners[1..], tail), parse, calls[0], before);
      CallsAreRead(text, u', leads[1..], inners[1..], tail, parse, calls[1..], longer);
      FirstOf(AllCalls(before), calls);
    }
  }

  /** Parsing a turn gives back exactly the calls its blocks were printed from, in order. */
  lemma TurnIsRead(leads: seq<string>, inners: seq<string>, tail: string, parse: BlockParser, calls: seq<Call>)
    requires |leads| == |inners| && AllYield(parse, inners, calls) && AllFree(leads) && Free(tail, OPEN)
    ensures AllCalls(Pieces(Turn(leads, inners, tail), parse, 0, [])) == calls
  {
    var text := Turn(leads, inners, tail);
    EmptyConcat(text);
    EmptyConcat(calls);
    CallsAreRead(text, "", leads, inners, tail, parse, calls, []);
  }

  // ---- Where a parsed call comes from ----------------------------------------------------

  lemma PartFree(text: string, marker: string, from: nat, end: nat)
    requires from <= end <= |text|
    requires forall i :: from <= i && i + |marker| <= end ==> !At(text, marker, i)
    ensures Free(text[from..end], marker)
  {
    var part, m := text[from..end], |marker|;
    forall i ensures !At(part, marker, i) {
      if 0 <= i && i + m <= |part| {
        assert !At(text, marker, from + i);
        SamePart(text, from, end, i, i + m);
      }
    }
  }

  lemma SamePart(text: string, from: nat, end: nat, i: nat, j: nat)
    requires from <= end <= |text| && i <= j <= end - from
    ensures text[from..end][i..j] == text[from + i..from + j]
  {
    forall k | 0 <= k < j - i ensures text[from..end][i..j][k] == text[from + i..from + j][k] {
    }
  }

  lemma {:induction false} StripLeftFree(text: string, marker: string)
    requires Free(text, marker)
    ensures Free(StripLeft(text), marker)
  {
    if text != "" && IsSpace(text[0]) {
      PartFree(text, marker, 1, |text|);
      assert text[1..|text|] == text[1..];
      StripLeftFree(text[1..], marker);
    }
  }

  lemma {:induction false} StripRightFree(text: string, marker: string)
    requires Free(text, marker)
    ensures Free(StripRight(text), marker)
  {
    if text != "" && IsSpace(text[|text| - 1]) {
      PartFree(text, marker, 0, |text| - 1);
      assert text[0..|text| - 1] == text[..|text| - 1];
      StripRightFree(text[..|text| - 1], marker);
    }
  }

  lemma StripFree(text: string, marker: string)
    requires Free(text, marker)
    ensures Free(Strip(text), marker)
  {
    StripLeftFree(text, marker);
    StripRightFree(StripLeft(text), marker);
  }

  /** The calls of a piece were parsed from a block without a closing marker. */
  ghost predicate FromBlock(parse: BlockParser, piece: Piece) {
    piece.calls != [] ==> exists block :: Free(block, CLOSE) && parse(block) == Some(piece.calls)
  }

  ghost predicate FromBlocks(parse: BlockParser, pieces: seq<Piece>) {
    forall k :: 0 <= k < |pieces| ==> FromBlock(parse, pieces[k])
  }

  lemma BodyFree(text: string, from: nat, start: nat, close: nat)
    requires Find(text, CLOSE, from) == close && from <= start && start + |OPEN| <= close
    ensures Free(Body(text, start, close), CLOSE)
  {
    PartFree(text, CLOSE, start + |OPEN|, close);
    StripFree(text[start + |OPEN|..close], CLOSE);
  }

  lemma PickedFromBlock(text: string, parse: BlockParser, from: nat, start: nat, close: nat)
    requires Find(text, CLOSE, from) == close && from <= start && start + |OPEN| <= close
    ensures FromBlock(parse, Pick(text, parse, start, close))
  {
    var piece := Pick(text, parse, start, close);
    if piece.calls != [] {
      BodyFree(text, from, piece.start, close);
      assert parse(Body(text, piece.start, close)) == Some(piece.calls);
    }
  }

  lemma WithFromBlock(parse: BlockParser, before: seq<Piece>, piece: Piece)
    requires FromBlocks(parse, before) && FromBlock(parse, piece)
    ensures FromBlocks(parse, With(before, piece))
  {
  }

  lemma SameFromBlocks(parse: BlockParser, a: seq<Piece>, b: seq<Piece>)
    requires a == b && FromBlocks(parse, b)
    ensures FromBlocks(parse, a)
  {
  }

  lemma TakenFromBlocks(text: string, parse: BlockParser, from: nat, before: seq<Piece>, start: nat, close: nat, next: nat,
                        after: seq<Piece>)
    requires Find(text, CLOSE, from) == close && Find(text, OPEN, from) == start && start + |OPEN| <= close
    requires next == close + |CLOSE| && after == With(before, Pick(text, parse, start, close))
    requires FromBlocks(parse, Pieces(text, parse, next, after))
    ensures FromBlocks(parse, Pieces(text, parse, from, before))
  {
    PiecesStepTo(text, parse, from, before, start, close, next, after);
    SameFromBlocks(parse, Pieces(text, parse, from, before), Pieces(text, parse, next, after));
  }

  lemma {:induction false} PiecesFromBlocks(text: string, parse: BlockParser, from: nat, before: seq<Piece>)
    requires FromBlocks(parse, before)
    ensures FromBlocks(parse, Pieces(text, parse, from, before))
    decreases |text| - from
  {
    var close := Find(text, CLOSE, from);
    var start := Find(text, OPEN, from);
    if close < 0 {
    } else if start < 0 {
      NoOpener(text, parse, from, before);
    } else if close < start + |OPEN| {
      MarkersAreApart(text, start, close);
      PiecesSkip(text, parse, from, before, start, close);
      PiecesFromBlocks(text, parse, close + |CLOSE|, before);
    } else {
      var next, after := close + |CLOSE|, With(before, Pick(text, parse, start, close));
      PickedFromBlock(text, parse, from, start, close);
      WithFromBlock(parse, before, Pick(text, parse, start, close));
      PiecesFromBlocks(text, parse, next, after);
      TakenFromBlocks(text, parse, from, before, start, close, next, after);
    }
  }

  lemma {:induction false} CallHasPiece(pieces: seq<Piece>, call: Call) returns (k: nat)
    requires call in AllCalls(pieces)
    ensures k < |pieces| && call in pieces[k].calls
    decreases |pieces|
  {
    k := |pieces| - 1;
    if call !in pieces[k].calls {
      k := CallHasPiece(pieces[..k], call);
    }
  }

  /** Whatever the text, each call was parsed from a block that holds no closing marker. */
  lemma {:induction false} CallComesFrom(text: string, parse: BlockParser, call: Call) returns (block: string, calls: seq<Call>)
    requires call in AllCalls(Pieces(text, parse, 0, []))
    ensures Free(block, CLOSE) && parse(block) == Some(calls) && call in calls
  {
    PiecesFromBlocks(text, parse, 0, []);
    var pieces := Pieces(text, parse, 0, []);
    var k := CallHasPiece(pieces, call);
    assert FromBlock(parse, pieces[k]);
    calls := pieces[k].calls;
    block :| Free(block, CLOSE) && parse(block) == Some(calls);
  }

  // ---- A call behind a stray opener --------------------------------------------------------

  lemma InnermostOpener(text: string, head: string, inner: string, rest: string, from: nat, close: nat)
    requires text == head + OPEN + inner + rest && close == |head| + |OPEN| + |inner| && from <= |head|
    requires Free(inner, OPEN)
    ensures FindLast(text, OPEN, from, close) == |head|
  {
    Tags();
    var r := FindLast(text, OPEN, from, close);
    assert text[|head|..|head| + |OPEN|] == OPEN;
    assert At(text, OPEN, |head|);
    if r > |head| {
      if r < |head| + |OPEN| {
        AtChar(text, OPEN, r, 0);
        AtChar(text, OPEN, |head|, r - |head|);
        assert false;
      } else {
        AtPart(head + OPEN, inner, rest, OPEN, r);
        assert false;
      }
    }
  }

  lemma StrayRegroup(text: string, lead: string, stray: string, inner: string, tail: string)
    requires text == lead + OPEN + stray + OPEN + inner + CLOSE + tail
    ensures text == lead + OPEN + (stray + OPEN + inner + CLOSE + tail)
    ensures text == (lead + OPEN) + (stray + OPEN + inner) + CLOSE + tail
    ensures text == (lead + OPEN + stray) + OPEN + inner + (CLOSE + tail)
    ensures text == (lead + OPEN + stray + OPEN) + inner + CLOSE + tail
  {
  }

  lemma StrayFree(stray: string, inner: string)
    requires Free(stray, CLOSE) && Free(inner, CLOSE)
    ensures Free(stray + OPEN + inner, CLOSE)
  {
    Tags();
    NotAt(OPEN, CLOSE, 0, 1);
    FreeTag(OPEN, CLOSE);
    FreeConcat(stray, OPEN, CLOSE);
    FreeConcat(stray + OPEN, inner, CLOSE);
  }

  lemma PickInner(text: string, parse: BlockParser, start: nat, inner: nat, close: nat, call: Call, pieces: seq<Piece>)
    requires start + |OPEN| <= inner && inner + |OPEN| <= close <= |text|
    requires parse(Body(text, start, close)) == Some([]) && FindLast(text, OPEN, start + |OPEN|, close) == inner
    requires parse(Body(text, inner, close)) == Some([call]) && pieces == [Piece(inner, close, [call])]
    ensures pieces == With([], Pick(text, parse, start, close))
  {
  }

  lemma LeadOpener(text: string, lead: string, rest: string)
    requires text == lead + OPEN + rest && Free(lead, OPEN)
    ensures Find(text, OPEN, 0) == |lead|
  {
    Tags();
    FindMarker("", lead, OPEN, rest);
    assert "" + lead + OPEN + rest == text;
  }

  lemma StrayCloser(text: string, head: string, block: string, tail: string)
    requires text == head + block + CLOSE + tail && Free(block, CLOSE)
    ensures Find(text, CLOSE, |head|) == |head| + |block| && text[|head| + |block| + |CLOSE|..] == tail
  {
    Tags();
    FindMarker(head, block, CLOSE, tail);
  }

  lemma {:induction false} StrayFound(text: string, lead: string, stray: string, inner: string, tail: string)
    returns (start: nat, at: nat, close: nat)
    requires text == lead + OPEN + stray + OPEN + inner + CLOSE + tail
    requires Free(lead, OPEN) && Free(stray, CLOSE) && Free(inner, OPEN) && Free(inner, CLOSE)
    ensures start == |lead| && at == |lead| + |OPEN| + |stray| && close == |lead| + 2 * |OPEN| + |stray| + |inner|
    ensures close + |CLOSE| <= |text| && text[close + |CLOSE|..] == tail
    ensures Find(text, OPEN, 0) == start && Find(text, CLOSE, start + |OPEN|) == close
    ensures FindLast(text, OPEN, start + |OPEN|, close) == at
  {
    start, at, close := |lead|, |lead| + |OPEN| + |stray|, |lead| + 2 * |OPEN| + |stray| + |inner|;
    StrayRegroup(text, lead, stray, inner, tail);
    StrayFree(stray, inner);
    LeadOpener(text, lead, stray + OPEN + inner + CLOSE + tail);
    StrayCloser(text, lead + OPEN, stray + OPEN + inner, tail);
    InnermostOpener(text, lead + OPEN + stray, inner, CLOSE + tail, start + |OPEN|, close);
  }

  lemma StrayBodies(text: string, lead: string, stray: string, inner: string, tail: string, start: nat, at: nat, close: nat)
    requires text == lead + OPEN + stray + OPEN + inner + CLOSE + tail
    requires start == |lead| && at == |lead| + |OPEN| + |stray| && close == |lead| + 2 * |OPEN| + |stray| + |inner|
    ensures Body(text, start, close) == Strip(stray + OPEN + inner) && Body(text, at, close) == Strip(inner)
  {
    StrayRegroup(text, lead, stray, inner, tail);
    BodyIsInner(text, lead + OPEN, stray + OPEN + inner, tail, start, close);
    BodyIsInner(text, lead + OPEN + stray + OPEN, inner, tail, at, close);
  }

  /** Where the markers around a stray opener are found, and what the two blocks hold. */
  ghost predicate StrayLies(text: string, block: string, inner: string, tail: string, start: nat, at: nat, close: nat) {
    && Body(text, start, close) == Strip(block) && Body(text, at, close) == Strip(inner)
    && Find(text, OPEN, 0) == start && Find(text, CLOSE, start + |OPEN|) == close
    && start + |OPEN| <= at && at + |OPEN| <= close && close + |CLOSE| <= |text|
    && FindLast(text, OPEN, start + |OPEN|, close) == at && text[close + |CLOSE|..] == tail
  }

  lemma {:induction false} FindsStray(text: string, lead: string, stray: string, inner: string, tail: string, block: string,
                                      start: nat, at: nat, close: nat)
    requires text == lead + OPEN + stray + OPEN + inner + CLOSE + tail && block == stray + OPEN + inner
    requires Free(lead, OPEN) && Free(stray, CLOSE) && Free(inner, OPEN) && Free(inner, CLOSE)
    requires start == |lead| && at == |lead| + |OPEN| + |stray| && close == |lead| + 2 * |OPEN| + |stray| + |inner|
    ensures StrayLies(text, block, inner, tail, start, at, close)
  {
    var start', at', close' := StrayFound(text, lead, stray, inner, tail);
    StrayBodies(text, lead, stray, inner, tail, start, at, close);
  }

  lemma {:induction false} RecoversInner(text: string, parse: BlockParser, block: string, inner: string, start: nat, at: nat,
                                         close: nat, call: Call, pieces: seq<Piece>, tail: string)
    requires StrayLies(text, block, inner, tail, start, at, close) && Free(tail, OPEN)
    requires parse(Strip(block)) == Some([]) && parse(Strip(inner)) == Some([call])
    requires pieces == [Piece(at, close, [call])]
    ensures Pieces(text, parse, 0, []) == pieces && AllCalls(pieces) == [call]
  {
    PickInner(text, parse, start, at, close, call, pieces);
    PieceIsLast(text, parse, start, close, close + |CLOSE|, pieces, tail);
    AppendPiece(text, [], Piece(at, close, [call]));
    EmptyConcat([Piece(at, close, [call])]);
    EmptyConcat([call]);
  }

  /**
   A call behind a stray opener is recovered: when the block from the first opener holds no call, the block from the
   innermost opener is parsed, its call is the turn's, and everything before that opener stays content.
   */
  lemma {:induction false} InnerCallIsRecovered(text: string, lead: string, stray: string, inner: string, tail: string,
                                                parse: BlockParser, call: Call, block: string, at: nat, close: nat)
    requires text == lead + OPEN + stray + OPEN + inner + CLOSE + tail && block == stray + OPEN + inner
    requires at == |lead| + |OPEN| + |stray| && close == |lead| + 2 * |OPEN| + |stray| + |inner|
    requires Free(lead, OPEN) && Free(stray, CLOSE) && Free(inner, OPEN) && Free(inner, CLOSE) && Free(tail, OPEN)
    requires parse(Strip(block)) == Some([]) && parse(Strip(inner)) == Some([call])
    ensures Pieces(text, parse, 0, []) == [Piece(at, close, [call])] && AllCalls(Pieces(text, parse, 0, [])) == [call]
  {
    FindsStray(text, lead, stray, inner, tail, block, |lead|, at, close);
    RecoversInner(text, parse, block, inner, |lead|, at, close, call, [Piece(at, close, [call])], tail);
  }

  lemma PieceIsLast(text: string, parse: BlockParser, start: nat, close: nat, end: nat, pieces: seq<Piece>, tail: string)
    requires Find(text, OPEN, 0) == start && Find(text, CLOSE, start + |OPEN|) == close && end == close + |CLOSE|
    requires pieces == With([], Pick(text, parse, start, close)) && end <= |text| && text[end..] == tail && Free(tail, OPEN)
    ensures Pieces(text, parse, 0, []) == pieces
  {
    OpenerFirstTo(text, parse, 0, [], start, close, end, pieces);
    TailEnds(text, parse, end, pieces, tail);
  }

  lemma TailEnds(text: string, parse: BlockParser, end: nat, pieces: seq<Piece>, tail: string)
    requires end <= |text| && text[end..] == tail && Free(tail, OPEN)
    ensures Pieces(text, parse, end, pieces) == pieces
  {
    assert text == text[..end] + tail;
    TailIsRead(text, text[..end], tail, parse, pieces);
  }
}
