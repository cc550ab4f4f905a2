/**
 The validation of a training stream, the conversion of a record, and exactly which records convert
 (proxyserver/training.py).
 */
module TrainingChecks {
  import opened Wrappers
  import opened Text
  import opened Messages
  import opened Capture
  import opened Recorder
  import opened Training
  import opened TrainingStreams

  // ---- One stream's own consistency ------------------------------------------

  function CursorAt(s: Stream, i: nat): nat
    requires i <= |s.completions|
  {
    if i == 0 then 0 else s.completions[i - 1].end
  }

  predicate Aligned(s: Stream) {
    && |s.tokens| == |s.mask| == |s.logprobs|
    && forall k :: 0 <= k < |s.mask| ==> s.mask[k] == 0 || s.mask[k] == 1
  }

  /** The i-th span follows the previous one, with prompt tokens before it masked out and its own masked in. */
  predicate SpanFits(s: Stream, i: nat)
    requires Aligned(s) && i < |s.completions|
  {
    var c := s.completions[i];
    && CursorAt(s, i) <= c.start <= c.end <= |s.tokens|
    && (forall k :: CursorAt(s, i) <= k < c.start ==> s.mask[k] == 0)
    && (forall k :: c.start <= k < c.end ==> s.mask[k] == 1)
    && (forall k :: CursorAt(s, i) <= k < c.start ==> s.logprobs[k] == 0.0)
  }

  predicate Named(version: Option<string>, reason: Option<string>) {
    (version.Some? ==> IsName(version.value)) && (reason.Some? ==> IsName(reason.value))
  }

  predicate SpanNamed(c: Span) {
    Named(c.weightVersion, c.finishReason)
  }

  function CutTurn(s: Stream, i: nat): Turn
    requires Aligned(s) && i < |s.completions| && SpanFits(s, i)
  {
    var c := s.completions[i];
    Turn(s.agent, [], s.tokens[CursorAt(s, i)..c.start], false, s.tokens[c.start..c.end], s.logprobs[c.start..c.end],
         Meta("", None, None, c.sampling))
  }

  /** The stream cut at its completion boundaries. */
  function CutTurns(s: Stream, n: nat): (r: seq<Turn>)
    requires Aligned(s) && n <= |s.completions|
    requires forall i :: 0 <= i < n ==> SpanFits(s, i)
    ensures |r| == n && forall i :: 0 <= i < n ==> r[i] == CutTurn(s, i)
  {
    if n == 0 then [] else CutTurns(s, n - 1) + [CutTurn(s, n - 1)]
  }

  predicate Identified(s: Stream) {
    IsName(s.session) && (s.agent.Some? ==> IsName(s.agent.value)) && IsName(s.role)
  }

  function OwnBlobs(s: Stream): map<AgentId, Blob> {
    if s.routed.Some? then map[s.agent := s.routed.value] else map[]
  }

  /** An attached capture must always be complete. */
  predicate ValidStream(s: Stream, requireRouted: bool) {
    && Identified(s) && Aligned(s)
    && (forall i :: 0 <= i < |s.completions| ==> SpanFits(s, i))
    && (forall i :: 0 <= i < |s.completions| ==> SpanNamed(s.completions[i]))
    && CursorAt(s, |s.completions|) == |s.tokens|
    && RecordOk(CutTurns(s, |s.completions|), OwnBlobs(s), requireRouted || s.routed.Some?)
  }

  method Validate(s: Stream, requireRouted: bool) returns (ok: bool)
    ensures ok <==> ValidStream(s, requireRouted)
  {
    if !Identified(s) || !Aligned(s) {
      return false;
    }
    var cursor: nat := 0;
    var turns: seq<Turn> := [];
    for i := 0 to |s.completions|
      invariant cursor == CursorAt(s, i)
      invariant forall j :: 0 <= j < i ==> SpanFits(s, j)
      invariant forall j :: 0 <= j < i ==> SpanNamed(s.completions[j])
      invariant turns == CutTurns(s, i)
    {
      var c := s.completions[i];
      assert SpanFits(s, i) ==> cursor <= c.start <= c.end <= |s.tokens|;
      if !(cursor <= c.start <= c.end <= |s.tokens|) {
        return false;
      }
      if (exists k :: cursor <= k < c.start && s.mask[k] != 0) || (exists k :: c.start <= k < c.end && s.mask[k] != 1)
         || (exists k :: cursor <= k < c.start && s.logprobs[k] != 0.0) {
        assert !SpanFits(s, i);
        return false;
      }
      if !SpanNamed(c) {
        return false;
      }
      turns := turns + [Turn(s.agent, [], s.tokens[cursor..c.start], false, s.tokens[c.start..c.end],
                             s.logprobs[c.start..c.end], Meta("", None, None, c.sampling))];
      cursor := c.end;
    }
    if cursor != |s.tokens| {
      return false;
    }
    ok := ValidateRecord(turns, OwnBlobs(s), requireRouted || s.routed.Some?);
  }

  // ---- Cutting a conversation's stream gives its turns back --------------------

  /** What a stream keeps of a turn. */
  function Stripped(t: Turn): Turn {
    Turn(t.agent, [], t.prompt, false, t.completion, t.logprobs, Meta("", None, None, t.meta.sampling))
  }

  predicate LogprobsAligned(turns: seq<Turn>) {
    forall i :: 0 <= i < |turns| ==> |turns[i].logprobs| == |turns[i].completion|
  }

  predicate Prefixes(s: Stream, longer: Stream) {
    && StartsWith(longer.tokens, s.tokens) && StartsWith(longer.mask, s.mask) && StartsWith(longer.logprobs, s.logprobs)
    && StartsWith(longer.completions, s.completions) && longer.agent == s.agent
  }

  lemma EntryOfPrefix<T>(s: seq<T>, prefix: seq<T>, k: nat)
    requires StartsWith(s, prefix) && k < |prefix|
    ensures s[k] == prefix[k]
  {
    assert s[..|prefix|][k] == prefix[k];
  }

  lemma SliceOfPrefix<T>(s: seq<T>, prefix: seq<T>, i: nat, j: nat)
    requires StartsWith(s, prefix) && i <= j <= |prefix|
    ensures s[i..j] == prefix[i..j]
  {
    assert s[..|prefix|][i..j] == s[i..j];
  }

  lemma SpanOfPrefix(s: Stream, longer: Stream, i: nat)
    requires Aligned(s) && Aligned(longer) && Prefixes(s, longer)
    requires i < |s.completions| && SpanFits(s, i)
    ensures SpanFits(longer, i) && CutTurn(longer, i) == CutTurn(s, i)
    ensures longer.completions[i] == s.completions[i]
  {
    var c := s.completions[i];
    EntryOfPrefix(longer.completions, s.completions, i);
    if i > 0 {
      EntryOfPrefix(longer.completions, s.completions, i - 1);
    }
    forall k | 0 <= k < c.end ensures longer.mask[k] == s.mask[k] && longer.logprobs[k] == s.logprobs[k] {
      EntryOfPrefix(longer.mask, s.mask, k);
      EntryOfPrefix(longer.logprobs, s.logprobs, k);
    }
    SliceOfPrefix(longer.tokens, s.tokens, CursorAt(s, i), c.start);
    SliceOfPrefix(longer.tokens, s.tokens, c.start, c.end);
    SliceOfPrefix(longer.logprobs, s.logprobs, c.start, c.end);
  }

  lemma ExtendPrefixes(s: Stream, t: Turn)
    requires Aligned(s) && |t.logprobs| == |t.completion|
    ensures Aligned(Extend(s, t)) && Prefixes(s, Extend(s, t))
  {
    var longer := Extend(s, t);
    assert longer.tokens == s.tokens + (t.prompt + t.completion);
    assert longer.mask == s.mask + (Repeat(0, |t.prompt|) + Repeat(1, |t.completion|));
    assert longer.logprobs == s.logprobs + (Repeat(0.0, |t.prompt|) + t.logprobs);
    ConcatStartsWith(s.tokens, t.prompt + t.completion);
    ConcatStartsWith(s.mask, Repeat(0, |t.prompt|) + Repeat(1, |t.completion|));
    ConcatStartsWith(s.logprobs, Repeat(0.0, |t.prompt|) + t.logprobs);
    ConcatStartsWith(s.completions, longer.completions[|s.completions|..]);
  }

  lemma MiddleSlice<T>(a: seq<T>, b: seq<T>, c: seq<T>)
    ensures (a + b + c)[|a|..|a| + |b|] == b
    ensures (a + b + c)[|a| + |b|..|a| + |b| + |c|] == c
  {
  }

  lemma ExtendCutsLast(s: Stream, t: Turn)
    requires Aligned(s) && |t.logprobs| == |t.completion| && t.agent == s.agent
    requires CursorAt(s, |s.completions|) == |s.tokens|
    ensures Aligned(Extend(s, t)) && SpanFits(Extend(s, t), |s.completions|)
    ensures CutTurn(Extend(s, t), |s.completions|) == Stripped(t)
  {
    ExtendPrefixes(s, t);
    var longer := Extend(s, t);
    var n := |s.completions|;
    assert CursorAt(longer, n) == |s.tokens| by {
      if n > 0 {
        EntryOfPrefix(longer.completions, s.completions, n - 1);
      }
    }
    MiddleSlice(s.tokens, t.prompt, t.completion);
    MiddleSlice(s.logprobs, Repeat(0.0, |t.prompt|), t.logprobs);
  }

  predicate CutsOne(s: Stream, i: nat, t: Turn) {
    && Aligned(s) && i < |s.completions| && SpanFits(s, i) && CutTurn(s, i) == Stripped(t)
    && s.completions[i].weightVersion == t.meta.weightVersion
    && s.completions[i].finishReason == t.meta.finishReason
  }

  predicate CutsTo(s: Stream, turns: seq<Turn>) {
    && Aligned(s) && |s.completions| == |turns|
    && CursorAt(s, |turns|) == |s.tokens|
    && forall i :: 0 <= i < |turns| ==> CutsOne(s, i, turns[i])
  }

  lemma ExtendCuts(s: Stream, turns: seq<Turn>, t: Turn)
    requires CutsTo(s, turns) && |t.logprobs| == |t.completion| && t.agent == s.agent
    ensures CutsTo(Extend(s, t), turns + [t])
  {
    ExtendPrefixes(s, t);
    ExtendCutsLast(s, t);
    var longer := Extend(s, t);
    forall i | 0 <= i < |turns| + 1 ensures CutsOne(longer, i, (turns + [t])[i]) {
      if i < |turns| {
        assert CutsOne(s, i, turns[i]);
        SpanOfPrefix(s, longer, i);
      }
    }
  }

  /**
   A conversation's stream is its turns joined; cutting it at the completion boundaries gives back each
   turn's prompt, completion and logprobs, with the mask 1 at exactly the sampled positions.
   */
  lemma {:induction false} CutGivesTurnsBack(session: string, agent: AgentId, role: string, segment: nat, turns: seq<Turn>)
    requires LogprobsAligned(turns) && forall i :: 0 <= i < |turns| ==> turns[i].agent == agent
    ensures CutsTo(SegmentStream(session, agent, role, segment, turns), turns)
    ensures SegmentStream(session, agent, role, segment, turns).tokens == TokensOf(turns)
  {
    if turns != [] {
      var init := turns[..|turns| - 1];
      var t := turns[|turns| - 1];
      CutGivesTurnsBack(session, agent, role, segment, init);
      SegmentIdentity(session, agent, role, segment, init);
      ExtendCuts(SegmentStream(session, agent, role, segment, init), init, t);
      assert turns == init + [t];
    }
  }
}
