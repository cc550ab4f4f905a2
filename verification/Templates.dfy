/**
 What the incremental prompts amount to: for a template that renders a fixed prefix and one
 block per message, the prompt built turn by turn from sampled tokens is the full render of the
 whole history (proxyserver/token_stream.py).
 */
module Templates {
  import opened Wrappers
  import opened Messages
  import opened TokenStream
  import Retention

  type Block = Message -> seq<Token>
  type Prefix = (seq<ToolDefinition>, Option<Effort>) -> seq<Token>

  function Blocks(block: Block, ms: seq<Message>): seq<Token> {
    if ms == [] then [] else block(ms[0]) + Blocks(block, ms[1..])
  }

  lemma {:induction false} BlocksConcat(block: Block, a: seq<Message>, b: seq<Message>)
    ensures Blocks(block, a + b) == Blocks(block, a) + Blocks(block, b)
  {
    if a == [] {
      EmptyConcat(b);
      EmptyConcat(Blocks(block, b));
    } else {
      assert (a + b)[0] == a[0] && (a + b)[1..] == a[1..] + b;
      BlocksConcat(block, a[1..], b);
    }
  }

  /** Every nonempty render is a prefix, fixed by the tools and the effort, and then one block per message. */
  ghost predicate RendersBlocks(p: Profile, prefix: Prefix, block: Block) {
    forall ms, tools, effort :: ms != [] ==> p.render(ms, tools, effort) == Some(prefix(tools, effort) + Blocks(block, ms))
  }

  /** The two probes isolate the prefix exactly. */
  lemma MeasuredPrefixIsThePrefix(p: Profile, prefix: Prefix, block: Block)
    requires RendersBlocks(p, prefix, block)
    ensures MeasurePrefix(p) == Some(prefix([], None))
  {
    var fixed := prefix([], None);
    var b := block(PREFIX_PROBE);
    assert [PREFIX_PROBE][1..] == [] && [PREFIX_PROBE, PREFIX_PROBE][1..] == [PREFIX_PROBE];
    assert Blocks(block, [PREFIX_PROBE]) == b + Blocks(block, []);
    EmptyConcat(b);
    assert Blocks(block, [PREFIX_PROBE, PREFIX_PROBE]) == b + b;
    var one := fixed + b;
    var two := fixed + (b + b);
    assert p.render([PREFIX_PROBE], [], None) == Some(one);
    assert p.render([PREFIX_PROBE, PREFIX_PROBE], [], None) == Some(two);
    assert 2 * |one| - |two| == |fixed|;
    assert one[|fixed|..] == b && one[..|fixed|] == fixed;
    assert two == one + b;
  }

  /** So the delta of new messages is just their blocks: nothing of the prefix is repeated mid-stream. */
  lemma StrippedDelta(p: Profile, prefix: Prefix, block: Block, news: seq<Message>)
    requires RendersBlocks(p, prefix, block) && news != []
    ensures StripPrefix(p, news, prefix([], None) + Blocks(block, news)) == Ok(Blocks(block, news))
  {
    MeasuredPrefixIsThePrefix(p, prefix, block);
    var fixed := prefix([], None);
    ConcatStartsWith(fixed, Blocks(block, news));
    assert (fixed + Blocks(block, news))[|fixed|..] == Blocks(block, news);
    EmptyConcat(Blocks(block, news));
  }

  // ---- A conversation ----------------------------------------------------------

  /** One sampled completion, the assistant echo the client sends for it, and the messages it appends. */
  datatype Round = Round(completion: seq<Token>, echo: Message, news: seq<Message>, reply: Reply)

  function History(opening: seq<Message>, rounds: seq<Round>): seq<Message> {
    if rounds == [] then opening
    else
      var r := rounds[|rounds| - 1];
      History(opening, rounds[..|rounds| - 1]) + ([r.echo] + r.news)
  }

  /** The manager and the prompt after these rounds: each prompt is built, and each turn committed, by its operations. */
  function Served(p: Profile, m: Manager, id: string, opening: seq<Message>, rounds: seq<Round>, tools: seq<ToolDefinition>,
                  effort: Option<Effort>): (Manager, Result<seq<Token>, Refusal>)
    decreases |rounds|
  {
    if rounds == [] then BuildPrompt(p, m, id, opening, tools, effort)
    else
      var earlier := rounds[..|rounds| - 1];
      var r := rounds[|rounds| - 1];
      var (held, built) := Served(p, m, id, opening, earlier, tools, effort);
      match built
      case Err(e) => (held, Err(e))
      case Ok(prompt) =>
        var state := Committed(prompt, r.completion, History(opening, earlier), r.reply, tools, effort);
        BuildPrompt(p, Install(p, held, id, state), id, History(opening, rounds), tools, effort)
  }

  function Rendered(p: Profile, prefix: Prefix, block: Block, ms: seq<Message>, tools: seq<ToolDefinition>,
                    effort: Option<Effort>): seq<Token>
  {
    prefix(tools, if effort == p.defaultEffort then None else effort) + Blocks(block, ms) + p.generationPrompt
  }

  /** The sampled header the delta must not repeat; empty when the model sampled none. */
  function SampledHeader(headers: seq<seq<Token>>, stream: seq<Token>): seq<Token> {
    if headers == [] then []
    else if headers[0] != [] && EndsWith(stream, headers[0]) then headers[0]
    else SampledHeader(headers[1..], stream)
  }

  lemma {:induction false} StripUsesSampledHeader(headers: seq<seq<Token>>, stream: seq<Token>, delta: seq<Token>)
    requires StartsWith(delta, SampledHeader(headers, stream))
    ensures StripSampledHeader(headers, stream, delta) == Ok(delta[|SampledHeader(headers, stream)|..])
  {
    if headers != [] && !(headers[0] != [] && EndsWith(stream, headers[0])) {
      StripUsesSampledHeader(headers[1..], stream, delta);
    }
  }

  /**
   The sampled reply, between the generation header and the gap, spells the assistant's block of the template, followed
   by the next message's header when the model sampled that as its stop token.
   */
  predicate Spells(p: Profile, block: Block, stream: seq<Token>, r: Round) {
    var header := SampledHeader(p.continuationHeaders, stream);
    && p.generationPrompt + r.completion + Gap(p, stream) == block(r.echo) + header
    && StartsWith(Blocks(block, r.news), header)
  }

  /** Preparing delta messages, where a profile does it, leaves what they render to. */
  ghost predicate PrepareCommutes(p: Profile, block: Block) {
    p.prepare.Some? ==> forall news, echo :: PreparesAlike(block, p.prepare.value(news, echo), news)
  }

  predicate PreparesAlike(block: Block, prepared: Option<seq<Message>>, news: seq<Message>) {
    news != [] ==> prepared.Some? && prepared.value != [] && Blocks(block, prepared.value) == Blocks(block, news)
  }

  predicate WellFormedRound(r: Round) {
    && r.echo.role == Assistant && IsNormal(r.echo)
    && r.news != [] && GapMessages(r.news) && (forall i :: 0 <= i < |r.news| ==> IsNormal(r.news[i]))
  }

  predicate Conforms(p: Profile, prefix: Prefix, block: Block, opening: seq<Message>, rounds: seq<Round>,
                     tools: seq<ToolDefinition>, effort: Option<Effort>)
  {
    forall i :: 0 <= i < |rounds| ==>
      && WellFormedRound(rounds[i])
      && Spells(p, block, Rendered(p, prefix, block, History(opening, rounds[..i]), tools, effort) + rounds[i].completion, rounds[i])
  }

  lemma AgreeWithItself(ms: seq<Message>, more: seq<Message>)
    ensures Agree(ms, ms + more)
  {
  }

  /** The tokens line up: stream, gap, delta and header are the longer render. */
  lemma Joins(p: Profile, block: Block, fixed: seq<Token>, before: seq<Message>, r: Round)
    requires WellFormedRound(r)
    requires Spells(p, block, fixed + Blocks(block, before) + p.generationPrompt + r.completion, r)
    ensures var stream := fixed + Blocks(block, before) + p.generationPrompt + r.completion;
            var h := |SampledHeader(p.continuationHeaders, stream)|;
            && h <= |Blocks(block, r.news)|
            && stream + (Gap(p, stream) + Blocks(block, r.news)[h..] + p.generationPrompt)
            == fixed + Blocks(block, before + ([r.echo] + r.news)) + p.generationPrompt
  {
    var stream := fixed + Blocks(block, before) + p.generationPrompt + r.completion;
    var header := SampledHeader(p.continuationHeaders, stream);
    var delta := Blocks(block, r.news);
    BlocksConcat(block, before, [r.echo] + r.news);
    assert ([r.echo] + r.news)[1..] == r.news;
    PrefixAndRest(delta, header);
    Regroup(fixed, Blocks(block, before), p.generationPrompt, r.completion, Gap(p, stream), block(r.echo), header,
            delta[|header|..]);
  }

  lemma Regroup(fixed: seq<Token>, before: seq<Token>, generation: seq<Token>, completion: seq<Token>, gap: seq<Token>,
                echo: seq<Token>, header: seq<Token>, rest: seq<Token>)
    requires generation + completion + gap == echo + header
    ensures fixed + before + generation + completion + (gap + rest + generation)
         == fixed + (before + (echo + (header + rest))) + generation
  {
    calc {
      fixed + before + generation + completion + (gap + rest + generation);
      fixed + before + (generation + completion + gap) + rest + generation;
      fixed + before + (echo + header) + rest + generation;
    }
  }

  lemma DeltaIsBlocks(p: Profile, prefix: Prefix, block: Block, state: StreamState, given: seq<Message>, news: seq<Message>)
    requires RendersBlocks(p, prefix, block) && given != [] && Blocks(block, given) == Blocks(block, news)
    requires StartsWith(Blocks(block, news), SampledHeader(p.continuationHeaders, state.stream))
    ensures DeltaOf(p, state, given)
         == Ok(Gap(p, state.stream) + Blocks(block, news)[|SampledHeader(p.continuationHeaders, state.stream)|..] + p.generationPrompt)
  {
    StrippedDelta(p, prefix, block, given);
    StripUsesSampledHeader(p.continuationHeaders, state.stream, Blocks(block, news));
  }

  lemma ContinuationAccepted(p: Profile, prefix: Prefix, block: Block, state: StreamState, r: Round)
    requires RendersBlocks(p, prefix, block) && PrepareCommutes(p, block) && WellFormedRound(r)
    requires StartsWith(Blocks(block, r.news), SampledHeader(p.continuationHeaders, state.stream))
    ensures ContinuationIds(p, state, state.messages + ([r.echo] + r.news))
         == Ok(Gap(p, state.stream) + Blocks(block, r.news)[|SampledHeader(p.continuationHeaders, state.stream)|..] + p.generationPrompt)
  {
    var ms := state.messages + ([r.echo] + r.news);
    AgreeWithItself(state.messages, [r.echo] + r.news);
    assert ms[|state.messages|] == r.echo;
    assert ms[|state.messages| + 1..] == r.news;
    if p.prepare.Some? {
      var prepared := p.prepare.value(r.news, PrecedingAssistant(state, r.echo));
      assert PreparesAlike(block, prepared, r.news);
      DeltaIsBlocks(p, prefix, block, state, prepared.value, r.news);
    } else {
      DeltaIsBlocks(p, prefix, block, state, r.news, r.news);
    }
  }

  lemma ConformsEarlier(p: Profile, prefix: Prefix, block: Block, opening: seq<Message>, rounds: seq<Round>,
                        tools: seq<ToolDefinition>, effort: Option<Effort>)
    requires rounds != [] && Conforms(p, prefix, block, opening, rounds, tools, effort)
    ensures Conforms(p, prefix, block, opening, rounds[..|rounds| - 1], tools, effort)
  {
    var earlier := rounds[..|rounds| - 1];
    forall i | 0 <= i < |earlier|
      ensures WellFormedRound(earlier[i])
           && Spells(p, block, Rendered(p, prefix, block, History(opening, earlier[..i]), tools, effort) + earlier[i].completion, earlier[i])
    {
      assert earlier[..i] == rounds[..i] && earlier[i] == rounds[i];
    }
  }

  predicate AllNormal(ms: seq<Message>) {
    forall i :: 0 <= i < |ms| ==> IsNormal(ms[i])
  }

  lemma {:induction false} NormalStays(ms: seq<Message>)
    requires AllNormal(ms)
    ensures Normalize(ms) == Some(ms)
  {
    if ms != [] {
      assert ms == [ms[0]] + ms[1..];
      assert forall i :: 0 <= i < |ms[1..]| ==> ms[1..][i] == ms[i + 1];
      NormalStays(ms[1..]);
    }
  }

  lemma {:induction false} HistoryIsNormal(opening: seq<Message>, rounds: seq<Round>)
    requires AllNormal(opening) && forall i :: 0 <= i < |rounds| ==> WellFormedRound(rounds[i])
    ensures AllNormal(History(opening, rounds))
    decreases |rounds|
  {
    if rounds != [] {
      HistoryIsNormal(opening, rounds[..|rounds| - 1]);
    }
  }

  /** A committed stream is held, whatever the table held before. */
  lemma InstalledIsHeld(p: Profile, m: Manager, id: string, state: StreamState)
    requires Retention.Well(p, m) && p.maxSessions > 0
    ensures var after := Install(p, m, id, state);
            Retention.Well(p, after) && id in after.states && after.states[id] == state
  {
    Retention.InstallWell(p, m, id, state);
    WithoutDistinct(m.order, id);
    AppendDistinct(Without(m.order, id), id);
    var full := Manager(m.states[id := state], Without(m.order, id) + [id], Without(m.evicted, id));
    if |full.order| > p.maxSessions {
      assert full.order[|full.order| - 1] == id && full.order[0] != id;
      assert EvictDown(EvictOldest(full, p.maxSessions), p.maxSessions) == EvictOldest(full, p.maxSessions);
    }
  }

  /** The continuation of a stream held with a render of its history is the longer history's render. */
  lemma RoundIsRendered(p: Profile, prefix: Prefix, block: Block, held: Manager, id: string, before: seq<Message>, r: Round,
                        tools: seq<ToolDefinition>, effort: Option<Effort>)
    requires RendersBlocks(p, prefix, block) && PrepareCommutes(p, block) && WellFormedRound(r) && id in held.states
    requires AllNormal(before + ([r.echo] + r.news))
    requires var prompt := Rendered(p, prefix, block, before, tools, effort);
             && Spells(p, block, prompt + r.completion, r)
             && held.states[id] == Committed(prompt, r.completion, before, r.reply, tools, effort)
    ensures BuildPrompt(p, held, id, before + ([r.echo] + r.news), tools, effort)
         == (Touch(held, id), Ok(Rendered(p, prefix, block, before + ([r.echo] + r.news), tools, effort)))
  {
    var ms := before + ([r.echo] + r.news);
    assert ms[|before|] == r.echo;
    assert HasAssistant(ms);
    NormalStays(ms);
    ContinuationAccepted(p, prefix, block, held.states[id], r);
    Joins(p, block, prefix(tools, if effort == p.defaultEffort then None else effort), before, r);
  }

  /**
   After any number of turns, each built and committed by the manager, the incrementally built prompt is the full render
   of the whole history with the generation header, although no assistant message is ever rendered.
   */
  lemma {:induction false} IncrementalPromptIsFullRender(p: Profile, prefix: Prefix, block: Block, m: Manager, id: string,
                                                         opening: seq<Message>, rounds: seq<Round>, tools: seq<ToolDefinition>,
                                                         effort: Option<Effort>)
    requires RendersBlocks(p, prefix, block) && PrepareCommutes(p, block)
    requires Retention.Well(p, m) && id !in m.states && p.maxSessions > 0
    requires opening != [] && !HasAssistant(opening) && AllNormal(opening)
    requires Conforms(p, prefix, block, opening, rounds, tools, effort)
    ensures var (held, built) := Served(p, m, id, opening, rounds, tools, effort);
            Retention.Well(p, held) && built == Ok(Rendered(p, prefix, block, History(opening, rounds), tools, effort))
    decreases |rounds|
  {
    if rounds == [] {
      NormalStays(opening);
      Retention.TouchWell(p, m, id);
    } else {
      var earlier := rounds[..|rounds| - 1];
      var r := rounds[|rounds| - 1];
      ConformsEarlier(p, prefix, block, opening, rounds, tools, effort);
      IncrementalPromptIsFullRender(p, prefix, block, m, id, opening, earlier, tools, effort);
      var before := History(opening, earlier);
      var state := Committed(Rendered(p, prefix, block, before, tools, effort), r.completion, before, r.reply, tools, effort);
      var held := Served(p, m, id, opening, earlier, tools, effort).0;
      InstalledIsHeld(p, held, id, state);
      HistoryIsNormal(opening, rounds);
      RoundIsRendered(p, prefix, block, Install(p, held, id, state), id, before, r, tools, effort);
      Retention.TouchWell(p, Install(p, held, id, state), id);
    }
  }
}
