/**
 The per-stream token-in-token-out manager (proxyserver/token_stream.py).

 The first half specifies prompts, replays, commits and eviction as functions on
 values; the class at the end keeps the source's fields and is proved against them.
 */
module TokenStream {
  import opened Wrappers
  import opened Messages
  import opened Capture

  type Effort = string
  type ToolDefinition = string

  /** What the engine reported about a sampled turn, cached for exact replays. */
  datatype Reply = Reply(logprobs: seq<real>, finishReason: string, weightVersion: Option<string>,
                         sampling: Option<map<string, real>>, routed: Option<WireBlob>)

  /** Replay data of one committed turn; `served` is the parsed assistant message once published. */
  datatype CommittedTurn = CommittedTurn(completionLen: nat, reply: Reply, tools: seq<ToolDefinition>, served: Option<Message>)

  datatype StreamState = StreamState(stream: seq<Token>, messages: seq<Message>, lastTurn: Option<CommittedTurn>,
                                     replays: nat, tools: seq<ToolDefinition>, effort: Option<Effort>)

  /** The chat template's render (None when it raises) with the markers a model profile states, already tokenized. */
  datatype Profile = Profile(
    render: (seq<Message>, seq<ToolDefinition>, Option<Effort>) -> Option<seq<Token>>,
    generationPrompt: seq<Token>,
    turnEnd: seq<Token>,
    turnEndings: seq<seq<Token>>,
    continuationHeaders: seq<seq<Token>>,
    systemHeader: seq<Token>,
    prepare: Option<(seq<Message>, Message) -> Option<seq<Message>>>,
    defaultEffort: Option<Effort>,
    maxSessions: nat,
    maxReplays: nat)

  datatype Refusal =
    | MalformedMessages | MissingEcho | Evicted | UnknownStream | ToolsChanged | EffortChanged | ReplaysExhausted
    | DoesNotExtend | HistoryModified | EchoExpected | UnexpectedRole | DeltaRefused | RenderFailed
    | PreambleMidStream | ImplicitSystemPrefix | HeaderMismatch

  // ---- Template measurements ---------------------------------------------

  const PREFIX_PROBE := Message(User, Text("__rollout_proxy_prefix_probe__"), false, "")

  /** The fixed prefix of every render; None when the probes cannot isolate one. */
  function MeasurePrefix(p: Profile): Option<seq<Token>> {
    match p.render([PREFIX_PROBE], [], None)
    case None => None
    case Some(one) =>
      match p.render([PREFIX_PROBE, PREFIX_PROBE], [], None)
      case None => None
      case Some(two) =>
        var n := 2 * |one| - |two|;
        if n < 0 || n > |one| || two != one + one[n..] then None else Some(one[..n])
  }

  // ---- The gap between a stream and the next render ----------------------

  predicate EndsComplete(stream: seq<Token>, endings: seq<seq<Token>>) {
    exists i :: 0 <= i < |endings| && endings[i] != [] && EndsWith(stream, endings[i])
  }

  /** The part of the turn ending missing after its longest prefix, of at most `have` tokens, that ends the stream. */
  function MissingEnd(stream: seq<Token>, end: seq<Token>, have: nat): seq<Token>
    requires have <= |end|
  {
    if have == 0 then end
    else if EndsWith(stream, end[..have]) then end[have..]
    else MissingEnd(stream, end, have - 1)
  }

  function Gap(p: Profile, stream: seq<Token>): seq<Token> {
    if EndsComplete(stream, p.turnEndings) then [] else MissingEnd(stream, p.turnEnd, |p.turnEnd|)
  }

  /** Drops from a delta the header the model already sampled as its stop token. */
  function StripSampledHeader(headers: seq<seq<Token>>, stream: seq<Token>, delta: seq<Token>): Result<seq<Token>, Refusal> {
    if headers == [] then Ok(delta)
    else if headers[0] != [] && EndsWith(stream, headers[0]) then
      if StartsWith(delta, headers[0]) then Ok(delta[|headers[0]|..]) else Err(HeaderMismatch)
    else StripSampledHeader(headers[1..], stream, delta)
  }

  // ---- Prompts -----------------------------------------------------------

  predicate Agree(previous: seq<Message>, candidate: seq<Message>) {
    |previous| <= |candidate| && forall i :: 0 <= i < |previous| ==> SameMessage(previous[i], candidate[i])
  }

  predicate ExtendsConversation(previous: seq<Message>, candidate: seq<Message>) {
    |candidate| > |previous| && Agree(previous, candidate)
  }

  predicate GapRole(r: Role) {
    r == Tool || r == User || r == System
  }

  predicate GapMessages(ms: seq<Message>) {
    forall i :: 0 <= i < |ms| ==> GapRole(ms[i].role)
  }

  /** The assistant message tool results follow: the one served when it is known, else the client's echo. */
  function PrecedingAssistant(state: StreamState, echo: Message): Message {
    if state.lastTurn.Some? && state.lastTurn.value.served.Some? then state.lastTurn.value.served.value else echo
  }

  function StripPrefix(p: Profile, newMessages: seq<Message>, delta: seq<Token>): Result<seq<Token>, Refusal> {
    match MeasurePrefix(p)
    case Some(prefix) =>
      if prefix == [] then Ok(delta)
      else if StartsWith(delta, prefix) then Ok(delta[|prefix|..])
      else Err(PreambleMidStream)
    case None =>
      if newMessages != [] && newMessages[0].role == System then Ok(delta)
      else if p.systemHeader != [] && StartsWith(delta, p.systemHeader) then Err(ImplicitSystemPrefix)
      else Ok(delta)
  }

  function DeltaOf(p: Profile, state: StreamState, newMessages: seq<Message>): Result<seq<Token>, Refusal> {
    match p.render(newMessages, [], None)
    case None => Err(RenderFailed)
    case Some(rendered) =>
      match StripPrefix(p, newMessages, rendered)
      case Err(e) => Err(e)
      case Ok(delta) =>
        match StripSampledHeader(p.continuationHeaders, state.stream, delta)
        case Err(e) => Err(e)
        case Ok(rest) => Ok(Gap(p, state.stream) + rest + p.generationPrompt)
  }

  function ContinuationIds(p: Profile, state: StreamState, normalized: seq<Message>): Result<seq<Token>, Refusal> {
    var n := |state.messages|;
    if |normalized| < n + 2 then Err(DoesNotExtend)
    else if !Agree(state.messages, normalized) then Err(HistoryModified)
    else if normalized[n].role != Assistant then Err(EchoExpected)
    else if !GapMessages(normalized[n + 1..]) then Err(UnexpectedRole)
    else if p.prepare.Some? then
      match p.prepare.value(normalized[n + 1..], PrecedingAssistant(state, normalized[n]))
      case None => Err(DeltaRefused)
      case Some(prepared) => DeltaOf(p, state, prepared)
    else DeltaOf(p, state, normalized[n + 1..])
  }

  function FullRender(p: Profile, normalized: seq<Message>, tools: seq<ToolDefinition>, effort: Option<Effort>)
    : Result<seq<Token>, Refusal>
  {
    match p.render(normalized, tools, if effort == p.defaultEffort then None else effort)
    case None => Err(RenderFailed)
    case Some(ids) => Ok(ids + p.generationPrompt)
  }

  // ---- The manager's state -----------------------------------------------

  /** Held streams, their LRU order (oldest first), and the ids lost to eviction (oldest first). */
  datatype Manager = Manager(states: map<string, StreamState>, order: seq<string>, evicted: seq<string>)

  const EMPTY := Manager(map[], [], [])

  predicate Distinct(s: seq<string>) {
    forall i, j :: 0 <= i < j < |s| ==> s[i] != s[j]
  }

  function Without(s: seq<string>, id: string): (r: seq<string>)
    ensures |r| <= |s|
    ensures forall x :: x in r <==> x in s && x != id
  {
    if s == [] then [] else (if s[0] == id then [] else [s[0]]) + Without(s[1..], id)
  }

  function Touch(m: Manager, id: string): Manager {
    if id in m.states then m.(order := Without(m.order, id) + [id]) else m
  }

  function PromptFor(p: Profile, m: Manager, id: string, normalized: seq<Message>, tools: seq<ToolDefinition>,
                     effort: Option<Effort>): Result<seq<Token>, Refusal>
  {
    if !HasAssistant(normalized) then
      if id in m.states && ExtendsConversation(m.states[id].messages, normalized) then Err(MissingEcho)
      else FullRender(p, normalized, tools, effort)
    else if id !in m.states then Err(if id in m.evicted then Evicted else UnknownStream)
    else if tools != m.states[id].tools then Err(ToolsChanged)
    else if effort != m.states[id].effort then Err(EffortChanged)
    else
      match ContinuationIds(p, m.states[id], normalized)
      case Err(e) => Err(e)
      case Ok(ids) => Ok(m.states[id].stream + ids)
  }

  function BuildPrompt(p: Profile, m: Manager, id: string, messages: seq<Message>, tools: seq<ToolDefinition>,
                       effort: Option<Effort>): (Manager, Result<seq<Token>, Refusal>)
  {
    match Normalize(messages)
    case None => (m, Err(MalformedMessages))
    case Some(normalized) => (Touch(m, id), PromptFor(p, m, id, normalized, tools, effort))
  }

  datatype Cached = Miss | Refused(why: Refusal) | Hit(prompt: seq<Token>, completion: seq<Token>, reply: Reply)

  /** Splits a stream before its last `n` tokens, as the slices `[:-n]` and `[-n:]` do. */
  function SplitLast(stream: seq<Token>, n: nat): (seq<Token>, seq<Token>) {
    if n == 0 then ([], stream)
    else if n > |stream| then ([], stream)
    else (stream[..|stream| - n], stream[|stream| - n..])
  }

  /** One more replay of the stream's last turn. */
  function Counted(m: Manager, id: string): Manager
    requires id in m.states
  {
    m.(states := m.states[id := m.states[id].(replays := m.states[id].replays + 1)])
  }

  function CachedTurn(p: Profile, m: Manager, id: string, messages: seq<Message>, effort: Option<Effort>): (Manager, Cached) {
    if id !in m.states || m.states[id].lastTurn.None? then (m, Miss)
    else
      var state := m.states[id];
      match Normalize(messages)
      case None => (m, Refused(MalformedMessages))
      case Some(normalized) =>
        if normalized != state.messages then (m, Miss)
        else if effort != state.effort then (m, Refused(EffortChanged))
        else if state.replays >= p.maxReplays then (m, Refused(ReplaysExhausted))
        else
          var (prompt, completion) := SplitLast(state.stream, state.lastTurn.value.completionLen);
          (Touch(Counted(m, id), id), Hit(prompt, completion, state.lastTurn.value.reply))
  }

  /** A request the last turn does not answer changes nothing. */
  lemma RepeatRefused(p: Profile, m: Manager, id: string, messages: seq<Message>, effort: Option<Effort>, answer: Cached)
    requires id in m.states && m.states[id].lastTurn.Some?
    requires match Normalize(messages)
             case None => answer == Refused(MalformedMessages)
             case Some(normalized) =>
               if normalized != m.states[id].messages then answer == Miss
               else if effort != m.states[id].effort then answer == Refused(EffortChanged)
               else m.states[id].replays >= p.maxReplays && answer == Refused(ReplaysExhausted)
    ensures CachedTurn(p, m, id, messages, effort) == (m, answer)
  {
  }

  /** A served repeat is counted and makes the stream the newest. */
  lemma RepeatServed(p: Profile, m: Manager, id: string, messages: seq<Message>, effort: Option<Effort>)
    requires id in m.states && m.states[id].lastTurn.Some? && Normalize(messages) == Some(m.states[id].messages)
    requires effort == m.states[id].effort && m.states[id].replays < p.maxReplays
    ensures var state := m.states[id];
            var (prompt, completion) := SplitLast(state.stream, state.lastTurn.value.completionLen);
            CachedTurn(p, m, id, messages, effort)
              == (Touch(Counted(m, id), id),
                  Hit(prompt, completion, state.lastTurn.value.reply))
  {
  }

  function NoteEvicted(evicted: seq<string>, id: string, bound: nat): seq<string> {
    var noted := if id in evicted then evicted else evicted + [id];
    if |noted| > bound then noted[1..] else noted
  }

  function EvictOldest(m: Manager, bound: nat): Manager
    requires m.order != []
  {
    Manager(m.states - {m.order[0]}, m.order[1..], NoteEvicted(m.evicted, m.order[0], bound))
  }

  function EvictDown(m: Manager, bound: nat): Manager
    decreases |m.order|
  {
    if |m.order| <= bound then m else EvictDown(EvictOldest(m, bound), bound)
  }

  function Committed(prompt: seq<Token>, completion: seq<Token>, normalized: seq<Message>, reply: Reply,
                     tools: seq<ToolDefinition>, effort: Option<Effort>): StreamState
  {
    StreamState(prompt + completion, normalized,
                if completion == [] then None else Some(CommittedTurn(|completion|, reply, tools, None)), 0, tools, effort)
  }

  function Install(p: Profile, m: Manager, id: string, state: StreamState): Manager {
    EvictDown(Manager(m.states[id := state], Without(m.order, id) + [id], Without(m.evicted, id)), p.maxSessions)
  }

  function Drop(m: Manager, id: string): Manager {
    Manager(m.states - {id}, Without(m.order, id), Without(m.evicted, id))
  }

  /** Caches the parsed response of the last committed turn, once. */
  function Publish(m: Manager, id: string, completion: seq<Token>, served: Message): Manager {
    if id in m.states && m.states[id].lastTurn.Some?
       && m.states[id].lastTurn.value.completionLen == |completion|
       && SplitLast(m.states[id].stream, |completion|).1 == completion
       && m.states[id].lastTurn.value.served.None? then
      m.(states := m.states[id := m.states[id].(lastTurn := Some(m.states[id].lastTurn.value.(served := Some(served))))])
    else m
  }

  // ---- What the operations do to the held streams ---------------------------

  lemma {:induction false} EvictDownHolds(m: Manager, bound: nat)
    ensures EvictDown(m, bound).states.Keys <= m.states.Keys
    ensures forall k :: k in EvictDown(m, bound).states ==> EvictDown(m, bound).states[k] == m.states[k]
    decreases |m.order|
  {
    if |m.order| > bound {
      EvictDownHolds(EvictOldest(m, bound), bound);
    }
  }

  /** A commit installs exactly its own state; every other stream is untouched or evicted. */
  lemma InstallHolds(p: Profile, m: Manager, id: string, state: StreamState)
    ensures var after := Install(p, m, id, state).states;
            forall k :: k in after ==> if k == id then after[k] == state else k in m.states && after[k] == m.states[k]
  {
    EvictDownHolds(Manager(m.states[id := state], Without(m.order, id) + [id], Without(m.evicted, id)), p.maxSessions);
  }

  /**
   An accepted request that carries an assistant message continues the held conversation: it agrees with the
   held history in role and text, adds one assistant echo and then only gap messages, repeats the tools and the
   effort, and its prompt starts with the exact tokens held.
   */
  lemma AcceptedContinuation(p: Profile, m: Manager, id: string, messages: seq<Message>, tools: seq<ToolDefinition>,
                             effort: Option<Effort>)
    requires BuildPrompt(p, m, id, messages, tools, effort).1.Ok?
    ensures Normalize(messages).Some?
    ensures HasAssistant(messages) ==>
              && id in m.states
              && var state := m.states[id]; var ms := Normalize(messages).value; var n := |state.messages|;
              && |ms| >= n + 2 && Agree(state.messages, ms) && ms[n].role == Assistant && GapMessages(ms[n + 1..])
              && tools == state.tools && effort == state.effort
              && StartsWith(BuildPrompt(p, m, id, messages, tools, effort).1.value, state.stream)
  {
    NormalizeKeepsConversation(messages);
    if HasAssistant(messages) {
      var ms := Normalize(messages).value;
      var ids := ContinuationIds(p, m.states[id], ms);
      ConcatStartsWith(m.states[id].stream, ids.value);
    }
  }

  /** The messages behind the echo that are rendered: as the client sent them, or prepared against the served response. */
  function NewMessages(p: Profile, state: StreamState, ms: seq<Message>): Option<seq<Message>>
    requires |ms| > |state.messages|
  {
    var news := ms[|state.messages| + 1..];
    if p.prepare.None? then Some(news) else p.prepare.value(news, PrecedingAssistant(state, ms[|state.messages|]))
  }

  /** The rendered delta starts with the prefix measured for it, or, with none measured, not with an implicit system turn. */
  predicate PrefixFits(p: Profile, news: seq<Message>, rendered: seq<Token>) {
    var prefix := MeasurePrefix(p);
    if prefix.Some? then StartsWith(rendered, prefix.value)
    else (news != [] && news[0].role == System) || p.systemHeader == [] || !StartsWith(rendered, p.systemHeader)
  }

  lemma PrefixFitsExactly(p: Profile, news: seq<Message>, rendered: seq<Token>)
    ensures StripPrefix(p, news, rendered).Ok? <==> PrefixFits(p, news, rendered)
    ensures StripPrefix(p, news, rendered).Ok? ==> EndsWith(rendered, StripPrefix(p, news, rendered).value)
  {
  }

  /** The delta is accepted when it renders, its prefix fits and it repeats the header the model sampled, if any. */
  predicate DeltaFits(p: Profile, state: StreamState, news: seq<Message>) {
    var rendered := p.render(news, [], None);
    && rendered.Some? && PrefixFits(p, news, rendered.value)
    && StripSampledHeader(p.continuationHeaders, state.stream, StripPrefix(p, news, rendered.value).value).Ok?
  }

  lemma DeltaFitsExactly(p: Profile, state: StreamState, news: seq<Message>)
    ensures DeltaOf(p, state, news).Ok? <==> DeltaFits(p, state, news)
  {
    var rendered := p.render(news, [], None);
    if rendered.Some? {
      PrefixFitsExactly(p, news, rendered.value);
    }
  }

  /** What a request that continues the held history must bring. */
  predicate Continuable(p: Profile, state: StreamState, ms: seq<Message>, tools: seq<ToolDefinition>, effort: Option<Effort>) {
    var n := |state.messages|;
    && tools == state.tools && effort == state.effort
    && |ms| >= n + 2 && (forall i :: 0 <= i < n ==> SameMessage(state.messages[i], ms[i]))
    && ms[n].role == Assistant && (forall k :: n < k < |ms| ==> GapRole(ms[k].role))
    && NewMessages(p, state, ms).Some? && DeltaFits(p, state, NewMessages(p, state, ms).value)
  }

  lemma GapMessagesBehind(ms: seq<Message>, n: nat)
    requires n < |ms|
    ensures GapMessages(ms[n + 1..]) <==> forall k :: n < k < |ms| ==> GapRole(ms[k].role)
  {
    if GapMessages(ms[n + 1..]) {
      forall k | n < k < |ms| ensures GapRole(ms[k].role) {
        assert ms[k] == ms[n + 1..][k - n - 1];
      }
    }
  }

  lemma ContinuableExactly(p: Profile, state: StreamState, ms: seq<Message>, tools: seq<ToolDefinition>, effort: Option<Effort>)
    requires tools == state.tools && effort == state.effort
    ensures ContinuationIds(p, state, ms).Ok? <==> Continuable(p, state, ms, tools, effort)
  {
    var n := |state.messages|;
    if |ms| >= n + 2 {
      GapMessagesBehind(ms, n);
      if NewMessages(p, state, ms).Some? {
        DeltaFitsExactly(p, state, NewMessages(p, state, ms).value);
      }
    }
  }

  /**
   A request with an assistant message is accepted exactly when its stream is held, nothing fixed by it changed, it agrees
   with the held history and extends it by an assistant echo and messages of the roles that may follow one, and their
   delta fits; a request without one is accepted exactly when it renders and does not extend the held history.
   */
  lemma AcceptedExactly(p: Profile, m: Manager, id: string, messages: seq<Message>, ms: seq<Message>, tools: seq<ToolDefinition>,
                        effort: Option<Effort>)
    requires Normalize(messages) == Some(ms)
    ensures HasAssistant(messages) ==>
              (BuildPrompt(p, m, id, messages, tools, effort).1.Ok?
               <==> id in m.states && Continuable(p, m.states[id], ms, tools, effort))
    ensures !HasAssistant(messages) ==>
              (BuildPrompt(p, m, id, messages, tools, effort).1.Ok?
               <==> p.render(ms, tools, if effort == p.defaultEffort then None else effort).Some?
                    && !(id in m.states && |m.states[id].messages| < |ms|
                         && forall i :: 0 <= i < |m.states[id].messages| ==> SameMessage(m.states[id].messages[i], ms[i])))
  {
    NormalizeKeepsConversation(messages);
    if HasAssistant(messages) && id in m.states && tools == m.states[id].tools && effort == m.states[id].effort {
      ContinuableExactly(p, m.states[id], ms, tools, effort);
    }
  }

  lemma {:induction false} WithoutDistinct(s: seq<string>, id: string)
    requires Distinct(s)
    ensures Distinct(Without(s, id))
    ensures |Without(s, id)| == if id in s then |s| - 1 else |s|
  {
    if s != [] {
      assert Distinct(s[1..]);
      WithoutDistinct(s[1..], id);
      assert s[0] !in s[1..];
      assert s[0] !in Without(s[1..], id);
      assert s == [s[0]] + s[1..];
    }
  }

  lemma AppendDistinct(s: seq<string>, id: string)
    requires Distinct(s) && id !in s
    ensures Distinct(s + [id])
  {
  }

  // ---- The manager object -----------------------------------------------------

  /** The source's TokenStreamManager for one model profile. */
  class TokenStreamManager {
    const profile: Profile
    var sessions: map<string, StreamState>
    var order: seq<string>
    var evicted: seq<string>
    /** The measured per-render prefix, once a delta has needed it. */
    var measured: Option<Option<seq<Token>>>

    function Value(): Manager
      reads this
    {
      Manager(sessions, order, evicted)
    }

    predicate Valid()
      reads this
    {
      && Distinct(order)
      && (forall k :: k in sessions ==> k in order)
      && (forall k :: k in order ==> k in sessions)
      && (measured.Some? ==> measured.value == MeasurePrefix(profile))
    }

    constructor (profile: Profile)
      ensures Valid() && Value() == EMPTY && this.profile == profile
    {
      this.profile := profile;
      sessions, order, evicted, measured := map[], [], [], None;
    }

    method MoveToEnd(id: string)
      requires Valid() && id in sessions
      modifies this`order
      ensures Valid() && Value() == Touch(old(Value()), id)
    {
      WithoutDistinct(order, id);
      AppendDistinct(Without(order, id), id);
      order := Without(order, id) + [id];
    }

    /** The part of the turn ending the stream does not already have, found longest overlap first. */
    method TurnGap(stream: seq<Token>) returns (gap: seq<Token>)
      ensures gap == Gap(profile, stream)
    {
      for i := 0 to |profile.turnEndings|
        invariant forall j :: 0 <= j < i ==> !(profile.turnEndings[j] != [] && EndsWith(stream, profile.turnEndings[j]))
      {
        if profile.turnEndings[i] != [] && EndsWith(stream, profile.turnEndings[i]) {
          return [];
        }
      }
      var end := profile.turnEnd;
      var have := |end|;
      while have > 0
        invariant 0 <= have <= |end|
        invariant MissingEnd(stream, end, have) == MissingEnd(stream, end, |end|)
      {
        if EndsWith(stream, end[..have]) {
          return end[have..];
        }
        have := have - 1;
      }
      return end;
    }

    /** Omits the role header the model sampled itself. */
    method OmitSampledHeader(stream: seq<Token>, delta: seq<Token>) returns (rest: Result<seq<Token>, Refusal>)
      ensures rest == StripSampledHeader(profile.continuationHeaders, stream, delta)
    {
      var headers := profile.continuationHeaders;
      var i := 0;
      while i < |headers|
        invariant 0 <= i <= |headers|
        invariant StripSampledHeader(headers[i..], stream, delta) == StripSampledHeader(headers, stream, delta)
      {
        assert headers[i..][1..] == headers[i + 1..];
        if headers[i] != [] && EndsWith(stream, headers[i]) {
          if !StartsWith(delta, headers[i]) {
            return Err(HeaderMismatch);
          }
          return Ok(delta[|headers[i]|..]);
        }
        i := i + 1;
      }
      return Ok(delta);
    }

    /** Measures the implicit prefix once. */
    method GetPrefix() returns (prefix: Option<seq<Token>>)
      requires Valid()
      modifies this`measured
      ensures Valid() && prefix == MeasurePrefix(profile)
    {
      if measured.None? {
        measured := Some(MeasurePrefix(profile));
      }
      return measured.value;
    }

    /** Gap, delta of the new messages, and generation header. */
    method DeltaIds(state: StreamState, normalized: seq<Message>) returns (ids: Result<seq<Token>, Refusal>)
      requires Valid()
      modifies this`measured
      ensures Valid() && ids == ContinuationIds(profile, state, normalized)
    {
      var n := |state.messages|;
      if |normalized| < n + 2 {
        return Err(DoesNotExtend);
      }
      for i := 0 to n
        invariant forall j :: 0 <= j < i ==> SameMessage(state.messages[j], normalized[j])
      {
        if !SameMessage(state.messages[i], normalized[i]) {
          return Err(HistoryModified);
        }
      }
      if normalized[n].role != Assistant {
        return Err(EchoExpected);
      }
      var news := normalized[n + 1..];
      if !GapMessages(news) {
        return Err(UnexpectedRole);
      }
      if profile.prepare.Some? {
        var prepared := profile.prepare.value(news, PrecedingAssistant(state, normalized[n]));
        if prepared.None? {
          return Err(DeltaRefused);
        }
        news := prepared.value;
      }
      var rendered := profile.render(news, [], None);
      if rendered.None? {
        return Err(RenderFailed);
      }
      var delta := rendered.value;
      var prefix := GetPrefix();
      if prefix.Some? {
        if prefix.value != [] {
          if !StartsWith(delta, prefix.value) {
            return Err(PreambleMidStream);
          }
          delta := delta[|prefix.value|..];
        }
      } else if !(news != [] && news[0].role == System) && profile.systemHeader != [] && StartsWith(delta, profile.systemHeader) {
        return Err(ImplicitSystemPrefix);
      }
      var rest := OmitSampledHeader(state.stream, delta);
      if rest.Err? {
        return rest;
      }
      var gap := TurnGap(state.stream);
      return Ok(gap + rest.value + profile.generationPrompt);
    }

    method MakePrompt(id: string, messages: seq<Message>, tools: seq<ToolDefinition>, effort: Option<Effort>)
      returns (prompt: Result<seq<Token>, Refusal>)
      requires Valid()
      modifies this
      ensures Valid() && (Value(), prompt) == BuildPrompt(profile, old(Value()), id, messages, tools, effort)
    {
      var normal := Normalize(messages);
      if normal.None? {
        return Err(MalformedMessages);
      }
      var normalized := normal.value;
      var state := if id in sessions then Some(sessions[id]) else None;
      var lost := id in evicted;
      if state.Some? {
        MoveToEnd(id);
      }
      if !HasAssistant(normalized) {
        if state.Some? && ExtendsConversation(state.value.messages, normalized) {
          return Err(MissingEcho);
        }
        return FullRender(profile, normalized, tools, effort);
      }
      if state.None? {
        return Err(if lost then Evicted else UnknownStream);
      }
      if tools != state.value.tools {
        return Err(ToolsChanged);
      }
      if effort != state.value.effort {
        return Err(EffortChanged);
      }
      var ids := DeltaIds(state.value, normalized);
      match ids
      case Err(e) => return Err(e);
      case Ok(more) => return Ok(state.value.stream + more);
    }

    /** Why a request is not served from the last turn; none when it is. */
    method RefusesRepeat(state: StreamState, messages: seq<Message>, effort: Option<Effort>) returns (answer: Option<Cached>)
      ensures answer == match Normalize(messages)
                        case None => Some(Refused(MalformedMessages))
                        case Some(normalized) =>
                          if normalized != state.messages then Some(Miss)
                          else if effort != state.effort then Some(Refused(EffortChanged))
                          else if state.replays >= profile.maxReplays then Some(Refused(ReplaysExhausted))
                          else None
    {
      var normal := Normalize(messages);
      if normal.None? {
        return Some(Refused(MalformedMessages));
      }
      if normal.value != state.messages {
        return Some(Miss);
      }
      if effort != state.effort {
        return Some(Refused(EffortChanged));
      }
      if state.replays >= profile.maxReplays {
        return Some(Refused(ReplaysExhausted));
      }
      return None;
    }

    /** Counts a replay and makes the stream the newest. */
    method CountReplay(id: string)
      requires Valid() && id in sessions
      modifies this`sessions, this`order
      ensures Valid()
      ensures Value() == Touch(Counted(old(Value()), id), id)
    {
      ghost var counted := Counted(Value(), id);
      sessions := sessions[id := sessions[id].(replays := sessions[id].replays + 1)];
      assert Value() == counted;
      MoveToEnd(id);
    }

    /** The last committed turn when the request repeats it; each hit spends a replay. */
    method ServeCached(id: string, messages: seq<Message>, effort: Option<Effort>) returns (cached: Cached)
      requires Valid()
      modifies this
      ensures Valid() && (Value(), cached) == CachedTurn(profile, old(Value()), id, messages, effort)
    {
      if id !in sessions || sessions[id].lastTurn.None? {
        return Miss;
      }
      var state := sessions[id];
      var answer := RefusesRepeat(state, messages, effort);
      if answer.Some? {
        RepeatRefused(profile, Value(), id, messages, effort, answer.value);
        return answer.value;
      }
      RepeatServed(profile, Value(), id, messages, effort);
      CountReplay(id);
      var (prompt, completion) := SplitLast(state.stream, state.lastTurn.value.completionLen);
      return Hit(prompt, completion, state.lastTurn.value.reply);
    }

    method EvictOne()
      requires Valid() && order != []
      modifies this
      ensures Valid() && Value() == EvictOldest(old(Value()), profile.maxSessions)
    {
      var oldest := order[0];
      assert order == [oldest] + order[1..];
      assert oldest !in order[1..];
      sessions := sessions - {oldest};
      order := order[1..];
      evicted := NoteEvicted(evicted, oldest, profile.maxSessions);
    }

    /** Makes a sampled turn the stream, reviving an evicted id and evicting the least recently used. */
    method CommitTurn(id: string, messages: seq<Message>, prompt: seq<Token>, completion: seq<Token>, reply: Reply,
                      tools: seq<ToolDefinition>, effort: Option<Effort>) returns (ok: bool)
      requires Valid()
      modifies this
      ensures Valid()
      ensures ok <==> Normalize(messages).Some?
      ensures Value() == if !ok then old(Value())
                         else Install(profile, old(Value()), id,
                                      Committed(prompt, completion, Normalize(messages).value, reply, tools, effort))
    {
      var normalized := Normalize(messages);
      if normalized.None? {
        return false;
      }
      var lastTurn := if completion == [] then None else Some(CommittedTurn(|completion|, reply, tools, None));
      WithoutDistinct(order, id);
      AppendDistinct(Without(order, id), id);
      sessions := sessions[id := StreamState(prompt + completion, normalized.value, lastTurn, 0, tools, effort)];
      order := Without(order, id) + [id];
      evicted := Without(evicted, id);
      ghost var start := Value();
      while |order| > profile.maxSessions
        invariant Valid()
        invariant EvictDown(Value(), profile.maxSessions) == EvictDown(start, profile.maxSessions)
        decreases |order|
      {
        EvictOne();
      }
      return true;
    }

    /** Caches the parsed response with the turn it belongs to, unless a concurrent parse was first. */
    method PublishParsed(id: string, completion: seq<Token>, served: Message)
      requires Valid()
      modifies this
      ensures Valid() && Value() == Publish(old(Value()), id, completion, served)
    {
      if id in sessions && sessions[id].lastTurn.Some? {
        var turn := sessions[id].lastTurn.value;
        if turn.completionLen == |completion| && SplitLast(sessions[id].stream, |completion|).1 == completion && turn.served.None? {
          sessions := sessions[id := sessions[id].(lastTurn := Some(turn.(served := Some(served))))];
        }
      }
    }

    method DropStream(id: string)
      requires Valid()
      modifies this
      ensures Valid() && Value() == Drop(old(Value()), id)
    {
      WithoutDistinct(order, id);
      sessions := sessions - {id};
      order := Without(order, id);
      evicted := Without(evicted, id);
    }
  }
}
