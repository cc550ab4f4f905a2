/**
 The recording pipeline over whole runs: many sessions and agents, one shared
 manager with LRU eviction, one recorder, and every order in which turns can be
 asked, sampled, committed, recorded, lost, retried, evicted, released and deleted
 (proxyserver/service.py, make_completion_handler).
 */
module Recording {
  import opened Wrappers
  import opened Messages
  import opened Recorder
  import opened Lossless
  import TS = TokenStream

  // ---- Stream ids ----------------------------------------------------------

  predicate IdChar(c: char) {
    'A' <= c <= 'Z' || 'a' <= c <= 'z' || '0' <= c <= '9' || c == '.' || c == '_'
  }

  predicate IdChars(s: string) {
    forall i :: 0 <= i < |s| ==> IdChar(s[i])
  }

  /** Session and agent ids: 1 to 256 safe characters, and the one trailing newline an end anchor lets pass. */
  predicate ValidId(s: string) {
    var body := if EndsWith(s, "\n") then s[..|s| - 1] else s;
    1 <= |body| <= 256 && IdChars(body)
  }

  function StreamId(id: string, agent: string): string {
    id + "-" + agent
  }

  lemma ValidIdHasNoSeparator(s: string, i: nat)
    requires ValidId(s) && i < |s|
    ensures s[i] != '-'
  {
    var body := if EndsWith(s, "\n") then s[..|s| - 1] else s;
    assert IdChars(body);
    if i < |body| {
      assert body[i] == s[i];
      assert IdChar(body[i]);
    } else {
      assert s[|s| - 1..][0] == '\n';
    }
  }

  /** Per-stream state of two agents can never be confused. */
  lemma StreamIdInjective(id: string, agent: string, id': string, agent': string)
    requires ValidId(id) && ValidId(id')
    requires StreamId(id, agent) == StreamId(id', agent')
    ensures id == id' && agent == agent'
  {
    var s := StreamId(id, agent);
    assert s[|id|] == '-' && s[|id'|] == '-';
    forall i | 0 <= i < |id| ensures s[i] != '-' {
      ValidIdHasNoSeparator(id, i);
    }
    forall i | 0 <= i < |id'| ensures s[i] != '-' {
      ValidIdHasNoSeparator(id', i);
    }
    assert |id| == |id'|;
    assert id == s[..|id|] == id';
    assert agent == s[|id| + 1..] == agent';
  }

  // ---- The state and its steps ----------------------------------------------

  type Key = (string, string)

  datatype Sys = Sys(mgr: TS.Manager, rec: State, flights: map<Key, Flight>, now: nat)

  const START := Sys(TS.EMPTY, INITIAL, map[], 0)

  /** The parsed view of a completion that is stored with it. */
  datatype Parsed = Parsed(text: string, finishReason: string)

  datatype Action =
    | Admit(id: string, model: Option<string>)
    | Ask(id: string, agent: string, messages: seq<Message>, tools: seq<TS.ToolDefinition>, effort: Option<TS.Effort>, parsed: Parsed)
    | EngineFails(id: string, agent: string)
    | EngineAnswers(id: string, agent: string, completion: seq<Token>, reply: TS.Reply, parsed: Parsed)
    | ParseTurn(id: string, agent: string, served: Message)
    | RecordTurn(id: string, agent: string)
    | FailBeforeAppend(id: string, agent: string)
    | FailAfterAppend(id: string, agent: string)
    | FinalizeSession(id: string)
    | DeleteSession(id: string)
    | ReleaseStream(id: string, agent: string)
    | Tick(seconds: nat)

  function FlightOf(s: Sys, id: string, agent: string): Flight {
    if (id, agent) in s.flights then s.flights[(id, agent)] else Idle
  }

  function HeldOf(m: TS.Manager, id: string, agent: string): Option<TS.StreamState> {
    if StreamId(id, agent) in m.states then Some(m.states[StreamId(id, agent)]) else None
  }

  function AgentOf(s: Sys, id: string, agent: string): Agent {
    Agent(agent, View(s.rec, id, Some(agent)), HeldOf(s.mgr, id, agent), FlightOf(s, id, agent))
  }

  function DeliveryOf(agent: string, messages: seq<Message>, prompt: seq<Token>, completion: seq<Token>,
                      reply: TS.Reply, parsed: Parsed): Delivery
  {
    Delivery(Some(agent), messages, prompt, completion, reply.logprobs, reply.routed,
             Meta(parsed.text, Some(parsed.finishReason), reply.weightVersion, reply.sampling))
  }

  /** Turns of one stream are serialized, so a stream asks only when it has no turn in flight. */
  predicate Enabled(s: Sys, a: Action) {
    match a
    case Admit(id, _) => ValidId(id)
    case Ask(id, agent, _, _, _, _) => ValidId(id) && ValidId(agent) && FlightOf(s, id, agent).Idle?
    case EngineFails(id, agent) => ValidId(id) && ValidId(agent) && FlightOf(s, id, agent).Generating?
    case EngineAnswers(id, agent, completion, reply, _) =>
      && ValidId(id) && ValidId(agent) && FlightOf(s, id, agent).Generating?
      && completion != [] && |reply.logprobs| == |completion|
    case ParseTurn(id, agent, _) => ValidId(id) && ValidId(agent) && FlightOf(s, id, agent).Unrecorded?
    case RecordTurn(id, agent) => ValidId(id) && ValidId(agent) && FlightOf(s, id, agent).Unrecorded?
    case FailBeforeAppend(id, agent) => ValidId(id) && ValidId(agent) && FlightOf(s, id, agent).Unrecorded?
    case FailAfterAppend(id, agent) => ValidId(id) && ValidId(agent) && FlightOf(s, id, agent).Unrecorded?
    case FinalizeSession(id) => ValidId(id)
    case DeleteSession(id) => ValidId(id)
    case ReleaseStream(id, agent) => ValidId(id) && ValidId(agent)
    case Tick(_) => true
  }

  function WithFlight(s: Sys, id: string, agent: string, f: Flight): Sys {
    s.(flights := s.flights[(id, agent) := f])
  }

  /** A replay of the last turn when the request repeats it, else a prompt, else an error and no turn. */
  function AfterAsk(p: TS.Profile, s: Sys, id: string, agent: string, messages: seq<Message>,
                    tools: seq<TS.ToolDefinition>, effort: Option<TS.Effort>, parsed: Parsed): Sys
  {
    var stream := StreamId(id, agent);
    var (replayed, cached) := TS.CachedTurn(p, s.mgr, stream, messages, effort);
    match cached
    case Refused(_) => s
    case Hit(prompt, completion, reply) =>
      WithFlight(s.(mgr := replayed), id, agent, Unrecorded(DeliveryOf(agent, messages, prompt, completion, reply, parsed)))
    case Miss =>
      var (touched, built) := TS.BuildPrompt(p, s.mgr, stream, messages, tools, effort);
      match built
      case Err(_) => s.(mgr := touched)
      case Ok(prompt) => WithFlight(s.(mgr := touched), id, agent, Generating(messages, tools, effort, prompt))
  }

  /** The validated completion is committed and then waits to be recorded. */
  function AfterAnswer(p: TS.Profile, s: Sys, id: string, agent: string, completion: seq<Token>, reply: TS.Reply, parsed: Parsed): Sys
    requires FlightOf(s, id, agent).Generating?
  {
    var g := FlightOf(s, id, agent);
    var d := DeliveryOf(agent, g.messages, g.prompt, completion, reply, parsed);
    match Normalize(g.messages)
    case None => WithFlight(s, id, agent, Idle)
    case Some(ms) =>
      var state := TS.Committed(g.prompt, completion, ms, reply, g.tools, g.effort);
      WithFlight(s.(mgr := TS.Install(p, s.mgr, StreamId(id, agent), state)), id, agent, Unrecorded(d))
  }

  function Marked(s: Sys, id: string, d: Delivery): State {
    MarkFailed(s.rec, s.now, id, d.agent, d.messages, d.prompt, d.completion)
  }

  function After(p: TS.Profile, s: Sys, a: Action): Sys
    requires Enabled(s, a)
  {
    match a
    case Admit(id, model) => s.(rec := Ensure(s.rec, s.now, id, model))
    case Ask(id, agent, messages, tools, effort, parsed) => AfterAsk(p, s, id, agent, messages, tools, effort, parsed)
    case EngineFails(id, agent) => WithFlight(s, id, agent, Idle)
    case EngineAnswers(id, agent, completion, reply, parsed) => AfterAnswer(p, s, id, agent, completion, reply, parsed)
    case ParseTurn(id, agent, served) =>
      s.(mgr := TS.Publish(s.mgr, StreamId(id, agent), FlightOf(s, id, agent).delivery.completion, served))
    case RecordTurn(id, agent) =>
      WithFlight(s.(rec := Record(s.rec, s.now, id, FlightOf(s, id, agent).delivery).0), id, agent, Idle)
    case FailBeforeAppend(id, agent) =>
      WithFlight(s.(rec := Marked(s, id, FlightOf(s, id, agent).delivery)), id, agent, Idle)
    case FailAfterAppend(id, agent) =>
      var d := FlightOf(s, id, agent).delivery;
      var recorded := s.(rec := Record(s.rec, s.now, id, d).0);
      WithFlight(recorded.(rec := Marked(recorded, id, d)), id, agent, Idle)
    case FinalizeSession(id) => s.(rec := Finalize(s.rec, id))
    case DeleteSession(id) => s.(rec := Delete(s.rec, s.now, id))
    case ReleaseStream(id, agent) => s.(mgr := TS.Drop(s.mgr, StreamId(id, agent)))
    case Tick(seconds) => s.(now := s.now + seconds)
  }

  /** The state after a run, or None when some action of it was not possible. */
  function Run(p: TS.Profile, s: Sys, actions: seq<Action>): Option<Sys>
    decreases |actions|
  {
    if actions == [] then Some(s)
    else if !Enabled(s, actions[0]) then None
    else Run(p, After(p, s, actions[0]), actions[1..])
  }

  // ---- The invariant ----------------------------------------------------------

  ghost predicate Tombs(s: Sys) {
    forall id :: Tombstoned(s.rec.deleted, id, s.now) ==> id !in s.rec.sessions && id !in s.rec.failed
  }

  ghost predicate AgentsSound(s: Sys) {
    forall id, agent :: ValidId(id) && ValidId(agent) ==> Sound(AgentOf(s, id, agent))
  }

  ghost predicate SysSound(s: Sys) {
    Tombs(s) && AgentsSound(s)
  }

  // ---- How each recorder operation changes an agent's view ----------------------

  lemma EnsureView(s: State, now: nat, id: string, model: Option<string>, id': string, agent: AgentId)
    ensures View(Ensure(s, now, id, model), id', agent) == View(s, id', agent)
  {
  }

  lemma FinalizeView(s: State, id: string, id': string, agent: AgentId)
    ensures View(Finalize(s, id), id', agent) == View(s, id', agent)
  {
  }

  lemma DeleteView(s: State, now: nat, id: string, id': string, agent: AgentId)
    ensures View(Delete(s, now, id), id', agent) == if id' == id then AgentState([], None, None) else View(s, id', agent)
  {
  }

  lemma MarkView(s: State, now: nat, id: string, d: Delivery, id': string, agent': AgentId)
    requires !Tombstoned(s.deleted, id, now) && Normalize(d.messages).Some?
    ensures View(MarkFailed(s, now, id, d.agent, d.messages, d.prompt, d.completion), id', agent')
         == if id' == id && agent' == d.agent then MarkAgent(View(s, id, d.agent), d) else View(s, id', agent')
  {
  }

  lemma TombstonedView(s: Sys, id: string, agent: AgentId)
    requires Tombs(s) && Tombstoned(s.rec.deleted, id, s.now)
    ensures View(s.rec, id, agent) == AgentState([], None, None)
  {
  }

  // ---- What each action is to each agent ------------------------------------------

  lemma CommittedHolds(prompt: seq<Token>, completion: seq<Token>, ms: seq<Message>, reply: TS.Reply,
                       tools: seq<TS.ToolDefinition>, effort: Option<TS.Effort>)
    requires completion != [] && Normalize(ms) == Some(ms)
    ensures var st := TS.Committed(prompt, completion, ms, reply, tools, effort);
            HeldSound(st) && HeldExchange(st) == Exchange(ms, prompt, completion)
  {
    var stream := prompt + completion;
    assert stream[..|stream| - |completion|] == prompt;
    assert stream[|stream| - |completion|..] == completion;
  }

  /** The agent an action belongs to, if any. */
  function Owner(a: Action): Option<Key> {
    match a
    case Ask(id, agent, _, _, _, _) => Some((id, agent))
    case EngineFails(id, agent) => Some((id, agent))
    case EngineAnswers(id, agent, _, _, _) => Some((id, agent))
    case ParseTurn(id, agent, _) => Some((id, agent))
    case RecordTurn(id, agent) => Some((id, agent))
    case FailBeforeAppend(id, agent) => Some((id, agent))
    case FailAfterAppend(id, agent) => Some((id, agent))
    case ReleaseStream(id, agent) => Some((id, agent))
    case _ => None
  }

  /** What asking is to the asking agent. */
  function AskMove(p: TS.Profile, s: Sys, a: Action): Move
    requires a.Ask?
  {
    var stream := StreamId(a.id, a.agent);
    var (replayed, cached) := TS.CachedTurn(p, s.mgr, stream, a.messages, a.effort);
    match cached
    case Refused(_) => Stay
    case Hit(prompt, completion, reply) =>
      if stream in replayed.states then
        Replay(DeliveryOf(a.agent, a.messages, prompt, completion, reply, a.parsed), replayed.states[stream])
      else Stay
    case Miss =>
      match TS.BuildPrompt(p, s.mgr, stream, a.messages, a.tools, a.effort).1
      case Err(_) => Stay
      case Ok(prompt) => Generate(a.messages, a.tools, a.effort, prompt)
  }

  /** What an agent's own action is to it. */
  function OwnMove(p: TS.Profile, s: Sys, a: Action): Move
    requires Enabled(s, a) && Owner(a).Some?
  {
    var dead := Tombstoned(s.rec.deleted, a.id, s.now);
    match a
    case Ask(_, _, _, _, _, _) => AskMove(p, s, a)
    case EngineFails(_, _) => Abort
    case EngineAnswers(id, agent, completion, reply, parsed) =>
      var g := FlightOf(s, id, agent);
      CommitTurn(DeliveryOf(agent, g.messages, g.prompt, completion, reply, parsed), HeldOf(After(p, s, a).mgr, id, agent))
    case ParseTurn(id, agent, _) =>
      var held := HeldOf(After(p, s, a).mgr, id, agent);
      if held.Some? && held != HeldOf(s.mgr, id, agent) then PublishTurn(held.value) else Stay
    case RecordTurn(_, _) => if dead then DropDelivery else RecordOk
    case FailBeforeAppend(_, _) => if dead then DropDelivery else FailBefore
    case FailAfterAppend(_, _) => if dead then DropDelivery else FailAfter
    case ReleaseStream(_, _) => LoseHeld
  }

  /** What an action is to any agent: its own move, the loss of its record or stream, or nothing. */
  function MoveOf(p: TS.Profile, s: Sys, a: Action, id: string, agent: string): Move
    requires Enabled(s, a)
  {
    if Owner(a) == Some((id, agent)) then OwnMove(p, s, a)
    else if a.DeleteSession? && a.id == id then LoseRecord
    else if HeldOf(After(p, s, a).mgr, id, agent) != HeldOf(s.mgr, id, agent) then LoseHeld
    else Stay
  }

  // ---- Other agents ------------------------------------------------------------------

  lemma OtherStream(id: string, agent: string, id': string, agent': string)
    requires ValidId(id) && ValidId(id') && (id, agent) != (id', agent')
    ensures StreamId(id', agent') != StreamId(id, agent)
  {
    if StreamId(id', agent') == StreamId(id, agent) {
      StreamIdInjective(id, agent, id', agent');
    }
  }

  /** The manager keeps, changes or forgets the owner's stream, and at most evicts any other. */
  lemma ManagerTouchesOnlyOwner(p: TS.Profile, s: Sys, a: Action, stream: string)
    requires Enabled(s, a)
    requires Owner(a).Some? ==> stream != StreamId(Owner(a).value.0, Owner(a).value.1)
    ensures stream in After(p, s, a).mgr.states ==> stream in s.mgr.states && After(p, s, a).mgr.states[stream] == s.mgr.states[stream]
  {
    if a.EngineAnswers? {
      var g := FlightOf(s, a.id, a.agent);
      if Normalize(g.messages).Some? {
        TS.InstallHolds(p, s.mgr, StreamId(a.id, a.agent),
                        TS.Committed(g.prompt, a.completion, Normalize(g.messages).value, a.reply, g.tools, g.effort));
      }
    }
  }

  lemma AskFlights(p: TS.Profile, s: Sys, a: Action, id: string, agent: string)
    requires a.Ask? && (a.id, a.agent) != (id, agent)
    ensures FlightOf(AfterAsk(p, s, a.id, a.agent, a.messages, a.tools, a.effort, a.parsed), id, agent) == FlightOf(s, id, agent)
  {
  }

  lemma AnswerFlights(p: TS.Profile, s: Sys, a: Action, id: string, agent: string)
    requires a.EngineAnswers? && Enabled(s, a) && (a.id, a.agent) != (id, agent)
    ensures FlightOf(AfterAnswer(p, s, a.id, a.agent, a.completion, a.reply, a.parsed), id, agent) == FlightOf(s, id, agent)
  {
  }

  lemma FlightsOfOthers(p: TS.Profile, s: Sys, a: Action, id: string, agent: string)
    requires Enabled(s, a) && Owner(a) != Some((id, agent))
    ensures FlightOf(After(p, s, a), id, agent) == FlightOf(s, id, agent)
  {
    if a.Ask? {
      AskFlights(p, s, a, id, agent);
    } else if a.EngineAnswers? {
      AnswerFlights(p, s, a, id, agent);
    }
  }

  lemma RecordsOfOthers(p: TS.Profile, s: Sys, a: Action, id: string, agent: string)
    requires Enabled(s, a) && Owner(a) != Some((id, agent)) && !(a.DeleteSession? && a.id == id)
    requires EndsTurn(a) ==> FlightOf(s, a.id, a.agent).delivery.agent == Some(a.agent)
                             && Normalize(FlightOf(s, a.id, a.agent).delivery.messages).Some?
    ensures View(After(p, s, a).rec, id, Some(agent)) == View(s.rec, id, Some(agent))
  {
    if EndsTurn(a) {
      if !Tombstoned(s.rec.deleted, a.id, s.now) {
        EndOfTurnRecord(p, s, a, id, agent);
      }
    } else if a.Admit? {
      EnsureView(s.rec, s.now, a.id, a.model, id, Some(agent));
    } else if a.FinalizeSession? {
      FinalizeView(s.rec, a.id, id, Some(agent));
    } else if a.DeleteSession? {
      DeleteView(s.rec, s.now, a.id, id, Some(agent));
    }
  }

  // ---- The agent's own actions ----------------------------------------------------------

  predicate EndsTurn(a: Action) {
    a.RecordTurn? || a.FailBeforeAppend? || a.FailAfterAppend?
  }

  function EndOfTurn(v: Agent, a: Action): Agent
    requires v.flight.Unrecorded? && EndsTurn(a)
  {
    if a.RecordTurn? then AfterRecord(v) else if a.FailBeforeAppend? then AfterFailBefore(v) else AfterFailAfter(v)
  }

  lemma EndOfTurnRecord(p: TS.Profile, s: Sys, a: Action, id': string, agent': string)
    requires EndsTurn(a) && Enabled(s, a) && !Tombstoned(s.rec.deleted, a.id, s.now)
    requires var d := FlightOf(s, a.id, a.agent).delivery; d.agent == Some(a.agent) && Normalize(d.messages).Some?
    ensures View(After(p, s, a).rec, id', Some(agent'))
         == if id' == a.id && agent' == a.agent then EndOfTurn(AgentOf(s, a.id, a.agent), a).rec else View(s.rec, id', Some(agent'))
  {
    var d := FlightOf(s, a.id, a.agent).delivery;
    if a.FailBeforeAppend? {
      MarkView(s.rec, s.now, a.id, d, id', Some(agent'));
    } else {
      RecordView(s.rec, s.now, a.id, d, id', Some(agent'));
      RecordView(s.rec, s.now, a.id, d, a.id, Some(a.agent));
      MarkView(Record(s.rec, s.now, a.id, d).0, s.now, a.id, d, id', Some(agent'));
    }
  }

  lemma EndOfTurnDropped(p: TS.Profile, s: Sys, a: Action)
    requires EndsTurn(a) && Enabled(s, a) && Tombstoned(s.rec.deleted, a.id, s.now)
    ensures After(p, s, a) == WithFlight(s, a.id, a.agent, Idle)
  {
  }

  lemma EndOfTurnFrame(p: TS.Profile, s: Sys, a: Action)
    requires EndsTurn(a) && Enabled(s, a)
    ensures After(p, s, a).mgr == s.mgr && FlightOf(After(p, s, a), a.id, a.agent) == Idle
  {
  }

  lemma EndMoves(p: TS.Profile, s: Sys, a: Action)
    requires Tombs(s) && EndsTurn(a) && Enabled(s, a) && Sound(AgentOf(s, a.id, a.agent))
    ensures CanMove(AgentOf(s, a.id, a.agent), OwnMove(p, s, a))
    ensures AgentOf(After(p, s, a), a.id, a.agent) == Moved(AgentOf(s, a.id, a.agent), OwnMove(p, s, a))
  {
    EndOfTurnFrame(p, s, a);
    if Tombstoned(s.rec.deleted, a.id, s.now) {
      TombstonedView(s, a.id, Some(a.agent));
      EndOfTurnDropped(p, s, a);
    } else {
      EndOfTurnRecord(p, s, a, a.id, a.agent);
    }
  }

  /** Asking again for the turn just served: the cached turn is delivered a second time. */
  lemma HitMoves(p: TS.Profile, s: Sys, a: Action)
    requires a.Ask? && Enabled(s, a) && Sound(AgentOf(s, a.id, a.agent))
    requires TS.CachedTurn(p, s.mgr, StreamId(a.id, a.agent), a.messages, a.effort).1.Hit?
    ensures CanMove(AgentOf(s, a.id, a.agent), AskMove(p, s, a))
    ensures AgentOf(After(p, s, a), a.id, a.agent) == Moved(AgentOf(s, a.id, a.agent), AskMove(p, s, a))
  {
  }

  lemma MissMoves(p: TS.Profile, s: Sys, a: Action)
    requires a.Ask? && Enabled(s, a)
    requires TS.CachedTurn(p, s.mgr, StreamId(a.id, a.agent), a.messages, a.effort).1.Miss?
    ensures CanMove(AgentOf(s, a.id, a.agent), AskMove(p, s, a))
    ensures AgentOf(After(p, s, a), a.id, a.agent) == Moved(AgentOf(s, a.id, a.agent), AskMove(p, s, a))
  {
    var stream := StreamId(a.id, a.agent);
    var (touched, built) := TS.BuildPrompt(p, s.mgr, stream, a.messages, a.tools, a.effort);
    assert touched.states == s.mgr.states;
    if built.Ok? {
      TS.AcceptedContinuation(p, s.mgr, stream, a.messages, a.tools, a.effort);
      NormalizeKeepsConversation(a.messages);
    }
  }

  lemma AnswerMoves(p: TS.Profile, s: Sys, a: Action)
    requires a.EngineAnswers? && Enabled(s, a) && Sound(AgentOf(s, a.id, a.agent))
    ensures CanMove(AgentOf(s, a.id, a.agent), OwnMove(p, s, a))
    ensures AgentOf(After(p, s, a), a.id, a.agent) == Moved(AgentOf(s, a.id, a.agent), OwnMove(p, s, a))
  {
    var g := FlightOf(s, a.id, a.agent);
    NormalizePointwise(g.messages);
    var ms := Normalize(g.messages).value;
    var state := TS.Committed(g.prompt, a.completion, ms, a.reply, g.tools, g.effort);
    CommittedHolds(g.prompt, a.completion, ms, a.reply, g.tools, g.effort);
    TS.InstallHolds(p, s.mgr, StreamId(a.id, a.agent), state);
  }

  lemma ParseMoves(p: TS.Profile, s: Sys, a: Action)
    requires a.ParseTurn? && Enabled(s, a)
    ensures CanMove(AgentOf(s, a.id, a.agent), OwnMove(p, s, a))
    ensures AgentOf(After(p, s, a), a.id, a.agent) == Moved(AgentOf(s, a.id, a.agent), OwnMove(p, s, a))
  {
  }

  lemma OwnMoves(p: TS.Profile, s: Sys, a: Action)
    requires Tombs(s) && Enabled(s, a) && Owner(a).Some? && Sound(AgentOf(s, a.id, a.agent))
    ensures CanMove(AgentOf(s, a.id, a.agent), OwnMove(p, s, a))
    ensures AgentOf(After(p, s, a), a.id, a.agent) == Moved(AgentOf(s, a.id, a.agent), OwnMove(p, s, a))
  {
    if a.Ask? {
      var cached := TS.CachedTurn(p, s.mgr, StreamId(a.id, a.agent), a.messages, a.effort).1;
      if cached.Hit? {
        HitMoves(p, s, a);
      } else if cached.Miss? {
        MissMoves(p, s, a);
      }
    } else if a.EngineAnswers? {
      AnswerMoves(p, s, a);
    } else if a.ParseTurn? {
      ParseMoves(p, s, a);
    } else if EndsTurn(a) {
      EndMoves(p, s, a);
    }
  }

  lemma OthersHold(p: TS.Profile, s: Sys, a: Action, id: string, agent: string)
    requires Enabled(s, a) && ValidId(id) && ValidId(agent) && Owner(a) != Some((id, agent))
    ensures HeldOf(After(p, s, a).mgr, id, agent) == HeldOf(s.mgr, id, agent) || HeldOf(After(p, s, a).mgr, id, agent).None?
    ensures FlightOf(After(p, s, a), id, agent) == FlightOf(s, id, agent)
  {
    if Owner(a).Some? {
      OtherStream(Owner(a).value.0, Owner(a).value.1, id, agent);
    }
    ManagerTouchesOnlyOwner(p, s, a, StreamId(id, agent));
    FlightsOfOthers(p, s, a, id, agent);
  }

  lemma OnlyHeldChanges(s: Sys, s': Sys, id: string, agent: string)
    requires View(s'.rec, id, Some(agent)) == View(s.rec, id, Some(agent)) && FlightOf(s', id, agent) == FlightOf(s, id, agent)
    requires HeldOf(s'.mgr, id, agent) == HeldOf(s.mgr, id, agent) || HeldOf(s'.mgr, id, agent).None?
    ensures AgentOf(s', id, agent)
         == Moved(AgentOf(s, id, agent), if HeldOf(s'.mgr, id, agent) != HeldOf(s.mgr, id, agent) then LoseHeld else Stay)
  {
  }

  lemma DeletionMoves(p: TS.Profile, s: Sys, a: Action, id: string, agent: string)
    requires a.DeleteSession? && a.id == id && Enabled(s, a)
    ensures AgentOf(After(p, s, a), id, agent) == Moved(AgentOf(s, id, agent), LoseRecord)
  {
    DeleteView(s.rec, s.now, a.id, id, Some(agent));
  }

  lemma OthersRemain(p: TS.Profile, s: Sys, a: Action, id: string, agent: string)
    requires SysSound(s) && Enabled(s, a) && ValidId(id) && ValidId(agent) && Owner(a) != Some((id, agent))
    requires !(a.DeleteSession? && a.id == id)
    ensures AgentOf(After(p, s, a), id, agent)
         == Moved(AgentOf(s, id, agent),
                  if HeldOf(After(p, s, a).mgr, id, agent) != HeldOf(s.mgr, id, agent) then LoseHeld else Stay)
  {
    if EndsTurn(a) {
      assert Sound(AgentOf(s, a.id, a.agent));
    }
    OthersHold(p, s, a, id, agent);
    RecordsOfOthers(p, s, a, id, agent);
    OnlyHeldChanges(s, After(p, s, a), id, agent);
  }

  lemma OthersMove(p: TS.Profile, s: Sys, a: Action, id: string, agent: string)
    requires SysSound(s) && Enabled(s, a) && ValidId(id) && ValidId(agent) && Owner(a) != Some((id, agent))
    ensures CanMove(AgentOf(s, id, agent), MoveOf(p, s, a, id, agent))
    ensures AgentOf(After(p, s, a), id, agent) == Moved(AgentOf(s, id, agent), MoveOf(p, s, a, id, agent))
  {
    if a.DeleteSession? && a.id == id {
      DeletionMoves(p, s, a, id, agent);
    } else {
      OthersRemain(p, s, a, id, agent);
    }
  }

  /** Every action is, to every agent, one of the moves. */
  lemma StepMoves(p: TS.Profile, s: Sys, a: Action, id: string, agent: string)
    requires SysSound(s) && Enabled(s, a) && ValidId(id) && ValidId(agent)
    ensures CanMove(AgentOf(s, id, agent), MoveOf(p, s, a, id, agent))
    ensures AgentOf(After(p, s, a), id, agent) == Moved(AgentOf(s, id, agent), MoveOf(p, s, a, id, agent))
  {
    assert Sound(AgentOf(s, id, agent));
    if Owner(a) == Some((id, agent)) {
      OwnMoves(p, s, a);
    } else {
      OthersMove(p, s, a, id, agent);
    }
  }

  // ---- Tombstones -------------------------------------------------------------------

  /** Deleting one id never shortens the list of ids it should keep refusing, except by age and by the bound. */
  lemma {:induction false} WithoutIdTombstones(deleted: seq<Tombstone>, id: string)
    ensures forall i :: 0 <= i < |WithoutId(deleted, id)| ==> WithoutId(deleted, id)[i] in deleted
  {
    if deleted != [] {
      WithoutIdTombstones(deleted[1..], id);
      var rest := WithoutId(deleted[1..], id);
      forall i | 0 <= i < |WithoutId(deleted, id)| ensures WithoutId(deleted, id)[i] in deleted {
        if deleted[0].id == id {
          assert WithoutId(deleted, id)[i] == rest[i];
        } else if i > 0 {
          assert WithoutId(deleted, id)[i] == rest[i - 1];
        }
      }
    }
  }

  lemma DeleteTombstones(s: State, now: nat, id: string, other: string)
    requires Tombstoned(Delete(s, now, id).deleted, other, now)
    ensures other == id || Tombstoned(s.deleted, other, now)
  {
    var deleted := Delete(s, now, id).deleted;
    var i :| 0 <= i < |deleted| && deleted[i].id == other && now - deleted[i].at < TOMBSTONE_TTL;
    var kept := WithoutId(s.deleted, id);
    WithoutIdTombstones(s.deleted, id);
    assert deleted[i] in kept + [Tombstone(id, now)];
    if deleted[i] in kept {
      assert deleted[i] in s.deleted;
    }
  }

  lemma LaterTombstones(deleted: seq<Tombstone>, id: string, now: nat, later: nat)
    requires now <= later && Tombstoned(deleted, id, later)
    ensures Tombstoned(deleted, id, now)
  {
  }

  lemma DeletionKeepsTombs(p: TS.Profile, s: Sys, a: Action)
    requires Tombs(s) && a.DeleteSession? && Enabled(s, a)
    ensures Tombs(After(p, s, a))
  {
    var s' := After(p, s, a);
    forall id | Tombstoned(s'.rec.deleted, id, s'.now) ensures id !in s'.rec.sessions && id !in s'.rec.failed {
      DeleteTombstones(s.rec, s.now, a.id, id);
    }
  }

  lemma RecordTouchesOwnSession(s: State, now: nat, id: string, d: Delivery)
    ensures var after := Record(s, now, id, d).0;
            && after.deleted == s.deleted
            && after.sessions.Keys <= s.sessions.Keys + {id} && after.failed.Keys <= s.failed.Keys + {id}
  {
  }

  lemma MarkTouchesOwnSession(s: State, now: nat, id: string, d: Delivery)
    ensures var after := MarkFailed(s, now, id, d.agent, d.messages, d.prompt, d.completion);
            && after.deleted == s.deleted
            && after.sessions.Keys == s.sessions.Keys && after.failed.Keys <= s.failed.Keys + {id}
  {
  }

  lemma EndTouchesOwnSession(p: TS.Profile, s: Sys, a: Action)
    requires EndsTurn(a) && Enabled(s, a)
    ensures var after := After(p, s, a).rec;
            && after.deleted == s.rec.deleted && After(p, s, a).now == s.now
            && after.sessions.Keys <= s.rec.sessions.Keys + {a.id} && after.failed.Keys <= s.rec.failed.Keys + {a.id}
  {
    var d := FlightOf(s, a.id, a.agent).delivery;
    RecordTouchesOwnSession(s.rec, s.now, a.id, d);
    MarkTouchesOwnSession(s.rec, s.now, a.id, d);
    MarkTouchesOwnSession(Record(s.rec, s.now, a.id, d).0, s.now, a.id, d);
  }

  lemma EndKeepsTombs(p: TS.Profile, s: Sys, a: Action)
    requires Tombs(s) && EndsTurn(a) && Enabled(s, a)
    ensures Tombs(After(p, s, a))
  {
    if Tombstoned(s.rec.deleted, a.id, s.now) {
      EndOfTurnDropped(p, s, a);
    } else {
      EndTouchesOwnSession(p, s, a);
    }
  }

  lemma AdmitKeepsTombs(p: TS.Profile, s: Sys, a: Action)
    requires Tombs(s) && a.Admit? && Enabled(s, a)
    ensures Tombs(After(p, s, a))
  {
  }

  lemma FinalizeKeepsTombs(p: TS.Profile, s: Sys, a: Action)
    requires Tombs(s) && a.FinalizeSession? && Enabled(s, a)
    ensures Tombs(After(p, s, a))
  {
  }

  lemma TickKeepsTombs(p: TS.Profile, s: Sys, a: Action)
    requires Tombs(s) && a.Tick? && Enabled(s, a)
    ensures Tombs(After(p, s, a))
  {
    var s' := After(p, s, a);
    forall id | Tombstoned(s'.rec.deleted, id, s'.now) ensures id !in s'.rec.sessions && id !in s'.rec.failed {
      LaterTombstones(s.rec.deleted, id, s.now, s'.now);
    }
  }

  lemma StepKeepsTombs(p: TS.Profile, s: Sys, a: Action)
    requires Tombs(s) && Enabled(s, a)
    ensures Tombs(After(p, s, a))
  {
    if a.DeleteSession? {
      DeletionKeepsTombs(p, s, a);
    } else if EndsTurn(a) {
      EndKeepsTombs(p, s, a);
    } else if a.Admit? {
      AdmitKeepsTombs(p, s, a);
    } else if a.FinalizeSession? {
      FinalizeKeepsTombs(p, s, a);
    } else if a.Tick? {
      TickKeepsTombs(p, s, a);
    } else {
      RecorderUntouched(p, s, a);
    }
  }

  lemma RecorderUntouched(p: TS.Profile, s: Sys, a: Action)
    requires Enabled(s, a)
    requires a.Ask? || a.EngineFails? || a.EngineAnswers? || a.ParseTurn? || a.ReleaseStream?
    ensures After(p, s, a).rec == s.rec && After(p, s, a).now == s.now
  {
  }

  // ---- Runs ----------------------------------------------------------------------------

  lemma StepKeepsSound(p: TS.Profile, s: Sys, a: Action)
    requires SysSound(s) && Enabled(s, a)
    ensures SysSound(After(p, s, a))
  {
    StepKeepsTombs(p, s, a);
    forall id, agent | ValidId(id) && ValidId(agent) ensures Sound(AgentOf(After(p, s, a), id, agent)) {
      assert Sound(AgentOf(s, id, agent));
      StepMoves(p, s, a, id, agent);
      MoveKeepsSound(AgentOf(s, id, agent), MoveOf(p, s, a, id, agent));
    }
  }

  lemma {:induction false} RunKeepsSound(p: TS.Profile, s: Sys, actions: seq<Action>)
    requires SysSound(s) && Run(p, s, actions).Some?
    ensures SysSound(Run(p, s, actions).value)
    decreases |actions|
  {
    if actions != [] {
      StepKeepsSound(p, s, actions[0]);
      RunKeepsSound(p, After(p, s, actions[0]), actions[1..]);
    }
  }

  /**
   Lossless recording. After any run, an agent with no pending recording failure, no turn in flight and at least
   one recorded turn has a record whose deltas since its last new conversation join to exactly the token stream the
   manager holds for it, whenever the manager still holds one; and the messages stored with those deltas are exactly
   the agent-side messages of the held history.
   */
  lemma LosslessRecording(p: TS.Profile, actions: seq<Action>, id: string, agent: string)
    requires Run(p, START, actions).Some? && ValidId(id) && ValidId(agent)
    ensures var v := AgentOf(Run(p, START, actions).value, id, agent);
            v.rec.failed.None? && v.flight.Idle? && v.rec.turns != [] && v.held.Some? ==>
              && Rebuilt(v.rec.turns) == v.held.value.stream
              && RebuiltGists(v.rec.turns) == Gists(NonAssistant(v.held.value.messages))
  {
    assert SysSound(START);
    RunKeepsSound(p, START, actions);
    var v := AgentOf(Run(p, START, actions).value, id, agent);
    assert Sound(v);
    if v.held.Some? {
      HeldStream(v.held.value);
    }
  }

  /** An exact retry of the last committed turn is always recognized: it never adds a second copy of the turn. */
  lemma RetryRecordsNothingTwice(p: TS.Profile, actions: seq<Action>, id: string, agent: string, d: Delivery)
    requires Run(p, START, actions).Some? && ValidId(id) && ValidId(agent)
    requires var v := AgentOf(Run(p, START, actions).value, id, agent);
             && v.rec.failed.None? && v.flight.Idle? && v.rec.turns != [] && v.held.Some? && v.held.value.lastTurn.Some?
             && Normalize(d.messages) == Some(v.held.value.messages)
             && Exchange(v.held.value.messages, d.prompt, d.completion) == HeldExchange(v.held.value)
    ensures RecordAgent(AgentOf(Run(p, START, actions).value, id, agent).rec, d)
         == (AgentOf(Run(p, START, actions).value, id, agent).rec, SkippedDuplicate)
  {
    assert SysSound(START);
    RunKeepsSound(p, START, actions);
    var v := AgentOf(Run(p, START, actions).value, id, agent);
    assert Sound(v);
    var e := HeldExchange(v.held.value);
    if !HasAssistant(e.messages) {
      JudgeOpening(v.rec.turns, d, e);
    } else {
      JudgeContinuation(v.rec.turns, d, e);
    }
  }
}
