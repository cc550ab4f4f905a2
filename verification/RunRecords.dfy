/**
 The records runs leave behind pass the record check (proxyserver/service.py, proxyserver/record_validation.py), so that
 converting them can only be refused for what a caller chose (proxyserver/training.py).
 */
module RunRecords {
  import opened Wrappers
  import opened Text
  import opened Messages
  import opened Capture
  import opened Recorder
  import opened Lossless
  import opened Recording
  import opened Routing
  import Training
  import TrainingRecords
  import Conversion
  import TS = TokenStream

  // ---- What every recorded turn is like ------------------------------------------

  /** A turn of an agent, with sampled tokens, a logprob for each, and a prompt if it opens a conversation. */
  predicate TurnFine(t: Turn) {
    && t.agent.Some? && ValidId(t.agent.value)
    && |t.logprobs| == |t.completion| && t.completion != []
    && (t.newConversation ==> t.prompt != [])
  }

  /** An agent's first turn opens a conversation. */
  predicate Opened(turns: seq<Turn>, i: nat)
    requires i < |turns|
  {
    !turns[i].newConversation ==> AgentTurns(turns[..i], turns[i].agent) != []
  }

  predicate TurnsFine(turns: seq<Turn>) {
    forall i :: 0 <= i < |turns| ==> TurnFine(turns[i]) && Opened(turns, i)
  }

  predicate KnownAgents(routed: map<string, Blob>) {
    forall name :: name in routed ==> ValidId(name)
  }

  predicate SessionFine(session: Session) {
    TurnsFine(session.turns) && KnownAgents(session.routed)
  }

  predicate RecordsFine(sessions: map<string, Session>) {
    forall id :: id in sessions ==> ValidId(id) && SessionFine(sessions[id])
  }

  predicate DeliveryFine(d: Delivery) {
    && d.agent.Some? && ValidId(d.agent.value)
    && |d.logprobs| == |d.completion| && d.completion != [] && d.prompt != []
  }

  predicate FlightFine(f: Flight) {
    match f
    case Idle => true
    case Generating(_, _, _, prompt) => prompt != []
    case Unrecorded(d) => DeliveryFine(d)
  }

  predicate FlightsFine(flights: map<Key, Flight>) {
    forall k :: k in flights ==> FlightFine(flights[k])
  }

  /** A held stream ends with a sampled turn that has a prompt and a logprob per token. */
  predicate StateFine(st: TS.StreamState) {
    && st.lastTurn.Some? && 0 < st.lastTurn.value.completionLen < |st.stream|
    && |st.lastTurn.value.reply.logprobs| == st.lastTurn.value.completionLen
  }

  predicate HeldFine(states: map<string, TS.StreamState>) {
    forall k :: k in states ==> StateFine(states[k])
  }

  predicate SysFine(s: Sys) {
    RecordsFine(s.rec.sessions) && FlightsFine(s.flights) && HeldFine(s.mgr.states)
  }

  /** The profile never renders a request to no tokens at all; a generation header is enough for that. */
  ghost predicate Prompts(p: TS.Profile) {
    forall ms, tools, effort :: TS.FullRender(p, ms, tools, effort).Ok? ==> TS.FullRender(p, ms, tools, effort).value != []
  }

  lemma HeaderPrompts(p: TS.Profile)
    requires p.generationPrompt != []
    ensures Prompts(p)
  {
  }

  // ---- Recording ---------------------------------------------------------------------

  lemma StoredFine(turns: seq<Turn>, d: Delivery)
    requires DeliveryFine(d) && Judge(turns, d).Store?
    ensures TurnFine(StoredTurn(d, Judge(turns, d)))
    ensures turns == [] ==> StoredTurn(d, Judge(turns, d)).newConversation
  {
  }

  lemma TurnsFineAppend(turns: seq<Turn>, t: Turn)
    requires TurnsFine(turns) && TurnFine(t)
    requires !t.newConversation ==> AgentTurns(turns, t.agent) != []
    ensures TurnsFine(turns + [t])
  {
    var longer := turns + [t];
    forall i | 0 <= i < |longer| ensures TurnFine(longer[i]) && Opened(longer, i) {
      if i < |turns| {
        assert Opened(turns, i);
        assert longer[..i] == turns[..i];
      } else {
        assert longer[..i] == turns;
      }
    }
  }

  lemma AppendedFine(session: Session, d: Delivery, v: Verdict, capture: Option<Blob>)
    requires SessionFine(session) && DeliveryFine(d) && v == Judge(AgentTurns(session.turns, d.agent), d) && v.Store?
    ensures SessionFine(session.(turns := session.turns + [StoredTurn(d, v)],
                                 routed := WithCapture(session.routed, d.agent, capture)))
  {
    StoredFine(AgentTurns(session.turns, d.agent), d);
    TurnsFineAppend(session.turns, StoredTurn(d, v));
  }

  lemma SessionOfFine(s: State, id: string)
    requires RecordsFine(s.sessions)
    ensures SessionFine(SessionOf(s, id))
  {
  }

  lemma RecordFine(s: State, now: nat, id: string, d: Delivery)
    requires RecordsFine(s.sessions) && ValidId(id) && DeliveryFine(d)
    ensures RecordsFine(Record(s, now, id, d).0.sessions)
  {
    if !Tombstoned(s.deleted, id, now) {
      var before := View(s, id, d.agent);
      SessionOfFine(s, id);
      if RecordAgent(before, d).1 == Recorded {
        RecordWithAppend(s, now, id, d);
        var v := Judge(before.turns, d);
        AppendedFine(SessionOf(s, id), d, v, CaptureAfter(before.capture, d, v.newConversation));
      } else {
        RecordWithoutAppend(s, now, id, d);
      }
    }
  }

  // ---- Steps ----------------------------------------------------------------------------

  lemma InstallFine(p: TS.Profile, m: TS.Manager, id: string, st: TS.StreamState)
    requires HeldFine(m.states) && StateFine(st)
    ensures HeldFine(TS.Install(p, m, id, st).states)
  {
    TS.InstallHolds(p, m, id, st);
  }

  lemma HitFine(p: TS.Profile, s: Sys, a: Action)
    requires SysFine(s) && a.Ask? && Enabled(s, a)
    requires TS.CachedTurn(p, s.mgr, StreamId(a.id, a.agent), a.messages, a.effort).1.Hit?
    ensures SysFine(After(p, s, a))
  {
    var stream := StreamId(a.id, a.agent);
    var st := s.mgr.states[stream];
    assert StateFine(st);
    var cached := TS.CachedTurn(p, s.mgr, stream, a.messages, a.effort).1;
    assert |cached.completion| == st.lastTurn.value.completionLen && |cached.prompt| == |st.stream| - |cached.completion|;
  }

  lemma PromptIsNotEmpty(p: TS.Profile, m: TS.Manager, stream: string, ms: seq<Message>, tools: seq<TS.ToolDefinition>,
                         effort: Option<TS.Effort>)
    requires Prompts(p) && HeldFine(m.states) && TS.BuildPrompt(p, m, stream, ms, tools, effort).1.Ok?
    ensures TS.BuildPrompt(p, m, stream, ms, tools, effort).1.value != []
  {
    TS.AcceptedContinuation(p, m, stream, ms, tools, effort);
    NormalizeKeepsConversation(ms);
    if HasAssistant(ms) {
      assert StateFine(m.states[stream]);
    } else {
      assert TS.FullRender(p, Normalize(ms).value, tools, effort).value != [];
    }
  }

  lemma AskFine(p: TS.Profile, s: Sys, a: Action)
    requires Prompts(p) && SysFine(s) && a.Ask? && Enabled(s, a)
    ensures SysFine(After(p, s, a))
  {
    var stream := StreamId(a.id, a.agent);
    var cached := TS.CachedTurn(p, s.mgr, stream, a.messages, a.effort).1;
    if cached.Hit? {
      HitFine(p, s, a);
    } else if cached.Miss? {
      var (touched, built) := TS.BuildPrompt(p, s.mgr, stream, a.messages, a.tools, a.effort);
      assert touched.states == s.mgr.states;
      if built.Ok? {
        PromptIsNotEmpty(p, s.mgr, stream, a.messages, a.tools, a.effort);
      }
    }
  }

  lemma AnswerFine(p: TS.Profile, s: Sys, a: Action)
    requires SysFine(s) && a.EngineAnswers? && Enabled(s, a)
    ensures SysFine(After(p, s, a))
  {
    var g := FlightOf(s, a.id, a.agent);
    assert FlightFine(g);
    if Normalize(g.messages).Some? {
      var st := TS.Committed(g.prompt, a.completion, Normalize(g.messages).value, a.reply, g.tools, g.effort);
      assert StateFine(st);
      InstallFine(p, s.mgr, StreamId(a.id, a.agent), st);
    }
  }

  lemma MarkFine(s: State, now: nat, id: string, d: Delivery)
    requires RecordsFine(s.sessions)
    ensures RecordsFine(MarkFailed(s, now, id, d.agent, d.messages, d.prompt, d.completion).sessions)
  {
  }

  /** The recorder may have changed; the flight is over. */
  lemma LandsFine(s: Sys, id: string, agent: string, rec: State)
    requires SysFine(s) && RecordsFine(rec.sessions)
    ensures SysFine(WithFlight(s.(rec := rec), id, agent, Idle))
  {
  }

  lemma EndFine(p: TS.Profile, s: Sys, a: Action)
    requires SysFine(s) && EndsTurn(a) && Enabled(s, a)
    ensures SysFine(After(p, s, a))
  {
    var d := FlightOf(s, a.id, a.agent).delivery;
    assert FlightFine(FlightOf(s, a.id, a.agent));
    RecordFine(s.rec, s.now, a.id, d);
    var recorded := Record(s.rec, s.now, a.id, d).0;
    if a.RecordTurn? {
      LandsFine(s, a.id, a.agent, recorded);
    } else if a.FailBeforeAppend? {
      MarkFine(s.rec, s.now, a.id, d);
      LandsFine(s, a.id, a.agent, Marked(s, a.id, d));
    } else {
      MarkFine(recorded, s.now, a.id, d);
      LandsFine(s, a.id, a.agent, Marked(s.(rec := recorded), a.id, d));
    }
  }

  lemma ParseFine(p: TS.Profile, s: Sys, a: Action)
    requires SysFine(s) && a.ParseTurn? && Enabled(s, a)
    ensures SysFine(After(p, s, a))
  {
  }

  lemma EnsureFine(s: State, now: nat, id: string, model: Option<string>)
    requires RecordsFine(s.sessions) && ValidId(id)
    ensures RecordsFine(Ensure(s, now, id, model).sessions)
  {
  }

  lemma FinalizeFine(s: State, id: string)
    requires RecordsFine(s.sessions)
    ensures RecordsFine(Finalize(s, id).sessions)
  {
  }

  lemma RecorderStepFine(p: TS.Profile, s: Sys, a: Action)
    requires SysFine(s) && Enabled(s, a) && (a.Admit? || a.FinalizeSession? || a.DeleteSession?)
    ensures SysFine(After(p, s, a))
  {
    if a.Admit? {
      EnsureFine(s.rec, s.now, a.id, a.model);
    } else if a.FinalizeSession? {
      FinalizeFine(s.rec, a.id);
    }
  }

  lemma OtherStepFine(p: TS.Profile, s: Sys, a: Action)
    requires SysFine(s) && Enabled(s, a) && (a.EngineFails? || a.ReleaseStream? || a.Tick?)
    ensures SysFine(After(p, s, a))
  {
  }

  /** Whatever happens, records, turns in flight and held streams stay like that. */
  lemma StepFine(p: TS.Profile, s: Sys, a: Action)
    requires Prompts(p) && SysFine(s) && Enabled(s, a)
    ensures SysFine(After(p, s, a))
  {
    if a.Ask? {
      AskFine(p, s, a);
    } else if a.EngineAnswers? {
      AnswerFine(p, s, a);
    } else if EndsTurn(a) {
      EndFine(p, s, a);
    } else if a.ParseTurn? {
      ParseFine(p, s, a);
    } else if a.Admit? || a.FinalizeSession? || a.DeleteSession? {
      RecorderStepFine(p, s, a);
    } else {
      OtherStepFine(p, s, a);
    }
  }

  lemma {:induction false} RunFine(p: TS.Profile, s: Sys, actions: seq<Action>)
    requires Prompts(p) && SysFine(s) && Run(p, s, actions).Some?
    ensures SysFine(Run(p, s, actions).value)
    decreases |actions|
  {
    if actions != [] {
      StepFine(p, s, actions[0]);
      RunFine(p, After(p, s, actions[0]), actions[1..]);
    }
  }

  // ---- The record check -------------------------------------------------------------------

  lemma {:induction false} AgentTurnsAreTurns(turns: seq<Turn>, a: AgentId)
    ensures forall k :: 0 <= k < |AgentTurns(turns, a)| ==> AgentTurns(turns, a)[k] in turns
  {
    if turns != [] {
      AgentTurnsAreTurns(turns[..|turns| - 1], a);
    }
  }

  lemma SampledTurnsHaveTokens(turns: seq<Turn>)
    requires turns != [] && turns[|turns| - 1].completion != []
    ensures Rebuilt(turns) != []
  {
  }

  lemma TurnPasses(turns: seq<Turn>, i: nat)
    requires TurnsFine(turns) && i < |turns|
    ensures Training.TurnOk(turns, i)
  {
    assert TurnFine(turns[i]) && Opened(turns, i);
    if !turns[i].newConversation {
      var mine := AgentTurns(turns[..i], turns[i].agent);
      AgentTurnsAreTurns(turns[..i], turns[i].agent);
      var last := mine[|mine| - 1];
      assert last in turns[..i];
      assert TurnFine(last);
      SampledTurnsHaveTokens(mine);
    }
  }

  function ByAgent(routed: map<string, Blob>): map<AgentId, Blob> {
    map a: AgentId | a in set name | name in routed :: Some(name) :: routed[a.value]
  }

  /** A faithful capture has the extent the record check asks for. */
  lemma FaithfulFits(e: Engine, b: Blob, stream: seq<Token>)
    requires Uniform(e) && Faithful(e, b, stream)
    ensures Training.BlobOk(b, |stream|)
  {
    RowsLength(e, stream, 0, b.rows);
  }

  lemma CapturePasses(e: Engine, p: TS.Profile, actions: seq<Action>, id: string, name: string)
    requires Uniform(e) && Prompts(p) && Run(p, START, actions).Some? && HonestRun(e, p, START, actions)
    requires var rec := Run(p, START, actions).value.rec; DumpOf(rec, id).Served? && name in rec.sessions[id].routed
    ensures var session := Run(p, START, actions).value.rec.sessions[id];
            && Training.HasAgent(session.turns, Some(name))
            && Training.BlobOk(session.routed[name], |Rebuilt(AgentTurns(session.turns, Some(name)))|)
  {
    RunFine(p, START, actions);
    var s := Run(p, START, actions).value;
    var session := s.rec.sessions[id];
    assert ValidId(id) && SessionFine(session);
    CaptureFaithfulInRuns(e, p, actions, id, name);
    var mine := AgentOf(s, id, name).rec;
    assert mine.failed.None? && mine.capture == Some(session.routed[name]);
    FaithfulFits(e, session.routed[name], Rebuilt(mine.turns));
    Training.HasAgentTurns(session.turns, Some(name));
  }

  /**
   Every turn any run records passes the record check, whatever was lost, retried, evicted or deleted: its logprobs
   align and its conversation starts with a prompt.
   */
  lemma RecordedTurnsPass(p: TS.Profile, actions: seq<Action>, id: string)
    requires Prompts(p) && Run(p, START, actions).Some? && id in Run(p, START, actions).value.rec.sessions
    ensures ValidId(id)
    ensures var turns := Run(p, START, actions).value.rec.sessions[id].turns;
            forall i :: 0 <= i < |turns| ==> Training.TurnOk(turns, i) && turns[i].agent.Some? && ValidId(turns[i].agent.value)
  {
    RunFine(p, START, actions);
    var session := Run(p, START, actions).value.rec.sessions[id];
    assert SessionFine(session);
    forall i | 0 <= i < |session.turns| ensures Training.TurnOk(session.turns, i) {
      TurnPasses(session.turns, i);
    }
  }

  /** A record that can be collected after a run with an honest engine passes the record check, captures included. */
  lemma CollectedRecordPasses(e: Engine, p: TS.Profile, actions: seq<Action>, id: string)
    requires Uniform(e) && Prompts(p) && Run(p, START, actions).Some? && HonestRun(e, p, START, actions)
    requires DumpOf(Run(p, START, actions).value.rec, id).Served?
    ensures var session := Run(p, START, actions).value.rec.sessions[id];
            Training.RecordOk(session.turns, ByAgent(session.routed), false)
  {
    var session := Run(p, START, actions).value.rec.sessions[id];
    var routed := ByAgent(session.routed);
    RecordedTurnsPass(p, actions, id);
    forall a | a in routed
      ensures Training.HasAgent(session.turns, a) && Training.BlobOk(routed[a], |Rebuilt(AgentTurns(session.turns, a))|)
    {
      CapturePasses(e, p, actions, id, a.value);
    }
  }

  // ---- Conversion ----------------------------------------------------------------------------

  lemma ValidIdIsName(id: string)
    requires ValidId(id)
    ensures IsName(id)
  {
    var body := if EndsWith(id, "\n") then id[..|id| - 1] else id;
    assert IdChars(body) && body[0] == id[0];
    assert IdChar(body[0]);
    assert !IsSpace(id[0]);
  }

  /** What a caller chooses: registered agents, resets only where allowed, well-formed names, and complete captures. */
  ghost predicate CallerAllows(turns: seq<Turn>, routed: map<AgentId, Blob>, roles: map<AgentId, string>,
                               allowSegments: bool, requireRouted: bool)
  {
    && TrainingRecords.RolesOk(roles)
    && (forall i :: 0 <= i < |turns| ==> TrainingRecords.TurnProblem(turns, i, routed, roles, allowSegments).None?)
    && Conversion.ConversationsOk(turns, routed, roles, requireRouted)
  }

  /** Complete captures of all conversations are the coverage the record check asks for. */
  lemma CompleteIsCovered(turns: seq<Turn>, routed: map<AgentId, Blob>, roles: map<AgentId, string>, allowSegments: bool)
    requires CallerAllows(turns, routed, roles, allowSegments, true)
    ensures Training.Covered(turns, routed)
  {
    forall i | 0 <= i < |turns| ensures Training.AgentCovered(turns, routed, turns[i].agent) {
      assert TrainingRecords.TurnProblem(turns, i, routed, roles, allowSegments).None?;
      AgentIsCovered(turns, routed, roles, allowSegments, turns[i].agent);
    }
  }

  lemma AgentIsCovered(turns: seq<Turn>, routed: map<AgentId, Blob>, roles: map<AgentId, string>, allowSegments: bool, a: AgentId)
    requires CallerAllows(turns, routed, roles, allowSegments, true) && a in roles
    ensures Training.AgentCovered(turns, routed, a)
  {
    var mine := AgentTurns(turns, a);
    if Rebuilt(mine) != [] {
      Conversion.LastConversationIsRebuilt(mine);
      var n := |Training.Segments(mine)| - 1;
      assert Conversion.ConversationOk(turns, a, n, routed, true);
      Conversion.CapturedAgentHasOneConversation(turns, |turns|, a, routed, roles, allowSegments);
      TrainingRecords.WholeSlice(turns);
    }
  }

  /**
   Converting a record collected after a run with an honest engine succeeds if and only if the caller registered every
   agent, allowed the resets there are, the names in the record are well formed and every capture that is attached or
   required is complete. Nothing the proxy recorded is ever the reason for a refusal.
   */
  lemma CollectedRecordConverts(e: Engine, p: TS.Profile, actions: seq<Action>, id: string,
                                roles: map<AgentId, string>, allowSegments: bool, requireRouted: bool)
    requires Uniform(e) && Prompts(p) && Run(p, START, actions).Some? && HonestRun(e, p, START, actions)
    requires DumpOf(Run(p, START, actions).value.rec, id).Served?
    ensures var session := Run(p, START, actions).value.rec.sessions[id];
            (TrainingRecords.Convert(id, session.turns, ByAgent(session.routed), roles, allowSegments, requireRouted).Ok?
             <==> CallerAllows(session.turns, ByAgent(session.routed), roles, allowSegments, requireRouted))
  {
    var session := Run(p, START, actions).value.rec.sessions[id];
    var routed := ByAgent(session.routed);
    CollectedRecordPasses(e, p, actions, id);
    RecordedTurnsPass(p, actions, id);
    ValidIdIsName(id);
    Conversion.ConvertsExactlyWhenSound(id, session.turns, routed, roles, allowSegments, requireRouted);
    if requireRouted && CallerAllows(session.turns, routed, roles, allowSegments, true) {
      CompleteIsCovered(session.turns, routed, roles, allowSegments);
    }
  }
}
