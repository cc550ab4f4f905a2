/**
 From committed turns to training streams: when every committed turn of an agent is recorded, possibly by an
 exact retry, before the agent commits its next one, the collected record converts to exactly the committed
 conversations (proxyserver/service.py, proxyserver/recorder.py, proxyserver/training.py).
 */
module Collection {
  import opened Wrappers
  import opened Messages
  import opened Capture
  import opened Recorder
  import opened Lossless
  import opened Recording
  import opened Routing
  import opened RunRecords
  import Training
  import TrainingChecks
  import TrainingRecords
  import Conversion
  import TS = TokenStream

  // ---- What an agent has committed ------------------------------------------

  function Last(log: seq<Exchange>): Exchange
    requires log != []
  {
    log[|log| - 1]
  }

  /**
   The agent's conversations after one more commit, each as its latest committed turn: an opening starts a
   conversation unless it repeats the latest turn exactly, a continuation replaces the turn it continues.
   */
  function LogAfter(log: seq<Exchange>, e: Exchange): (r: seq<Exchange>)
    ensures r != [] && Last(r) == e
  {
    if log == [] then [e]
    else if HasAssistant(e.messages) then log[..|log| - 1] + [e]
    else if Last(log) == e then log
    else log + [e]
  }

  function LogStep(s: Sys, a: Action, id: string, agent: string, log: seq<Exchange>): seq<Exchange>
    requires Enabled(s, a)
  {
    if a.EngineAnswers? && a.id == id && a.agent == agent && Normalize(FlightOf(s, id, agent).messages).Some? then
      LogAfter(log, Exchange(Normalize(FlightOf(s, id, agent).messages).value, FlightOf(s, id, agent).prompt, a.completion))
    else log
  }

  /** Everything the agent commits during a run. */
  function LogRun(p: TS.Profile, s: Sys, actions: seq<Action>, id: string, agent: string, log: seq<Exchange>): seq<Exchange>
    decreases |actions|
  {
    if actions == [] || !Enabled(s, actions[0]) then log
    else LogRun(p, After(p, s, actions[0]), actions[1..], id, agent, LogStep(s, actions[0], id, agent, log))
  }

  /** The agent commits no turn while an earlier one is unresolved, and its session is not deleted. */
  predicate DisciplinedStep(s: Sys, a: Action, id: string, agent: string) {
    && !(a.DeleteSession? && a.id == id)
    && (a.EngineAnswers? && a.id == id && a.agent == agent ==> View(s.rec, id, Some(agent)).failed.None?)
  }

  predicate Disciplined(p: TS.Profile, s: Sys, actions: seq<Action>, id: string, agent: string)
    decreases |actions|
  {
    actions != [] && Enabled(s, actions[0]) ==>
      DisciplinedStep(s, actions[0], id, agent) && Disciplined(p, After(p, s, actions[0]), actions[1..], id, agent)
  }

  // ---- Records that match the log ---------------------------------------------

  predicate MatchesUpTo(turns: seq<Turn>, log: seq<Exchange>, n: nat) {
    && n <= |log| && n <= |Training.Segments(turns)|
    && forall k :: 0 <= k < n ==> Training.TokensOf(Training.Segments(turns)[k]) == StreamOf(log[k])
  }

  predicate Recorded(turns: seq<Turn>, log: seq<Exchange>) {
    && |Training.Segments(turns)| == |log| && MatchesUpTo(turns, log, |log|)
    && (log != [] ==> InStep(turns, Last(log))
                      && (turns[|turns| - 1].newConversation ==> Normalize(turns[|turns| - 1].messages) == Some(Last(log).messages)))
  }

  /** The latest committed turn is recorded, or is the one the record is waiting for. */
  predicate Due(turns: seq<Turn>, log: seq<Exchange>) {
    && log != []
    && if InStep(turns, Last(log)) then Recorded(turns, log)
       else
         && Follows(turns, Last(log).messages, Last(log).prompt)
         && |Training.Segments(turns)| == (if StartsAfresh(turns, Last(log)) then |log| - 1 else |log|)
         && MatchesUpTo(turns, log, |log| - 1)
  }

  predicate Pending(v: Agent) {
    v.rec.failed.Some? || v.flight.Unrecorded?
  }

  predicate Collected(v: Agent, log: seq<Exchange>)
    requires Sound(v)
  {
    && (v.held.Some? ==> log != [] && HeldExchange(v.held.value) == Last(log))
    && (v.flight.Unrecorded? ==> log != [] && DeliveredExchange(v.flight.delivery) == Last(log))
    && (v.rec.failed.Some? ==>
          log != [] && FailedExchange(v.rec.failed.value) == Last(log) && |v.rec.turns| == v.rec.failed.value.recordedTurns)
    && (if Pending(v) then Due(v.rec.turns, log) else Recorded(v.rec.turns, log))
  }

  // ---- One commit ---------------------------------------------------------------

  lemma SameOpening(turns: seq<Turn>, l: Exchange, e: Exchange)
    requires turns != [] && !HasAssistant(e.messages)
    requires InStep(turns, e) && InStep(turns, l)
    requires turns[|turns| - 1].newConversation ==> Normalize(turns[|turns| - 1].messages) == Some(l.messages)
    ensures l == e
  {
    assert l.completion == e.completion;
    assert StreamOf(l) == StreamOf(e);
    assert l.prompt == StreamOf(l)[..|StreamOf(l)| - |l.completion|];
    assert e.prompt == StreamOf(e)[..|StreamOf(e)| - |e.completion|];
  }

  lemma RecordedEmpty(turns: seq<Turn>, log: seq<Exchange>)
    requires Recorded(turns, log)
    ensures turns == [] <==> log == []
  {
    TrainingRecords.SegmentsNone(turns);
  }

  lemma CommitOpening(turns: seq<Turn>, log: seq<Exchange>, e: Exchange)
    requires Recorded(turns, log) && Follows(turns, e.messages, e.prompt) && !HasAssistant(e.messages) && log != []
    ensures Due(turns, LogAfter(log, e))
  {
    RecordedEmpty(turns, log);
    if InStep(turns, e) {
      SameOpening(turns, Last(log), e);
    }
  }

  lemma CommitContinuation(turns: seq<Turn>, log: seq<Exchange>, e: Exchange)
    requires Recorded(turns, log) && Follows(turns, e.messages, e.prompt) && HasAssistant(e.messages) && log != []
    ensures Due(turns, LogAfter(log, e))
  {
    RecordedEmpty(turns, log);
    assert |Gists(NonAssistant(e.messages))| == |NonAssistant(e.messages)|;
    assert !InStep(turns, e);
    assert MatchesUpTo(turns, log, |log|);
    assert forall k :: 0 <= k < |log| - 1 ==> LogAfter(log, e)[k] == log[k];
  }

  lemma CommitIsDue(turns: seq<Turn>, log: seq<Exchange>, e: Exchange)
    requires Recorded(turns, log) && Follows(turns, e.messages, e.prompt)
    ensures Due(turns, LogAfter(log, e))
  {
    RecordedEmpty(turns, log);
    if log != [] {
      if HasAssistant(e.messages) {
        CommitContinuation(turns, log, e);
      } else {
        CommitOpening(turns, log, e);
      }
    } else {
      TrainingRecords.SegmentsNone(turns);
    }
  }

  // ---- One delivery ---------------------------------------------------------------

  predicate Same(segment: seq<Turn>, e: Exchange) {
    Training.TokensOf(segment) == StreamOf(e)
  }

  lemma LastJoins(segments: seq<seq<Turn>>, segment: seq<Turn>, log: seq<Exchange>, n: nat)
    requires n + 1 == |log| && n <= |segments|
    requires forall k :: 0 <= k < n ==> Same(segments[k], log[k])
    requires Same(segment, log[n])
    ensures forall k :: 0 <= k < n + 1 ==> Same((segments[..n] + [segment])[k], log[k])
  {
  }

  lemma MatchesAfter(turns: seq<Turn>, t: Turn, log: seq<Exchange>)
    requires log != [] && MatchesUpTo(turns, log, |log| - 1)
    requires |Training.Segments(turns)| == (if t.newConversation || turns == [] then |log| - 1 else |log|)
    requires Rebuilt(turns + [t]) == StreamOf(Last(log))
    ensures |Training.Segments(turns + [t])| == |log| && MatchesUpTo(turns + [t], log, |log|)
  {
    var n := |log| - 1;
    var before := Training.Segments(turns);
    var after := Training.Segments(turns + [t]);
    Training.SegmentsAppend(turns, t);
    Conversion.LastConversationIsRebuilt(turns + [t]);
    var segment := after[|after| - 1];
    assert after == before[..n] + [segment];
    LastJoins(before, segment, log, n);
    forall k | 0 <= k < |log| ensures Training.TokensOf(after[k]) == StreamOf(log[k]) {
      assert Same(after[k], log[k]);
    }
  }

  lemma DeliveryIsRecorded(a: AgentState, d: Delivery, log: seq<Exchange>)
    requires Comparable(a.turns) && Due(a.turns, log) && Delivers(d, Last(log))
    ensures Recorded(RecordAgent(a, d).0.turns, log)
  {
    var e := Last(log);
    NormalizeKeepsConversation(d.messages);
    if InStep(a.turns, e) {
      if StartsAfresh(a.turns, e) {
        JudgeOpening(a.turns, d, e);
      } else {
        JudgeContinuation(a.turns, d, e);
      }
    } else {
      DeliveryIsStored(a, d, log);
    }
  }

  lemma DeliveryIsStored(a: AgentState, d: Delivery, log: seq<Exchange>)
    requires Comparable(a.turns) && Due(a.turns, log) && Delivers(d, Last(log)) && !InStep(a.turns, Last(log))
    ensures Recorded(RecordAgent(a, d).0.turns, log)
  {
    var e := Last(log);
    RecordKeepsStep(a, d, e);
    if StartsAfresh(a.turns, e) {
      JudgeOpening(a.turns, d, e);
    } else {
      JudgeContinuation(a.turns, d, e);
    }
    MatchesAfter(a.turns, StoredTurn(d, Judge(a.turns, d)), log);
  }

  lemma RecordKeepsCollected(v: Agent, log: seq<Exchange>)
    requires Sound(v) && v.flight.Unrecorded? && Collected(v, log)
    ensures Recorded(RecordAgent(v.rec, v.flight.delivery).0.turns, log)
    ensures RecordAgent(v.rec, v.flight.delivery).0.failed.None?
  {
    var d := v.flight.delivery;
    assert Delivers(d, Last(log));
    DeliveryIsRecorded(v.rec, d, log);
    if v.rec.failed.None? {
      RecordKeepsStep(v.rec, d, Last(log));
    } else {
      assert Repairs(v.rec, d);
      RepairedExchange(v.rec, d);
      RecordKeepsStep(v.rec, d, Last(log));
    }
  }

  // ---- Every step -------------------------------------------------------------------

  function LogMoved(log: seq<Exchange>, m: Move): seq<Exchange> {
    if m.CommitTurn? && Normalize(m.delivery.messages).Some? then LogAfter(log, DeliveredExchange(m.delivery)) else log
  }

  lemma RecordedIsDue(turns: seq<Turn>, log: seq<Exchange>)
    requires Recorded(turns, log) && log != []
    ensures Due(turns, log)
  {
  }

  lemma EndKeepsCollected(v: Agent, m: Move, log: seq<Exchange>)
    requires Sound(v) && CanMove(v, m) && Collected(v, log)
    requires m.RecordOk? || m.FailBefore? || m.FailAfter?
    ensures Sound(Moved(v, m)) && Collected(Moved(v, m), log)
  {
    MoveKeepsSound(v, m);
    if !m.FailBefore? {
      RecordKeepsCollected(v, log);
      RecordedIsDue(RecordAgent(v.rec, v.flight.delivery).0.turns, log);
    }
  }

  lemma MoveKeepsCollected(v: Agent, m: Move, log: seq<Exchange>)
    requires Sound(v) && CanMove(v, m) && Collected(v, log)
    requires !m.LoseRecord? && !m.DropDelivery? && (m.CommitTurn? ==> v.rec.failed.None?)
    ensures Sound(Moved(v, m)) && Collected(Moved(v, m), LogMoved(log, m))
  {
    MoveKeepsSound(v, m);
    match m
    case CommitTurn(d, held) =>
      CommitIsDue(v.rec.turns, log, DeliveredExchange(d));
    case Replay(d, held) =>
      assert HeldExchange(held) == HeldExchange(v.held.value);
      if !Pending(v) {
        RecordedIsDue(v.rec.turns, log);
      }
    case PublishTurn(held) =>
      assert HeldExchange(held) == HeldExchange(v.held.value);
    case RecordOk => EndKeepsCollected(v, m, log);
    case FailBefore => EndKeepsCollected(v, m, log);
    case FailAfter => EndKeepsCollected(v, m, log);
    case _ =>
  }

  // ---- Runs ----------------------------------------------------------------------------

  predicate NeverDeleted(deleted: seq<Tombstone>, id: string) {
    forall i :: 0 <= i < |deleted| ==> deleted[i].id != id
  }

  lemma DeletionNeverNames(deleted: seq<Tombstone>, now: nat, other: string, id: string)
    requires other != id && NeverDeleted(deleted, id)
    ensures NeverDeleted(Buried(deleted, now, other), id)
  {
    var after := Buried(deleted, now, other);
    WithoutIdTombstones(deleted, other);
    forall i | 0 <= i < |after| ensures after[i].id != id {
      assert after[i] in WithoutId(deleted, other) + [Tombstone(other, now)];
      assert after[i] in deleted || after[i].id == other;
    }
  }

  lemma StepNeverDeletes(p: TS.Profile, s: Sys, a: Action, id: string)
    requires Enabled(s, a) && !(a.DeleteSession? && a.id == id) && NeverDeleted(s.rec.deleted, id)
    ensures NeverDeleted(After(p, s, a).rec.deleted, id)
  {
    if a.DeleteSession? {
      DeletionNeverNames(s.rec.deleted, s.now, a.id, id);
    } else if EndsTurn(a) {
      EndTouchesOwnSession(p, s, a);
    }
  }

  lemma DisciplinedMove(p: TS.Profile, s: Sys, a: Action, id: string, agent: string, log: seq<Exchange>)
    requires Enabled(s, a) && DisciplinedStep(s, a, id, agent) && NeverDeleted(s.rec.deleted, id)
    requires CanMove(AgentOf(s, id, agent), MoveOf(p, s, a, id, agent))
    ensures var m := MoveOf(p, s, a, id, agent);
            && !m.LoseRecord? && !m.DropDelivery?
            && (m.CommitTurn? ==> AgentOf(s, id, agent).rec.failed.None?)
            && LogMoved(log, m) == LogStep(s, a, id, agent, log)
  {
    assert !Tombstoned(s.rec.deleted, id, s.now);
    if a.EngineAnswers? && Owner(a) == Some((id, agent)) {
      assert MoveOf(p, s, a, id, agent).CommitTurn?;
    }
  }

  lemma {:induction false} RunKeepsCollected(p: TS.Profile, s: Sys, actions: seq<Action>, id: string, agent: string, log: seq<Exchange>)
    requires SysSound(s) && Run(p, s, actions).Some? && ValidId(id) && ValidId(agent)
    requires Disciplined(p, s, actions, id, agent) && NeverDeleted(s.rec.deleted, id)
    requires Sound(AgentOf(s, id, agent)) && Collected(AgentOf(s, id, agent), log)
    ensures Sound(AgentOf(Run(p, s, actions).value, id, agent))
    ensures Collected(AgentOf(Run(p, s, actions).value, id, agent), LogRun(p, s, actions, id, agent, log))
    decreases |actions|
  {
    if actions != [] {
      var a := actions[0];
      StepKeepsSound(p, s, a);
      StepMoves(p, s, a, id, agent);
      DisciplinedMove(p, s, a, id, agent, log);
      MoveKeepsCollected(AgentOf(s, id, agent), MoveOf(p, s, a, id, agent), log);
      StepNeverDeletes(p, s, a, id);
      RunKeepsCollected(p, After(p, s, a), actions[1..], id, agent, LogStep(s, a, id, agent, log));
    }
  }

  /** What a run leaves in the session's record for an agent is the conversations it committed. */
  lemma CollectedConversations(p: TS.Profile, actions: seq<Action>, id: string, agent: string)
    requires Run(p, START, actions).Some? && ValidId(id) && ValidId(agent) && Disciplined(p, START, actions, id, agent)
    requires !Pending(AgentOf(Run(p, START, actions).value, id, agent))
    ensures Recorded(AgentOf(Run(p, START, actions).value, id, agent).rec.turns, LogRun(p, START, actions, id, agent, []))
  {
    assert SysSound(START);
    assert Sound(AgentOf(START, id, agent));
    RunKeepsCollected(p, START, actions, id, agent, []);
  }

  /**
   After any disciplined run with an honest engine that leaves the agent with no unrecorded turn and its session
   collectable, converting the session's record as the caller allows succeeds and yields one stream per committed
   conversation, whose tokens are that conversation's last engine prompt followed by its sampled completion.
   */
  lemma TrainingStreamsAreCommittedConversations(e: Engine, p: TS.Profile, actions: seq<Action>, id: string, agent: string,
                                                 roles: map<AgentId, string>, allowSegments: bool, requireRouted: bool, k: nat)
    returns (i: nat)
    requires Uniform(e) && Prompts(p) && Run(p, START, actions).Some? && HonestRun(e, p, START, actions)
    requires ValidId(id) && ValidId(agent) && Disciplined(p, START, actions, id, agent)
    requires !AgentOf(Run(p, START, actions).value, id, agent).flight.Unrecorded?
    requires DumpOf(Run(p, START, actions).value.rec, id).Served?
    requires var session := Run(p, START, actions).value.rec.sessions[id];
             CallerAllows(session.turns, ByAgent(session.routed), roles, allowSegments, requireRouted)
    requires k < |LogRun(p, START, actions, id, agent, [])|
    ensures var session := Run(p, START, actions).value.rec.sessions[id];
            var converted := TrainingRecords.Convert(id, session.turns, ByAgent(session.routed), roles, allowSegments, requireRouted);
            var committed := LogRun(p, START, actions, id, agent, []);
            && converted.Ok?
            && |Conversion.Conversations(session.turns, Some(agent))| == |committed|
            && i < |converted.value| && converted.value[i].agent == Some(agent) && converted.value[i].segment == k
            && converted.value[i].tokens == committed[k].prompt + committed[k].completion
            && TrainingChecks.CutsTo(converted.value[i], Conversion.Conversations(session.turns, Some(agent))[k])
  {
    CollectedRecordConverts(e, p, actions, id, roles, allowSegments, requireRouted);
    CollectedConversations(p, actions, id, agent);
    var session := Run(p, START, actions).value.rec.sessions[id];
    i := Conversion.ConversionIsExact(id, session.turns, ByAgent(session.routed), roles, allowSegments, requireRouted, Some(agent), k);
  }
}
