/**
 When routed-experts captures are complete (proxyserver/recorder.py, _merge_routed_experts): an engine's answer that
 covers the rows the stored capture lacks is always stored, and the capture then holds every row there is.
 */
module Coverage {
  import opened Wrappers
  import opened Messages
  import opened Capture
  import opened Recorder
  import opened Lossless
  import opened Recording
  import opened Routing
  import TS = TokenStream

  // ---- One delivery ------------------------------------------------------------

  /** Every row an engine can report for a stream, which is one less than its tokens. */
  function WholeCapture(e: Engine, stream: seq<Token>): Blob
    requires stream != []
  {
    Blob(Some(Rows(e, stream, 0, |stream| - 1)), |stream| - 1, e.cols, 0)
  }

  /** The delivered turn starts a conversation: it carries no assistant message, or nothing is recorded yet. */
  predicate Opens(a: AgentState, d: Delivery) {
    a.turns == [] || !HasAssistant(d.messages)
  }

  /** The answer covers the whole stream, or exactly the rows behind those stored for the conversation it continues. */
  predicate Fills(e: Engine, a: AgentState, d: Delivery) {
    && d.routed.Some? && d.routed.value.Some?
    && var b := d.routed.value.value;
    && HonestAnswer(e, b, d.prompt + d.completion)
    && (b.start == 0 || (!Opens(a, d) && a.capture.Some? && b.start == a.capture.value.rows))
  }

  lemma DeltaCompletes(e: Engine, stored: Blob, b: Blob, stream: seq<Token>)
    requires Faithful(e, stored, stream) && HonestAnswer(e, b, stream) && b.start == stored.rows != 0
    ensures Merge(Some(stored), Some(b)) == Some(WholeCapture(e, stream))
  {
    RowsJoin(e, stream, 0, b.start, b.start + b.rows);
  }

  lemma FullRangeCompletes(e: Engine, stored: Option<Blob>, b: Blob, stream: seq<Token>)
    requires stored.Some? ==> Faithful(e, stored.value, stream)
    requires HonestAnswer(e, b, stream) && b.start == 0
    ensures Merge(stored, Some(b)) == Some(WholeCapture(e, stream))
  {
  }

  lemma DeliveryOpens(a: AgentState, d: Delivery)
    requires Comparable(a.turns) && Normalize(d.messages).Some? && Fits(a.turns, DeliveredExchange(d))
    requires RecordAgent(a, d).1 == Recorded
    ensures Judge(a.turns, d).Store? && Judge(a.turns, d).newConversation == Opens(a, d)
    ensures RecordAgent(a, d).0.capture == CaptureAfter(a.capture, d, Opens(a, d))
  {
    var x := DeliveredExchange(d);
    NormalizeKeepsConversation(d.messages);
    RecordAgentShape(a, d);
    if StartsAfresh(a.turns, x) {
      JudgeOpening(a.turns, d, x);
    } else {
      JudgeContinuation(a.turns, d, x);
    }
  }

  predicate FaithfulRecord(e: Engine, a: AgentState) {
    a.capture.Some? ==> a.turns != [] && Faithful(e, a.capture.value, Rebuilt(a.turns))
  }

  lemma StoredIsFaithfulOnStream(e: Engine, a: AgentState, d: Delivery)
    requires Comparable(a.turns) && Normalize(d.messages).Some? && Fits(a.turns, DeliveredExchange(d))
    requires RecordAgent(a, d).1 == Recorded && FaithfulRecord(e, a) && !Opens(a, d) && a.capture.Some?
    ensures Faithful(e, a.capture.value, d.prompt + d.completion)
  {
    var x := DeliveredExchange(d);
    NormalizeKeepsConversation(d.messages);
    JudgeContinuation(a.turns, d, x);
    RecordAgentShape(a, d);
    ContinuationExtends(a.turns, x);
    FaithfulOnExtension(e, a.capture.value, Rebuilt(a.turns), d.prompt + d.completion);
  }

  /**
   An answer that covers what the stored capture lacks is stored: after the delivery the agent's capture holds exactly
   one row less than the delivered turn has tokens, from row 0, each the engine's own.
   */
  lemma FilledCaptureIsWhole(e: Engine, a: AgentState, d: Delivery)
    requires Comparable(a.turns) && Normalize(d.messages).Some? && d.agent.Some? && Fits(a.turns, DeliveredExchange(d))
    requires RecordAgent(a, d).1 == Recorded && FaithfulRecord(e, a) && Fills(e, a, d)
    ensures RecordAgent(a, d).0.capture == Some(WholeCapture(e, d.prompt + d.completion))
    ensures RecordAgent(a, d).0.capture.value.rows == |d.prompt| + |d.completion| - 1
  {
    var b := d.routed.value.value;
    var stream := d.prompt + d.completion;
    DeliveryOpens(a, d);
    if !Opens(a, d) && a.capture.Some? {
      StoredIsFaithfulOnStream(e, a, d);
    }
    if b.start == 0 {
      FullRangeCompletes(e, if Opens(a, d) then None else a.capture, b, stream);
    } else {
      DeltaCompletes(e, a.capture.value, b, stream);
    }
  }

  /** The rows behind those stored and the full range leave the same capture. */
  lemma DeltaAndFullRangeStoreAlike(e: Engine, a: AgentState, d: Delivery, routed: Option<WireBlob>)
    requires Comparable(a.turns) && Normalize(d.messages).Some? && d.agent.Some? && Fits(a.turns, DeliveredExchange(d))
    requires RecordAgent(a, d).1 == Recorded && FaithfulRecord(e, a)
    requires Fills(e, a, d) && Fills(e, a, d.(routed := routed))
    ensures RecordAgent(a, d).0 == RecordAgent(a, d.(routed := routed)).0
  {
    var d' := d.(routed := routed);
    assert DeliveredExchange(d') == DeliveredExchange(d);
    assert Judge(a.turns, d') == Judge(a.turns, d);
    FilledCaptureIsWhole(e, a, d);
    FilledCaptureIsWhole(e, a, d');
  }

  // ---- Runs ------------------------------------------------------------------------

  /** Whether every turn of the agent's current conversation was stored with an answer that fills its capture. */
  predicate FilledAfter(e: Engine, v: Agent, m: Move, filled: bool)
    requires CanMove(v, m)
  {
    match m
    case LoseRecord => true
    case RecordOk => FilledStored(e, v.rec, v.flight.delivery, filled)
    case FailAfter => FilledStored(e, v.rec, v.flight.delivery, filled)
    case _ => filled
  }

  predicate FilledStored(e: Engine, a: AgentState, d: Delivery, filled: bool) {
    if RecordAgent(a, d).1 == Recorded then Fills(e, a, d) && (filled || Opens(a, d)) else filled
  }

  ghost predicate FilledRun(e: Engine, p: TS.Profile, s: Sys, actions: seq<Action>, id: string, agent: string, filled: bool)
    decreases |actions|
  {
    if actions == [] then filled
    else
      && Enabled(s, actions[0])
      && var m := MoveOf(p, s, actions[0], id, agent);
      && CanMove(AgentOf(s, id, agent), m)
      && FilledRun(e, p, After(p, s, actions[0]), actions[1..], id, agent, FilledAfter(e, AgentOf(s, id, agent), m, filled))
  }

  /** Unless a pending failure was passed, the agent's capture holds every row of its conversation. */
  predicate Whole(e: Engine, a: AgentState) {
    AtMarkedPosition(a) && a.turns != [] ==> Rebuilt(a.turns) != [] && a.capture == Some(WholeCapture(e, Rebuilt(a.turns)))
  }

  lemma StoredIsWhole(e: Engine, a: AgentState, d: Delivery, filled: bool)
    requires Comparable(a.turns) && Normalize(d.messages).Some? && d.agent.Some? && d.completion != []
    requires Fits(a.turns, DeliveredExchange(d)) && FaithfulRecord(e, a) && AtMarkedPosition(a)
    requires (filled ==> Whole(e, a)) && FilledStored(e, a, d, filled)
    ensures var b := RecordAgent(a, d).0;
            b.turns != [] && Rebuilt(b.turns) != [] && b.capture == Some(WholeCapture(e, Rebuilt(b.turns)))
  {
    RecordAgentShape(a, d);
    RecordKeepsStep(a, d, DeliveredExchange(d));
    if RecordAgent(a, d).1 == Recorded {
      FilledCaptureIsWhole(e, a, d);
    }
  }

  lemma RecordKeepsWhole(e: Engine, v: Agent, filled: bool)
    requires Sound(v) && CaptureSound(e, v) && v.flight.Unrecorded? && v.flight.delivery.completion != []
    requires filled ==> Whole(e, v.rec)
    requires FilledStored(e, v.rec, v.flight.delivery, filled)
    ensures Whole(e, AfterRecord(v).rec)
    ensures Whole(e, MarkAgent(AfterRecord(v).rec, v.flight.delivery))
  {
    var d := v.flight.delivery;
    if v.rec.failed.None? || Repairs(v.rec, d) {
      if v.rec.failed.Some? {
        RepairedExchange(v.rec, d);
      }
      StoredIsWhole(e, v.rec, d, filled);
    } else {
      OtherDeliveryKeepsRepairable(v.rec, d);
      RecordAgentShape(v.rec, d);
      var b := RecordAgent(v.rec, d).0;
      if b.turns != v.rec.turns {
        assert |b.turns| == |v.rec.turns| + 1;
      }
    }
  }

  /** Turns in flight and held ones have sampled tokens. */
  predicate Sampled(v: Agent) {
    v.flight.Unrecorded? ==> v.flight.delivery.completion != []
  }

  lemma MoveKeepsSampled(v: Agent, m: Move)
    requires Sound(v) && CanMove(v, m) && Sampled(v)
    ensures Sampled(Moved(v, m))
  {
    if m.Replay? {
      HeldStream(v.held.value);
    }
  }

  lemma MoveKeepsWhole(e: Engine, v: Agent, m: Move, filled: bool)
    requires Sound(v) && CaptureSound(e, v) && Sampled(v) && CanMove(v, m)
    requires (filled ==> Whole(e, v.rec)) && FilledAfter(e, v, m, filled)
    ensures Whole(e, Moved(v, m).rec)
  {
    match m
    case RecordOk => RecordKeepsWhole(e, v, filled);
    case FailAfter => RecordKeepsWhole(e, v, filled);
    case _ =>
  }

  lemma {:induction false} RunFills(e: Engine, p: TS.Profile, s: Sys, actions: seq<Action>, id: string, agent: string, filled: bool)
    requires SysSound(s) && CapturesSound(e, s) && ValidId(id) && ValidId(agent)
    requires Run(p, s, actions).Some? && HonestRun(e, p, s, actions)
    requires Sampled(AgentOf(s, id, agent)) && (filled ==> Whole(e, AgentOf(s, id, agent).rec))
    requires FilledRun(e, p, s, actions, id, agent, filled)
    ensures Whole(e, AgentOf(Run(p, s, actions).value, id, agent).rec)
    decreases |actions|
  {
    if actions != [] {
      var a := actions[0];
      var v := AgentOf(s, id, agent);
      var m := MoveOf(p, s, a, id, agent);
      var next := FilledAfter(e, v, m, filled);
      assert Sound(v) && CaptureSound(e, v);
      StepKeepsSound(p, s, a);
      StepMoves(p, s, a, id, agent);
      MoveKeepsSampled(v, m);
      if next {
        MoveKeepsWhole(e, v, m, filled);
      }
      RunKeepsCaptures(e, p, s, [a]);
      assert [a][1..] == [];
      RunFills(e, p, After(p, s, a), actions[1..], id, agent, next);
    }
  }

  /**
   After any run with an honest engine, when no failure is pending and every turn of the agent's current conversation
   was stored with an answer that covers what the capture lacked, the stored capture holds all rows there are: one less
   than the conversation has tokens, row k the engine's selection for token k.
   */
  lemma FilledConversationIsWhole(e: Engine, p: TS.Profile, actions: seq<Action>, id: string, agent: string)
    requires Uniform(e) && Run(p, START, actions).Some? && HonestRun(e, p, START, actions) && ValidId(id) && ValidId(agent)
    requires FilledRun(e, p, START, actions, id, agent, true)
    ensures var a := AgentOf(Run(p, START, actions).value, id, agent).rec;
            a.failed.None? && a.turns != [] ==>
              && a.capture.Some? && a.capture.value.rows == |Rebuilt(a.turns)| - 1
              && IsSelectionOf(e, a.capture.value, Rebuilt(a.turns))
  {
    assert SysSound(START);
    RunFills(e, p, START, actions, id, agent, true);
    CaptureIsTheEnginesSelection(e, p, actions, id, agent);
  }

  // ---- Engines that answer what they are asked -----------------------------------------

  /** The answer to this turn covers the whole stream, or the rows behind those stored when it was asked. */
  predicate Answers(e: Engine, a: AgentState, x: Exchange, routed: Option<WireBlob>) {
    && routed.Some? && routed.value.Some?
    && var b := routed.value.value;
    && HonestAnswer(e, b, StreamOf(x))
    && (b.start == 0 || (a.turns != [] && HasAssistant(x.messages) && a.capture.Some? && b.start == a.capture.value.rows))
  }

  predicate AnsweredStep(e: Engine, s: Sys, a: Action, id: string, agent: string) {
    && !(a.DeleteSession? && a.id == id)
    && (a.EngineAnswers? && a.id == id && a.agent == agent && FlightOf(s, id, agent).Generating?
        && Normalize(FlightOf(s, id, agent).messages).Some? ==>
          Answers(e, View(s.rec, id, Some(agent)),
                  Exchange(Normalize(FlightOf(s, id, agent).messages).value, FlightOf(s, id, agent).prompt, a.completion),
                  a.reply.routed))
  }

  /** Every turn the agent commits is answered that way, and its session is not deleted. */
  predicate AnsweredRun(e: Engine, p: TS.Profile, s: Sys, actions: seq<Action>, id: string, agent: string)
    decreases |actions|
  {
    actions != [] && Enabled(s, actions[0]) ==>
      AnsweredStep(e, s, actions[0], id, agent) && AnsweredRun(e, p, After(p, s, actions[0]), actions[1..], id, agent)
  }

  predicate Covers(e: Engine, a: AgentState, x: Exchange, routed: Option<WireBlob>) {
    !InStep(a.turns, x) ==> Answers(e, a, x, routed)
  }

  /** The turn in flight and the held turn, unless recorded, were answered with what the capture lacks. */
  predicate Covering(e: Engine, v: Agent)
    requires Sound(v)
  {
    AtMarkedPosition(v.rec) ==>
      && Whole(e, v.rec)
      && (v.flight.Unrecorded? ==> Covers(e, v.rec, DeliveredExchange(v.flight.delivery), v.flight.delivery.routed))
      && (v.held.Some? ==> Covers(e, v.rec, HeldExchange(v.held.value), v.held.value.lastTurn.value.reply.routed))
  }

  lemma CoveredIsFilled(e: Engine, a: AgentState, d: Delivery)
    requires Comparable(a.turns) && Normalize(d.messages).Some? && Fits(a.turns, DeliveredExchange(d))
    requires Covers(e, a, DeliveredExchange(d), d.routed) && RecordAgent(a, d).1 == Recorded
    ensures Fills(e, a, d)
  {
    var x := DeliveredExchange(d);
    NormalizeKeepsConversation(d.messages);
    if InStep(a.turns, x) {
      if StartsAfresh(a.turns, x) {
        JudgeOpening(a.turns, d, x);
      } else {
        JudgeContinuation(a.turns, d, x);
      }
      assert false;
    }
  }

  lemma RecordedIsWhole(e: Engine, a: AgentState, d: Delivery)
    requires Comparable(a.turns) && Normalize(d.messages).Some? && d.agent.Some? && d.completion != []
    requires Fits(a.turns, DeliveredExchange(d)) && FaithfulRecord(e, a) && AtMarkedPosition(a) && Whole(e, a)
    requires Covers(e, a, DeliveredExchange(d), d.routed)
    ensures Whole(e, RecordAgent(a, d).0) && InStep(RecordAgent(a, d).0.turns, DeliveredExchange(d))
    ensures Whole(e, MarkAgent(RecordAgent(a, d).0, d))
  {
    RecordKeepsStep(a, d, DeliveredExchange(d));
    if RecordAgent(a, d).1 == Recorded {
      CoveredIsFilled(e, a, d);
    }
    StoredIsWhole(e, a, d, true);
  }

  /** A delivery while another turn's failure is pending adds a turn behind the marker, or nothing. */
  lemma PassingDelivery(a: AgentState, d: Delivery)
    requires Comparable(a.turns) && Normalize(d.messages).Some?
    requires a.failed.Some? && Repairable(a) && !Repairs(a, d)
    ensures var b := RecordAgent(a, d).0; b.failed == a.failed && MarkAgent(b, d) == b && (AtMarkedPosition(b) ==> b == a)
  {
    OtherDeliveryKeepsRepairable(a, d);
    RecordAgentShape(a, d);
    var b := RecordAgent(a, d).0;
    if b.turns != a.turns {
      assert |b.turns| == |a.turns| + 1;
    }
  }

  lemma RecordKeepsCovering(e: Engine, v: Agent)
    requires Sound(v) && CaptureSound(e, v) && Sampled(v) && v.flight.Unrecorded? && Covering(e, v)
    ensures Sound(AfterRecord(v)) && Covering(e, AfterRecord(v))
    ensures Sound(AfterFailAfter(v)) && Covering(e, AfterFailAfter(v))
  {
    RecordKeepsSound(v);
    FailAfterKeepsSound(v);
    var d := v.flight.delivery;
    if v.rec.failed.None? || Repairs(v.rec, d) {
      if v.rec.failed.Some? {
        RepairedExchange(v.rec, d);
      }
      RecordedIsWhole(e, v.rec, d);
    } else {
      PassingDelivery(v.rec, d);
    }
  }

  lemma MoveKeepsCovering(e: Engine, v: Agent, m: Move)
    requires Sound(v) && CaptureSound(e, v) && Sampled(v) && CanMove(v, m) && Covering(e, v)
    requires !m.LoseRecord? && (m.CommitTurn? ==> Answers(e, v.rec, DeliveredExchange(m.delivery), m.delivery.routed))
    ensures Sound(Moved(v, m)) && Covering(e, Moved(v, m))
  {
    MoveKeepsSound(v, m);
    match m
    case Replay(d, held) =>
      assert HeldExchange(held) == HeldExchange(v.held.value);
    case PublishTurn(held) =>
      assert HeldExchange(held) == HeldExchange(v.held.value);
    case RecordOk => RecordKeepsCovering(e, v);
    case FailAfter => RecordKeepsCovering(e, v);
    case _ =>
  }

  lemma AnsweredMove(e: Engine, p: TS.Profile, s: Sys, a: Action, id: string, agent: string)
    requires Enabled(s, a) && AnsweredStep(e, s, a, id, agent)
    requires CanMove(AgentOf(s, id, agent), MoveOf(p, s, a, id, agent))
    ensures var m := MoveOf(p, s, a, id, agent);
            !m.LoseRecord?
            && (m.CommitTurn? ==> Answers(e, AgentOf(s, id, agent).rec, DeliveredExchange(m.delivery), m.delivery.routed))
  {
  }

  lemma {:induction false} RunKeepsCovering(e: Engine, p: TS.Profile, s: Sys, actions: seq<Action>, id: string, agent: string)
    requires SysSound(s) && CapturesSound(e, s) && ValidId(id) && ValidId(agent)
    requires Run(p, s, actions).Some? && HonestRun(e, p, s, actions) && AnsweredRun(e, p, s, actions, id, agent)
    requires Sound(AgentOf(s, id, agent)) && Sampled(AgentOf(s, id, agent)) && Covering(e, AgentOf(s, id, agent))
    ensures Sound(AgentOf(Run(p, s, actions).value, id, agent)) && Covering(e, AgentOf(Run(p, s, actions).value, id, agent))
    decreases |actions|
  {
    if actions != [] {
      var a := actions[0];
      var v := AgentOf(s, id, agent);
      var m := MoveOf(p, s, a, id, agent);
      assert CaptureSound(e, v);
      StepKeepsSound(p, s, a);
      StepMoves(p, s, a, id, agent);
      AnsweredMove(e, p, s, a, id, agent);
      MoveKeepsSampled(v, m);
      MoveKeepsCovering(e, v, m);
      RunKeepsCaptures(e, p, s, [a]);
      assert [a][1..] == [];
      RunKeepsCovering(e, p, After(p, s, a), actions[1..], id, agent);
    }
  }

  /**
   When the engine answers every turn of an agent with the whole range, or with the rows behind those stored when the
   turn was committed, and the session is not deleted, the stored capture holds every row of the agent's conversation
   whenever no failure is pending, whatever is lost, retried, replayed or evicted on the way.
   */
  lemma AnsweredConversationIsWhole(e: Engine, p: TS.Profile, actions: seq<Action>, id: string, agent: string)
    requires Uniform(e) && Run(p, START, actions).Some? && HonestRun(e, p, START, actions) && ValidId(id) && ValidId(agent)
    requires AnsweredRun(e, p, START, actions, id, agent)
    ensures var a := AgentOf(Run(p, START, actions).value, id, agent).rec;
            a.failed.None? && a.turns != [] ==>
              && a.capture.Some? && a.capture.value.rows == |Rebuilt(a.turns)| - 1
              && IsSelectionOf(e, a.capture.value, Rebuilt(a.turns))
  {
    assert SysSound(START);
    assert Sound(AgentOf(START, id, agent));
    RunKeepsCovering(e, p, START, actions, id, agent);
    CaptureIsTheEnginesSelection(e, p, actions, id, agent);
  }
}
