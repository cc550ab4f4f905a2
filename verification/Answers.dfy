/**
 What the engine answered, all the way to the training streams: each committed conversation's stream carries at its
 sampled positions exactly the logprobs the engine answered with, and its spans the answered weight versions, sampling
 parameters and finish reasons (proxyserver/service.py, proxyserver/recorder.py, proxyserver/training.py).
 */
module Answers {
  import opened Wrappers
  import opened Messages
  import opened Recorder
  import opened Lossless
  import opened Recording
  import opened Routing
  import opened RunRecords
  import Collection
  import Training
  import TrainingChecks
  import TrainingRecords
  import Conversion
  import TS = TokenStream

  // ---- What an agent was answered ---------------------------------------------

  /** One committed turn with the engine's reply and its parsed view. */
  datatype Answer = Answer(exchange: Exchange, reply: TS.Reply, parsed: Parsed)

  type Log = seq<seq<Answer>>

  predicate Full(log: Log) {
    forall k :: 0 <= k < |log| ==> log[k] != []
  }

  function LastAnswer(log: Log): Answer
    requires log != [] && Full(log)
  {
    var last := log[|log| - 1];
    last[|last| - 1]
  }

  /** One more answer: an opening starts a conversation unless it repeats the latest turn, a continuation adds to it. */
  function LogAfter(log: Log, x: Answer): (r: Log)
    requires Full(log)
    ensures Full(r) && r != []
  {
    if log == [] then [[x]]
    else if HasAssistant(x.exchange.messages) then log[..|log| - 1] + [log[|log| - 1] + [x]]
    else if LastAnswer(log).exchange == x.exchange then log
    else log + [[x]]
  }

  function LogStep(s: Sys, a: Action, id: string, agent: string, log: Log): (r: Log)
    requires Enabled(s, a) && Full(log)
    ensures Full(r)
  {
    if a.EngineAnswers? && a.id == id && a.agent == agent && Normalize(FlightOf(s, id, agent).messages).Some? then
      LogAfter(log, Answer(Exchange(Normalize(FlightOf(s, id, agent).messages).value, FlightOf(s, id, agent).prompt, a.completion),
                           a.reply, a.parsed))
    else log
  }

  /** All the answers an agent commits during a run, conversation by conversation. */
  function LogRun(p: TS.Profile, s: Sys, actions: seq<Action>, id: string, agent: string, log: Log): (r: Log)
    requires Full(log)
    ensures Full(r)
    decreases |actions|
  {
    if actions == [] || !Enabled(s, actions[0]) then log
    else LogRun(p, After(p, s, actions[0]), actions[1..], id, agent, LogStep(s, actions[0], id, agent, log))
  }

  /** How a completion is parsed: the same tokens and reply give the same view whenever they are parsed. */
  type Parser = (seq<Token>, TS.Reply) -> Parsed

  /** Sampled turns and replayed ones of an agent are parsed alike. */
  predicate ParsedStep(parse: Parser, p: TS.Profile, s: Sys, a: Action, id: string, agent: string) {
    && (a.EngineAnswers? && a.id == id && a.agent == agent ==> a.parsed == parse(a.completion, a.reply))
    && (a.Ask? && a.id == id && a.agent == agent ==>
          var cached := TS.CachedTurn(p, s.mgr, StreamId(id, agent), a.messages, a.effort).1;
          cached.Hit? ==> a.parsed == parse(cached.completion, cached.reply))
  }

  predicate ParsedRun(parse: Parser, p: TS.Profile, s: Sys, actions: seq<Action>, id: string, agent: string)
    decreases |actions|
  {
    actions != [] && Enabled(s, actions[0]) ==>
      ParsedStep(parse, p, s, actions[0], id, agent) && ParsedRun(parse, p, After(p, s, actions[0]), actions[1..], id, agent)
  }

  // ---- Records that carry the answers ---------------------------------------------

  function MetaOf(x: Answer): Meta {
    Meta(x.parsed.text, Some(x.parsed.finishReason), x.reply.weightVersion, x.reply.sampling)
  }

  predicate Carries(t: Turn, x: Answer) {
    t.completion == x.exchange.completion && t.logprobs == x.reply.logprobs && t.meta == MetaOf(x)
  }

  /** The conversation's turns before the j-th, and its own prompt, are the prompt the engine was sent. */
  predicate CarriesAt(segment: seq<Turn>, answers: seq<Answer>, j: nat)
    requires j < |segment| && j < |answers|
  {
    Carries(segment[j], answers[j]) && Training.TokensOf(segment[..j]) + segment[j].prompt == answers[j].exchange.prompt
  }

  predicate CarriesAll(segment: seq<Turn>, answers: seq<Answer>) {
    |segment| == |answers| && forall j :: 0 <= j < |segment| ==> CarriesAt(segment, answers, j)
  }

  predicate SegmentsCarry(segments: seq<seq<Turn>>, log: Log) {
    |segments| == |log| && forall k :: 0 <= k < |log| ==> CarriesAll(segments[k], log[k])
  }

  predicate RecordedAnswers(turns: seq<Turn>, log: Log) {
    SegmentsCarry(Training.Segments(turns), log)
  }

  /** The log without its latest answer. */
  function Before(log: Log): Log
    requires log != [] && Full(log)
  {
    var last := log[|log| - 1];
    if |last| == 1 then log[..|log| - 1] else log[..|log| - 1] + [last[..|last| - 1]]
  }

  /** The latest answer is recorded, or is the one the record is waiting for, in the conversation it belongs to. */
  predicate DueAnswers(turns: seq<Turn>, log: Log)
    requires log != [] && Full(log)
  {
    var x := LastAnswer(log);
    if InStep(turns, x.exchange) then RecordedAnswers(turns, log)
    else RecordedAnswers(turns, Before(log)) && (StartsAfresh(turns, x.exchange) <==> |log[|log| - 1]| == 1)
  }

  predicate DeliversAnswer(d: Delivery, x: Answer) {
    Delivers(d, x.exchange) && d.logprobs == x.reply.logprobs && d.meta == MetaOf(x)
  }

  /** While the latest answer is not recorded, whatever may deliver it carries exactly that answer. */
  predicate Waiting(parse: Parser, v: Agent, x: Answer)
    requires v.held.Some? ==> v.held.value.lastTurn.Some?
  {
    && x.parsed == parse(x.exchange.completion, x.reply)
    && (v.flight.Unrecorded? ==> DeliversAnswer(v.flight.delivery, x))
    && (v.held.Some? ==> v.held.value.lastTurn.value.reply == x.reply && HeldExchange(v.held.value) == x.exchange)
  }

  /** The latest turn of each conversation. */
  function Latest(log: Log): (r: seq<Exchange>)
    requires Full(log)
    ensures |r| == |log| && forall k :: 0 <= k < |r| ==> r[k] == log[k][|log[k]| - 1].exchange
  {
    seq(|log|, k requires 0 <= k < |log| => log[k][|log[k]| - 1].exchange)
  }

  /** Record and log agree turn by turn, and what is not recorded yet can only be delivered as it was answered. */
  predicate Kept(parse: Parser, v: Agent, log: Log)
    requires Sound(v) && Full(log)
  {
    && Collection.Collected(v, Latest(log))
    && (log != [] ==>
          && DueAnswers(v.rec.turns, log)
          && (!InStep(v.rec.turns, LastAnswer(log).exchange) ==> Waiting(parse, v, LastAnswer(log))))
  }

  // ---- One answer recorded ------------------------------------------------------------

  lemma BeforeIs(log: Log, x: Answer)
    requires Full(log) && !(log != [] && !HasAssistant(x.exchange.messages) && LastAnswer(log).exchange == x.exchange)
    ensures LastAnswer(LogAfter(log, x)) == x && Before(LogAfter(log, x)) == log
  {
    var after := LogAfter(log, x);
    if log != [] && HasAssistant(x.exchange.messages) {
      var last := log[|log| - 1];
      assert (last + [x])[..|last|] == last;
      assert log[..|log| - 1] + [last] == log;
    }
  }

  lemma OneCarries(t: Turn, x: Answer)
    requires Carries(t, x) && t.prompt == x.exchange.prompt
    ensures CarriesAll([t], [x])
  {
    assert [t][..0] == [];
    assert [] + t.prompt == t.prompt;
    assert CarriesAt([t], [x], 0);
  }

  lemma MoreCarries(segment: seq<Turn>, answers: seq<Answer>, t: Turn, x: Answer)
    requires CarriesAll(segment, answers) && Carries(t, x) && Training.TokensOf(segment) + t.prompt == x.exchange.prompt
    ensures CarriesAll(segment + [t], answers + [x])
  {
    var turns, all := segment + [t], answers + [x];
    forall j | 0 <= j < |turns| ensures CarriesAt(turns, all, j) {
      if j < |segment| {
        assert CarriesAt(segment, answers, j);
        assert turns[..j] == segment[..j];
      } else {
        assert turns[..j] == segment;
      }
    }
  }

  lemma LastCarries(segments: seq<seq<Turn>>, log: Log, segment: seq<Turn>, answers: seq<Answer>)
    requires SegmentsCarry(segments, log) && CarriesAll(segment, answers)
    ensures SegmentsCarry(segments + [segment], log + [answers])
  {
  }

  lemma FrontCarries(segments: seq<seq<Turn>>, log: Log)
    requires SegmentsCarry(segments, log) && log != []
    ensures SegmentsCarry(segments[..|segments| - 1], log[..|log| - 1])
    ensures CarriesAll(segments[|segments| - 1], log[|log| - 1])
  {
  }

  lemma AnswerOpens(turns: seq<Turn>, t: Turn, log: Log, x: Answer)
    requires RecordedAnswers(turns, log) && (t.newConversation || turns == []) && Carries(t, x) && t.prompt == x.exchange.prompt
    ensures RecordedAnswers(turns + [t], log + [[x]])
  {
    Training.SegmentsAppend(turns, t);
    OneCarries(t, x);
    LastCarries(Training.Segments(turns), log, [t], [x]);
  }

  lemma AnswerContinues(turns: seq<Turn>, t: Turn, log: Log, x: Answer)
    requires RecordedAnswers(turns, log) && log != [] && turns != [] && !t.newConversation && Carries(t, x)
    requires Rebuilt(turns) + t.prompt == x.exchange.prompt
    ensures RecordedAnswers(turns + [t], log[..|log| - 1] + [log[|log| - 1] + [x]])
  {
    var segments := Training.Segments(turns);
    var last := segments[|segments| - 1];
    Training.SegmentsAppend(turns, t);
    Conversion.LastConversationIsRebuilt(turns);
    FrontCarries(segments, log);
    MoreCarries(last, log[|log| - 1], t, x);
    LastCarries(segments[..|segments| - 1], log[..|log| - 1], last + [t], log[|log| - 1] + [x]);
  }

  lemma LogParts(log: Log)
    requires log != [] && Full(log)
    ensures |log[|log| - 1]| == 1 ==> log == Before(log) + [[LastAnswer(log)]]
    ensures |log[|log| - 1]| > 1 ==>
              Before(log) != [] && log == Before(log)[..|Before(log)| - 1] + [Before(log)[|Before(log)| - 1] + [LastAnswer(log)]]
  {
    var last := log[|log| - 1];
    assert last == last[..|last| - 1] + [last[|last| - 1]];
    assert log == log[..|log| - 1] + [last];
  }

  lemma StoredCarries(a: AgentState, d: Delivery, x: Answer)
    requires DeliversAnswer(d, x) && Judge(a.turns, d).Store?
    ensures Carries(StoredTurn(d, Judge(a.turns, d)), x)
  {
  }

  lemma DeliveryIsStored(a: AgentState, d: Delivery, log: Log)
    requires log != [] && Full(log) && Comparable(a.turns) && DueAnswers(a.turns, log) && Fits(a.turns, LastAnswer(log).exchange)
    requires DeliversAnswer(d, LastAnswer(log)) && !InStep(a.turns, LastAnswer(log).exchange)
    ensures RecordedAnswers(RecordAgent(a, d).0.turns, log) && InStep(RecordAgent(a, d).0.turns, LastAnswer(log).exchange)
  {
    var x := LastAnswer(log);
    RecordKeepsStep(a, d, x.exchange);
    LogParts(log);
    if StartsAfresh(a.turns, x.exchange) {
      JudgeOpening(a.turns, d, x.exchange);
      StoredCarries(a, d, x);
      AnswerOpens(a.turns, StoredTurn(d, Judge(a.turns, d)), Before(log), x);
    } else {
      JudgeContinuation(a.turns, d, x.exchange);
      StoredCarries(a, d, x);
      PrefixAndRest(d.prompt, Rebuilt(a.turns));
      AnswerContinues(a.turns, StoredTurn(d, Judge(a.turns, d)), Before(log), x);
    }
  }

  lemma RepeatIsSkipped(a: AgentState, d: Delivery, x: Exchange)
    requires Comparable(a.turns) && Delivers(d, x) && InStep(a.turns, x)
    ensures RecordAgent(a, d).0.turns == a.turns
  {
    NormalizeKeepsConversation(d.messages);
    if StartsAfresh(a.turns, x) {
      JudgeOpening(a.turns, d, x);
    } else {
      JudgeContinuation(a.turns, d, x);
    }
  }

  // ---- Every step ------------------------------------------------------------------------

  lemma LatestAfter(log: Log, x: Answer)
    requires Full(log)
    ensures Latest(LogAfter(log, x)) == Collection.LogAfter(Latest(log), x.exchange)
  {
  }

  lemma NothingRecorded(turns: seq<Turn>, log: Log)
    requires log == [] && Collection.Recorded(turns, Latest(log))
    ensures turns == [] && RecordedAnswers(turns, log)
  {
    Collection.RecordedEmpty(turns, Latest(log));
  }

  lemma SettledIsRecorded(v: Agent, log: Log)
    requires Sound(v) && Full(log) && log != [] && Collection.Collected(v, Latest(log)) && !Collection.Pending(v)
    requires DueAnswers(v.rec.turns, log)
    ensures InStep(v.rec.turns, LastAnswer(log).exchange) && RecordedAnswers(v.rec.turns, log)
    ensures Collection.Recorded(v.rec.turns, Latest(log)) && Collection.Last(Latest(log)) == LastAnswer(log).exchange
  {
  }

  /** A newly committed turn is what the record waits for, unless it repeats the latest opening. */
  lemma CommitIsDue(turns: seq<Turn>, log: Log, x: Answer)
    requires Full(log) && Collection.Recorded(turns, Latest(log)) && RecordedAnswers(turns, log)
    requires log != [] ==> InStep(turns, LastAnswer(log).exchange)
    requires Follows(turns, x.exchange.messages, x.exchange.prompt)
    ensures DueAnswers(turns, LogAfter(log, x))
    ensures InStep(turns, LastAnswer(LogAfter(log, x)).exchange) || LastAnswer(LogAfter(log, x)) == x
  {
    var e := x.exchange;
    if log == [] {
      NothingRecorded(turns, log);
      BeforeIs(log, x);
    } else if HasAssistant(e.messages) {
      BeforeIs(log, x);
      NewTurnIsAhead(turns, e);
    } else if LastAnswer(log).exchange != e {
      BeforeIs(log, x);
      if InStep(turns, e) {
        Collection.SameOpening(turns, LastAnswer(log).exchange, e);
      }
    }
  }

  lemma NewTurnIsAhead(turns: seq<Turn>, e: Exchange)
    requires turns != [] && HasAssistant(e.messages) && Follows(turns, e.messages, e.prompt)
    ensures !InStep(turns, e) && !StartsAfresh(turns, e)
  {
    assert |Gists(NonAssistant(e.messages))| == |NonAssistant(e.messages)|;
  }

  lemma CommitKeeps(parse: Parser, v: Agent, d: Delivery, held: Option<TS.StreamState>, log: Log, x: Answer)
    requires Sound(v) && Full(log) && Kept(parse, v, log) && CanMove(v, CommitTurn(d, held)) && v.rec.failed.None?
    requires DeliversAnswer(d, x) && x.exchange == DeliveredExchange(d) && x.parsed == parse(x.exchange.completion, x.reply)
    requires held.Some? ==> held.value.lastTurn.value.reply == x.reply
    ensures Sound(Moved(v, CommitTurn(d, held))) && Kept(parse, Moved(v, CommitTurn(d, held)), LogAfter(log, x))
  {
    Collection.MoveKeepsCollected(v, CommitTurn(d, held), Latest(log));
    LatestAfter(log, x);
    if log == [] {
      NothingRecorded(v.rec.turns, log);
    } else {
      SettledIsRecorded(v, log);
    }
    CommitIsDue(v.rec.turns, log, x);
  }

  lemma DueFits(turns: seq<Turn>, log: Log)
    requires Full(log) && log != [] && Collection.Due(turns, Latest(log))
    ensures Fits(turns, LastAnswer(log).exchange)
  {
  }

  lemma RecordKeeps(parse: Parser, v: Agent, log: Log)
    requires Sound(v) && Full(log) && Kept(parse, v, log) && v.flight.Unrecorded?
    ensures log != [] && RecordedAnswers(RecordAgent(v.rec, v.flight.delivery).0.turns, log)
    ensures InStep(RecordAgent(v.rec, v.flight.delivery).0.turns, LastAnswer(log).exchange)
  {
    var d := v.flight.delivery;
    var x := LastAnswer(log);
    if InStep(v.rec.turns, x.exchange) {
      RepeatIsSkipped(v.rec, d, x.exchange);
    } else {
      DueFits(v.rec.turns, log);
      DeliveryIsStored(v.rec, d, log);
    }
  }

  lemma InStepKeeps(parse: Parser, v: Agent, log: Log)
    requires Sound(v) && Full(log) && log != [] && Collection.Collected(v, Latest(log))
    requires InStep(v.rec.turns, LastAnswer(log).exchange) && RecordedAnswers(v.rec.turns, log)
    ensures Kept(parse, v, log)
  {
  }

  lemma RecordOkKeeps(parse: Parser, v: Agent, log: Log)
    requires Sound(v) && Full(log) && Kept(parse, v, log) && v.flight.Unrecorded?
    ensures Sound(AfterRecord(v)) && Kept(parse, AfterRecord(v), log)
  {
    Collection.MoveKeepsCollected(v, RecordOk, Latest(log));
    RecordKeeps(parse, v, log);
    InStepKeeps(parse, AfterRecord(v), log);
  }

  lemma FailAfterKeeps(parse: Parser, v: Agent, log: Log)
    requires Sound(v) && Full(log) && Kept(parse, v, log) && v.flight.Unrecorded?
    ensures Sound(AfterFailAfter(v)) && Kept(parse, AfterFailAfter(v), log)
  {
    Collection.MoveKeepsCollected(v, FailAfter, Latest(log));
    RecordKeeps(parse, v, log);
    InStepKeeps(parse, AfterFailAfter(v), log);
  }

  lemma FailBeforeKeeps(parse: Parser, v: Agent, log: Log)
    requires Sound(v) && Full(log) && Kept(parse, v, log) && v.flight.Unrecorded?
    ensures Sound(AfterFailBefore(v)) && Kept(parse, AfterFailBefore(v), log)
  {
    Collection.MoveKeepsCollected(v, FailBefore, Latest(log));
    assert AfterFailBefore(v).rec.turns == v.rec.turns && AfterFailBefore(v).held == v.held;
  }

  lemma ReplayKeeps(parse: Parser, v: Agent, d: Delivery, held: TS.StreamState, log: Log)
    requires Sound(v) && Full(log) && Kept(parse, v, log) && CanMove(v, Replay(d, held))
    requires held.lastTurn.Some?
    requires var reply := held.lastTurn.value.reply; var parsed := parse(d.completion, reply);
             d.meta == Meta(parsed.text, Some(parsed.finishReason), reply.weightVersion, reply.sampling)
    ensures Sound(Moved(v, Replay(d, held))) && Kept(parse, Moved(v, Replay(d, held)), log)
  {
    Collection.MoveKeepsCollected(v, Replay(d, held), Latest(log));
    assert HeldExchange(held) == HeldExchange(v.held.value);
    assert DeliveredExchange(d) == HeldExchange(v.held.value);
  }

  /** What the step commits, and that it is parsed and replayed as answered. */
  predicate Answered(parse: Parser, m: Move, x: Option<Answer>) {
    match m
    case CommitTurn(d, held) =>
      && x.Some? && Normalize(d.messages).Some? && DeliversAnswer(d, x.value) && x.value.exchange == DeliveredExchange(d)
      && x.value.parsed == parse(x.value.exchange.completion, x.value.reply)
      && (held.Some? ==> held.value.lastTurn.Some? && held.value.lastTurn.value.reply == x.value.reply)
    case Replay(d, held) =>
      && x.None? && held.lastTurn.Some?
      && var reply := held.lastTurn.value.reply; var parsed := parse(d.completion, reply);
      d.meta == Meta(parsed.text, Some(parsed.finishReason), reply.weightVersion, reply.sampling)
    case _ => x.None?
  }

  function LogMoved(log: Log, x: Option<Answer>): (r: Log)
    requires Full(log)
    ensures Full(r)
  {
    if x.Some? then LogAfter(log, x.value) else log
  }

  lemma MoveKeeps(parse: Parser, v: Agent, m: Move, log: Log, x: Option<Answer>)
    requires Sound(v) && Full(log) && Kept(parse, v, log) && CanMove(v, m) && Answered(parse, m, x)
    requires !m.LoseRecord? && !m.DropDelivery? && (m.CommitTurn? ==> v.rec.failed.None?)
    ensures Sound(Moved(v, m)) && Kept(parse, Moved(v, m), LogMoved(log, x))
  {
    if m.CommitTurn? {
      CommitKeeps(parse, v, m.delivery, m.held, log, x.value);
    } else if m.Replay? {
      ReplayKeeps(parse, v, m.delivery, m.replayed, log);
    } else if m.RecordOk? {
      RecordOkKeeps(parse, v, log);
    } else if m.FailAfter? {
      FailAfterKeeps(parse, v, log);
    } else if m.FailBefore? {
      FailBeforeKeeps(parse, v, log);
    } else {
      Collection.MoveKeepsCollected(v, m, Latest(log));
      if m.PublishTurn? {
        assert HeldExchange(m.published) == HeldExchange(v.held.value);
      }
    }
  }

  // ---- Runs --------------------------------------------------------------------------------

  /** The answer a step of the system commits for the agent. */
  function AnswerOf(s: Sys, a: Action, id: string, agent: string): Option<Answer>
    requires Enabled(s, a)
  {
    if a.EngineAnswers? && a.id == id && a.agent == agent && Normalize(FlightOf(s, id, agent).messages).Some? then
      Some(Answer(Exchange(Normalize(FlightOf(s, id, agent).messages).value, FlightOf(s, id, agent).prompt, a.completion),
                  a.reply, a.parsed))
    else None
  }

  lemma StepIsLogged(s: Sys, a: Action, id: string, agent: string, log: Log)
    requires Enabled(s, a) && Full(log)
    ensures LogStep(s, a, id, agent, log) == LogMoved(log, AnswerOf(s, a, id, agent))
    ensures Latest(LogStep(s, a, id, agent, log)) == Collection.LogStep(s, a, id, agent, Latest(log))
  {
    var x := AnswerOf(s, a, id, agent);
    if x.Some? {
      LatestAfter(log, x.value);
    }
  }

  /** What the manager holds after a commit is what was answered. */
  lemma CommitHolds(p: TS.Profile, s: Sys, a: Action)
    requires Enabled(s, a) && a.EngineAnswers? && Normalize(FlightOf(s, a.id, a.agent).messages).Some?
    ensures var held := HeldOf(After(p, s, a).mgr, a.id, a.agent);
            held.Some? ==> held.value.lastTurn.Some? && held.value.lastTurn.value.reply == a.reply
  {
    var g := FlightOf(s, a.id, a.agent);
    TS.InstallHolds(p, s.mgr, StreamId(a.id, a.agent),
                    TS.Committed(g.prompt, a.completion, Normalize(g.messages).value, a.reply, g.tools, g.effort));
  }

  lemma AnswerIsDelivered(parse: Parser, p: TS.Profile, s: Sys, a: Action)
    requires Enabled(s, a) && a.EngineAnswers? && ParsedStep(parse, p, s, a, a.id, a.agent)
    requires FlightOf(s, a.id, a.agent).Generating? && Normalize(FlightOf(s, a.id, a.agent).messages).Some?
    ensures Answered(parse, MoveOf(p, s, a, a.id, a.agent), AnswerOf(s, a, a.id, a.agent))
  {
    CommitHolds(p, s, a);
  }

  lemma ReplayIsDelivered(parse: Parser, p: TS.Profile, s: Sys, a: Action)
    requires Enabled(s, a) && a.Ask? && ParsedStep(parse, p, s, a, a.id, a.agent)
    requires CanMove(AgentOf(s, a.id, a.agent), MoveOf(p, s, a, a.id, a.agent))
    ensures Answered(parse, MoveOf(p, s, a, a.id, a.agent), AnswerOf(s, a, a.id, a.agent))
  {
  }

  lemma StepIsAnswered(parse: Parser, p: TS.Profile, s: Sys, a: Action, id: string, agent: string)
    requires Enabled(s, a) && ParsedStep(parse, p, s, a, id, agent) && Sound(AgentOf(s, id, agent))
    requires CanMove(AgentOf(s, id, agent), MoveOf(p, s, a, id, agent))
    ensures Answered(parse, MoveOf(p, s, a, id, agent), AnswerOf(s, a, id, agent))
  {
    if Owner(a) == Some((id, agent)) {
      if a.EngineAnswers? {
        assert FlightSound(AgentOf(s, id, agent));
        AnswerIsDelivered(parse, p, s, a);
      } else if a.Ask? {
        ReplayIsDelivered(parse, p, s, a);
      }
    }
  }

  lemma {:induction false} RunKeeps(parse: Parser, p: TS.Profile, s: Sys, actions: seq<Action>, id: string, agent: string, log: Log)
    requires SysSound(s) && Run(p, s, actions).Some? && ValidId(id) && ValidId(agent) && Full(log)
    requires Collection.Disciplined(p, s, actions, id, agent) && Collection.NeverDeleted(s.rec.deleted, id)
    requires ParsedRun(parse, p, s, actions, id, agent)
    requires Sound(AgentOf(s, id, agent)) && Kept(parse, AgentOf(s, id, agent), log)
    ensures Sound(AgentOf(Run(p, s, actions).value, id, agent))
    ensures Kept(parse, AgentOf(Run(p, s, actions).value, id, agent), LogRun(p, s, actions, id, agent, log))
    ensures Latest(LogRun(p, s, actions, id, agent, log)) == Collection.LogRun(p, s, actions, id, agent, Latest(log))
    decreases |actions|
  {
    if actions != [] {
      var a := actions[0];
      var v := AgentOf(s, id, agent);
      StepKeepsSound(p, s, a);
      StepMoves(p, s, a, id, agent);
      Collection.DisciplinedMove(p, s, a, id, agent, Latest(log));
      StepIsAnswered(parse, p, s, a, id, agent);
      StepIsLogged(s, a, id, agent, log);
      MoveKeeps(parse, v, MoveOf(p, s, a, id, agent), log, AnswerOf(s, a, id, agent));
      Collection.StepNeverDeletes(p, s, a, id);
      RunKeeps(parse, p, After(p, s, a), actions[1..], id, agent, LogStep(s, a, id, agent, log));
    }
  }

  /** What a run leaves in an agent's record is what the engine answered, conversation by conversation and turn by turn. */
  lemma RecordedAsAnswered(parse: Parser, p: TS.Profile, actions: seq<Action>, id: string, agent: string)
    requires Run(p, START, actions).Some? && ValidId(id) && ValidId(agent) && Collection.Disciplined(p, START, actions, id, agent)
    requires ParsedRun(parse, p, START, actions, id, agent) && !Collection.Pending(AgentOf(Run(p, START, actions).value, id, agent))
    ensures RecordedAnswers(AgentOf(Run(p, START, actions).value, id, agent).rec.turns, LogRun(p, START, actions, id, agent, []))
  {
    assert SysSound(START);
    var v := AgentOf(START, id, agent);
    assert Sound(v) && Latest([]) == [];
    RunKeeps(parse, p, START, actions, id, agent, []);
    var log := LogRun(p, START, actions, id, agent, []);
    var after := AgentOf(Run(p, START, actions).value, id, agent);
    if log == [] {
      NothingRecorded(after.rec.turns, log);
    } else {
      SettledIsRecorded(after, log);
    }
  }

  // ---- Training streams -----------------------------------------------------------------------

  function EndBefore(stream: Training.Stream, j: nat): nat
    requires j <= |stream.completions|
  {
    if j == 0 then 0 else stream.completions[j - 1].end
  }

  /** The stream carries the j-th answer of its conversation behind the prompt the engine was sent for it. */
  predicate CarriesAnswer(stream: Training.Stream, x: Answer, j: nat) {
    && j < |stream.completions|
    && var from := |x.exchange.prompt|; var end := from + |x.exchange.completion|;
    && end <= |stream.tokens| == |stream.logprobs| == |stream.mask|
    && stream.tokens[..end] == x.exchange.prompt + x.exchange.completion
    && stream.logprobs[from..end] == x.reply.logprobs
    && (forall k :: from <= k < end ==> stream.mask[k] == 1)
    && (forall k :: EndBefore(stream, j) <= k < from ==> stream.mask[k] == 0 && stream.logprobs[k] == 0.0)
    && stream.completions[j] == Training.Span(from, end, x.reply.weightVersion, x.reply.sampling, Some(x.parsed.finishReason))
  }

  lemma {:induction false} CutTokens(stream: Training.Stream, segment: seq<Turn>, j: nat)
    requires TrainingChecks.CutsTo(stream, segment) && j <= |segment|
    ensures TrainingChecks.CursorAt(stream, j) <= |stream.tokens|
    ensures stream.tokens[..TrainingChecks.CursorAt(stream, j)] == Training.TokensOf(segment[..j])
    decreases j
  {
    if j > 0 {
      CutTokens(stream, segment, j - 1);
      assert TrainingChecks.CutsOne(stream, j - 1, segment[j - 1]);
      assert segment[..j][..j - 1] == segment[..j - 1];
      JoinSlices(stream.tokens, TrainingChecks.CursorAt(stream, j - 1), stream.completions[j - 1].start, stream.completions[j - 1].end);
    }
  }

  lemma JoinSlices<T>(s: seq<T>, a: nat, b: nat, c: nat)
    requires a <= b <= c <= |s|
    ensures s[..c] == s[..a] + s[a..b] + s[b..c]
  {
  }

  lemma StreamCarries(stream: Training.Stream, segment: seq<Turn>, answers: seq<Answer>, j: nat)
    requires TrainingChecks.CutsTo(stream, segment) && CarriesAll(segment, answers) && j < |segment|
    ensures CarriesAnswer(stream, answers[j], j)
  {
    assert CarriesAt(segment, answers, j) && TrainingChecks.CutsOne(stream, j, segment[j]);
    CutTokens(stream, segment, j);
    var c := stream.completions[j];
    JoinSlices(stream.tokens, TrainingChecks.CursorAt(stream, j), c.start, c.end);
    assert c.start == |answers[j].exchange.prompt|;
  }

  /**
   After any disciplined run with an honest engine that leaves the agent with no unrecorded turn and its session
   collectable, converting the session's record as the caller allows yields, for every conversation the agent committed,
   a stream that carries each of its answers: its tokens behind the prompt that was sent, the engine's own logprobs at
   the sampled positions, everything between them masked out, and spans with the answered weight version, sampling parameters and
   finish reason.
   */
  lemma {:induction false} TrainingStreamsCarryTheAnswers(e: Engine, parse: Parser, p: TS.Profile, actions: seq<Action>, id: string,
                                                          agent: string, roles: map<AgentId, string>, allowSegments: bool,
                                                          requireRouted: bool, k: nat)
    returns (i: nat)
    requires Uniform(e) && Prompts(p) && Run(p, START, actions).Some? && HonestRun(e, p, START, actions)
    requires ValidId(id) && ValidId(agent) && Collection.Disciplined(p, START, actions, id, agent)
    requires ParsedRun(parse, p, START, actions, id, agent)
    requires !AgentOf(Run(p, START, actions).value, id, agent).flight.Unrecorded?
    requires DumpOf(Run(p, START, actions).value.rec, id).Served?
    requires var session := Run(p, START, actions).value.rec.sessions[id];
             CallerAllows(session.turns, ByAgent(session.routed), roles, allowSegments, requireRouted)
    requires k < |LogRun(p, START, actions, id, agent, [])|
    ensures var session := Run(p, START, actions).value.rec.sessions[id];
            var converted := TrainingRecords.Convert(id, session.turns, ByAgent(session.routed), roles, allowSegments, requireRouted);
            var answers := LogRun(p, START, actions, id, agent, [])[k];
            && converted.Ok? && i < |converted.value|
            && converted.value[i].agent == Some(agent) && converted.value[i].segment == k
            && |converted.value[i].completions| == |answers|
            && converted.value[i].tokens == answers[|answers| - 1].exchange.prompt + answers[|answers| - 1].exchange.completion
            && forall j :: 0 <= j < |answers| ==> CarriesAnswer(converted.value[i], answers[j], j)
  {
    CollectedRecordConverts(e, p, actions, id, roles, allowSegments, requireRouted);
    RecordedAsAnswered(parse, p, actions, id, agent);
    var session := Run(p, START, actions).value.rec.sessions[id];
    var routed := ByAgent(session.routed);
    var segment := Conversion.Conversations(session.turns, Some(agent))[k];
    var answers := LogRun(p, START, actions, id, agent, [])[k];
    i := Conversion.ConversionIsExact(id, session.turns, routed, roles, allowSegments, requireRouted, Some(agent), k);
    var stream := TrainingRecords.Convert(id, session.turns, routed, roles, allowSegments, requireRouted).value[i];
    forall j | 0 <= j < |answers| ensures CarriesAnswer(stream, answers[j], j) {
      StreamCarries(stream, segment, answers, j);
    }
    WholeStream(stream, segment, answers);
  }

  lemma WholeStream(stream: Training.Stream, segment: seq<Turn>, answers: seq<Answer>)
    requires TrainingChecks.CutsTo(stream, segment) && CarriesAll(segment, answers) && answers != []
    requires CarriesAnswer(stream, answers[|answers| - 1], |answers| - 1)
    ensures stream.tokens == answers[|answers| - 1].exchange.prompt + answers[|answers| - 1].exchange.completion
  {
    assert TrainingChecks.CursorAt(stream, |segment|) == |stream.tokens|;
    assert stream.tokens[..|stream.tokens|] == stream.tokens;
  }
}
