/**
 Runs of the completion handler that show where its guarantees end (proxyserver/service.py, make_completion_handler):
 a second lost turn that no marker covers, and an opening that is committed twice and recorded once.
 */
module HandlerRuns {
  import opened Wrappers
  import opened Messages
  import opened Recorder
  import opened Lossless
  import opened Recording
  import Failure = RecordingFailure
  import Retention
  import TS = TokenStream

  // ---- One opening turn ---------------------------------------------------------

  /** A request that opens a conversation, and what the engine samples for it. */
  datatype Opening = Opening(messages: seq<Message>, completion: seq<Token>, reply: TS.Reply, parsed: Parsed)

  /** The profile renders the request to this prompt. */
  predicate Renders(p: TS.Profile, o: Opening, prompt: seq<Token>) {
    && Normalize(o.messages) == Some(o.messages) && !HasAssistant(o.messages)
    && o.completion != [] && |o.reply.logprobs| == |o.completion|
    && TS.FullRender(p, o.messages, [], None) == Ok(prompt)
  }

  /** The held stream, if there still is one, neither answers the request nor is continued by it. */
  predicate Unrelated(m: TS.Manager, stream: string, messages: seq<Message>) {
    stream in m.states ==>
      m.states[stream].messages != messages && !TS.ExtendsConversation(m.states[stream].messages, messages)
  }

  function Asking(id: string, agent: string, o: Opening): Action {
    Ask(id, agent, o.messages, [], None, o.parsed)
  }

  function Answering(id: string, agent: string, o: Opening): Action {
    EngineAnswers(id, agent, o.completion, o.reply, o.parsed)
  }

  function Turns(id: string, agent: string, o: Opening): seq<Action> {
    [Asking(id, agent, o), Answering(id, agent, o)]
  }

  function Delivered(agent: string, o: Opening, prompt: seq<Token>): Delivery {
    DeliveryOf(agent, o.messages, prompt, o.completion, o.reply, o.parsed)
  }

  function StateOf(o: Opening, prompt: seq<Token>): TS.StreamState {
    TS.Committed(prompt, o.completion, o.messages, o.reply, [], None)
  }

  lemma {:induction false} RunConcat(p: TS.Profile, s: Sys, a: seq<Action>, b: seq<Action>, t: Sys)
    requires Run(p, s, a) == Some(t)
    ensures Run(p, s, a + b) == Run(p, t, b)
    decreases |a|
  {
    if a == [] {
      assert a + b == b;
    } else {
      assert (a + b)[1..] == a[1..] + b;
      RunConcat(p, After(p, s, a[0]), a[1..], b, t);
    }
  }

  lemma RunOne(p: TS.Profile, s: Sys, a: Action)
    requires Enabled(s, a)
    ensures Run(p, s, [a]) == Some(After(p, s, a))
  {
    assert [a][1..] == [];
  }

  /** An unrelated opening is rendered. */
  lemma OpeningIsAsked(p: TS.Profile, s: Sys, id: string, agent: string, o: Opening, prompt: seq<Token>)
    requires ValidId(id) && ValidId(agent) && FlightOf(s, id, agent).Idle? && Renders(p, o, prompt)
    requires Unrelated(s.mgr, StreamId(id, agent), o.messages)
    ensures Enabled(s, Asking(id, agent, o))
    ensures After(p, s, Asking(id, agent, o))
         == WithFlight(s.(mgr := TS.Touch(s.mgr, StreamId(id, agent))), id, agent, Generating(o.messages, [], None, prompt))
  {
  }

  lemma OpeningIsAnswered(p: TS.Profile, s: Sys, id: string, agent: string, o: Opening, prompt: seq<Token>)
    requires ValidId(id) && ValidId(agent) && Renders(p, o, prompt)
    requires FlightOf(s, id, agent) == Generating(o.messages, [], None, prompt)
    ensures Enabled(s, Answering(id, agent, o))
    ensures After(p, s, Answering(id, agent, o))
         == WithFlight(s.(mgr := TS.Install(p, s.mgr, StreamId(id, agent), StateOf(o, prompt))), id, agent,
                       Unrecorded(Delivered(agent, o, prompt)))
  {
  }

  /** It is committed, and waits to be recorded. */
  lemma OpeningCommits(p: TS.Profile, s: Sys, id: string, agent: string, o: Opening, prompt: seq<Token>) returns (t: Sys)
    requires ValidId(id) && ValidId(agent) && FlightOf(s, id, agent).Idle? && Renders(p, o, prompt)
    requires Unrelated(s.mgr, StreamId(id, agent), o.messages)
    ensures Run(p, s, Turns(id, agent, o)) == Some(t)
    ensures t.rec == s.rec && t.now == s.now && FlightOf(t, id, agent) == Unrecorded(Delivered(agent, o, prompt))
    ensures t.mgr == TS.Install(p, TS.Touch(s.mgr, StreamId(id, agent)), StreamId(id, agent), StateOf(o, prompt))
    ensures forall other :: other != agent ==> FlightOf(t, id, other) == FlightOf(s, id, other)
  {
    OpeningIsAsked(p, s, id, agent, o, prompt);
    var asked := After(p, s, Asking(id, agent, o));
    OpeningIsAnswered(p, asked, id, agent, o, prompt);
    t := After(p, asked, Answering(id, agent, o));
    RunOne(p, asked, Answering(id, agent, o));
    RunOne(p, s, Asking(id, agent, o));
    RunConcat(p, s, [Asking(id, agent, o)], [Answering(id, agent, o)], asked);
    assert Turns(id, agent, o) == [Asking(id, agent, o)] + [Answering(id, agent, o)];
  }

  /** After the commit the stream, if held, is the one just committed. */
  lemma HeldIsCommitted(p: TS.Profile, m: TS.Manager, stream: string, o: Opening, prompt: seq<Token>, next: Opening)
    requires o.messages != next.messages && !TS.ExtendsConversation(o.messages, next.messages)
    ensures Unrelated(TS.Install(p, m, stream, StateOf(o, prompt)), stream, next.messages)
  {
    TS.InstallHolds(p, m, stream, StateOf(o, prompt));
  }

  // ---- A lost turn no marker covers ------------------------------------------------

  lemma AdmitsFresh(p: TS.Profile, id: string)
    requires ValidId(id)
    ensures Enabled(START, Admit(id, None)) && After(p, START, Admit(id, None)) == START.(rec := Failure.Fresh(id))
  {
  }

  function LossyRun(id: string, agent: string, first: Opening, second: Opening): seq<Action> {
    [Admit(id, None)]
    + (Turns(id, agent, first) + [FailBeforeAppend(id, agent)])
    + (Turns(id, agent, second) + [FailBeforeAppend(id, agent)])
    + (Turns(id, agent, first) + [RecordTurn(id, agent)])
  }

  /** An opening turn that is committed and then lost, or recorded. */
  lemma TurnEnds(p: TS.Profile, s: Sys, id: string, agent: string, o: Opening, prompt: seq<Token>, end: Action) returns (t: Sys)
    requires ValidId(id) && ValidId(agent) && FlightOf(s, id, agent).Idle? && Renders(p, o, prompt)
    requires Unrelated(s.mgr, StreamId(id, agent), o.messages)
    requires end == FailBeforeAppend(id, agent) || end == RecordTurn(id, agent)
    ensures Run(p, s, Turns(id, agent, o) + [end]) == Some(t)
    ensures FlightOf(t, id, agent).Idle? && t.now == s.now
    ensures t.rec == if end.RecordTurn? then Record(s.rec, s.now, id, Delivered(agent, o, prompt)).0
                     else Failure.Mark(s.rec, s.now, id, Delivered(agent, o, prompt))
    ensures t.mgr == TS.Install(p, TS.Touch(s.mgr, StreamId(id, agent)), StreamId(id, agent), StateOf(o, prompt))
    ensures forall other :: other != agent ==> FlightOf(t, id, other) == FlightOf(s, id, other)
  {
    var committed := OpeningCommits(p, s, id, agent, o, prompt);
    t := EndsAs(p, committed, id, agent, Delivered(agent, o, prompt), end);
    RunOne(p, committed, end);
    RunConcat(p, s, Turns(id, agent, o), [end], committed);
  }

  lemma EndsAs(p: TS.Profile, s: Sys, id: string, agent: string, d: Delivery, end: Action) returns (t: Sys)
    requires ValidId(id) && ValidId(agent) && FlightOf(s, id, agent) == Unrecorded(d) && d.agent == Some(agent)
    requires end == FailBeforeAppend(id, agent) || end == RecordTurn(id, agent)
    ensures Enabled(s, end) && t == After(p, s, end)
    ensures FlightOf(t, id, agent).Idle? && t.now == s.now && t.mgr == s.mgr
    ensures t.rec == if end.RecordTurn? then Record(s.rec, s.now, id, d).0 else Failure.Mark(s.rec, s.now, id, d)
    ensures forall other :: other != agent ==> FlightOf(t, id, other) == FlightOf(s, id, other)
  {
    t := After(p, s, end);
  }

  /**
   Two openings of one agent are lost before they are recorded; the first is asked again, sampled again identically and
   recorded. The session can then be collected, although the second committed turn is missing from its record.
   */
  lemma SecondLostTurnIsNotCovered(p: TS.Profile, id: string, agent: string, first: Opening, second: Opening,
                                   firstPrompt: seq<Token>, secondPrompt: seq<Token>)
    requires ValidId(id) && ValidId(agent) && Renders(p, first, firstPrompt) && Renders(p, second, secondPrompt)
    requires first.messages != second.messages && first.completion != second.completion
    requires !TS.ExtendsConversation(first.messages, second.messages) && !TS.ExtendsConversation(second.messages, first.messages)
    ensures var run := Run(p, START, LossyRun(id, agent, first, second));
            && run.Some? && DumpOf(run.value.rec, id).Served? && Finalizable(run.value.rec, id)
            && forall i :: 0 <= i < |run.value.rec.sessions[id].turns| ==>
                 run.value.rec.sessions[id].turns[i].completion != second.completion
  {
    AdmitsFresh(p, id);
    var s1 := After(p, START, Admit(id, None));
    RunOne(p, START, Admit(id, None));
    var fails := FailBeforeAppend(id, agent);
    var s2 := TurnEnds(p, s1, id, agent, first, firstPrompt, fails);
    HeldIsCommitted(p, TS.Touch(s1.mgr, StreamId(id, agent)), StreamId(id, agent), first, firstPrompt, second);
    var s3 := TurnEnds(p, s2, id, agent, second, secondPrompt, fails);
    HeldIsCommitted(p, TS.Touch(s2.mgr, StreamId(id, agent)), StreamId(id, agent), second, secondPrompt, first);
    var s4 := TurnEnds(p, s3, id, agent, first, firstPrompt, RecordTurn(id, agent));
    Failure.SecondFailureIsNotGuarded(id, Delivered(agent, first, firstPrompt), Delivered(agent, second, secondPrompt), 0);
    LossyRunIs(p, id, agent, first, second, s1, s2, s3, s4);
  }

  lemma LossyRunIs(p: TS.Profile, id: string, agent: string, first: Opening, second: Opening, s1: Sys, s2: Sys, s3: Sys, s4: Sys)
    requires Run(p, START, [Admit(id, None)]) == Some(s1)
    requires Run(p, s1, Turns(id, agent, first) + [FailBeforeAppend(id, agent)]) == Some(s2)
    requires Run(p, s2, Turns(id, agent, second) + [FailBeforeAppend(id, agent)]) == Some(s3)
    requires Run(p, s3, Turns(id, agent, first) + [RecordTurn(id, agent)]) == Some(s4)
    ensures Run(p, START, LossyRun(id, agent, first, second)) == Some(s4)
  {
    var a := [Admit(id, None)];
    var b := Turns(id, agent, first) + [FailBeforeAppend(id, agent)];
    var c := Turns(id, agent, second) + [FailBeforeAppend(id, agent)];
    var d := Turns(id, agent, first) + [RecordTurn(id, agent)];
    RunConcat(p, START, a, b, s1);
    RunConcat(p, START, a + b, c, s2);
    RunConcat(p, START, a + b + c, d, s3);
  }

  // ---- An opening committed twice and recorded once -----------------------------------

  function RepeatedRun(id: string, agent: string, other: string, opening: Opening, between: Opening): seq<Action> {
    [Admit(id, None)]
    + (Turns(id, agent, opening) + [RecordTurn(id, agent)])
    + (Turns(id, other, between) + [RecordTurn(id, other)])
    + (Turns(id, agent, opening) + [RecordTurn(id, agent)])
  }

  /** In a table for one stream the next stream evicts it. */
  lemma OnlyStreamIsEvicted(p: TS.Profile, stream: string, next: string, st: TS.StreamState, st': TS.StreamState)
    requires p.maxSessions == 1 && stream != next
    ensures var m := TS.Install(p, TS.Touch(TS.EMPTY, stream), stream, st);
            && next !in m.states && TS.Touch(m, next) == m
            && stream !in TS.Install(p, m, next, st').states
  {
    assert Retention.Well(p, TS.EMPTY);
    Retention.SpareTableEvictsNothing(p, TS.EMPTY, stream, st);
    var m := TS.Install(p, TS.EMPTY, stream, st);
    assert m.order == [stream] && m.states == map[stream := st];
    Retention.InstallWell(p, TS.EMPTY, stream, st);
    Retention.EvictedExactlyWhenOldestOfFull(p, m, stream, next, st');
  }

  lemma FirstIsStored(id: string, d: Delivery, s: State, now: nat)
    requires s == Failure.Fresh(id)
    ensures View(Record(s, now, id, d).0, id, d.agent).turns == [StoredTurn(d, Store(d.messages, d.prompt, true))]
  {
    RecordView(s, now, id, d, id, d.agent);
    assert View(s, id, d.agent) == AgentState([], None, None);
  }

  lemma RepeatIsDuplicate(d: Delivery)
    requires Normalize(d.messages).Some? && !HasAssistant(d.messages)
    ensures Judge([StoredTurn(d, Store(d.messages, d.prompt, true))], d) == Duplicate
  {
  }

  /** The same opening delivered again is recognized although the manager forgot it. */
  lemma OpeningIsRecordedOnce(id: string, d: Delivery, other: Delivery, s: State, now: nat, s1: State, s2: State, s3: State)
    requires Normalize(d.messages).Some? && !HasAssistant(d.messages) && d.agent != other.agent
    requires s == Failure.Fresh(id) && s1 == Record(s, now, id, d).0
    requires s2 == Record(s1, now, id, other).0 && s3 == Record(s2, now, id, d).0
    ensures |View(s3, id, d.agent).turns| == 1
  {
    FirstIsStored(id, d, s, now);
    RecordLeavesTombstones(s, now, id, d);
    RecordLeavesTombstones(s1, now, id, other);
    RecordView(s1, now, id, other, id, d.agent);
    RecordView(s2, now, id, d, id, d.agent);
    RepeatIsDuplicate(d);
  }

  lemma RecordLeavesTombstones(s: State, now: nat, id: string, d: Delivery)
    ensures Record(s, now, id, d).0.deleted == s.deleted
  {
  }

  lemma RepeatedRunIs(p: TS.Profile, id: string, agent: string, other: string, opening: Opening, between: Opening,
                      s1: Sys, s2: Sys, s3: Sys, s4: Sys)
    requires Run(p, START, [Admit(id, None)]) == Some(s1)
    requires Run(p, s1, Turns(id, agent, opening) + [RecordTurn(id, agent)]) == Some(s2)
    requires Run(p, s2, Turns(id, other, between) + [RecordTurn(id, other)]) == Some(s3)
    requires Run(p, s3, Turns(id, agent, opening) + [RecordTurn(id, agent)]) == Some(s4)
    ensures Run(p, START, RepeatedRun(id, agent, other, opening, between)) == Some(s4)
  {
    var a := [Admit(id, None)];
    var b := Turns(id, agent, opening) + [RecordTurn(id, agent)];
    var c := Turns(id, other, between) + [RecordTurn(id, other)];
    RunConcat(p, START, a, b, s1);
    RunConcat(p, START, a + b, c, s2);
    RunConcat(p, START, a + b + c, b, s3);
  }

  /** The states such a run passes through. */
  lemma {:induction false} RepeatedTurns(p: TS.Profile, id: string, agent: string, other: string, opening: Opening, between: Opening,
                                         prompt: seq<Token>, otherPrompt: seq<Token>, s1: Sys)
    returns (s2: Sys, s3: Sys, s4: Sys)
    requires p.maxSessions == 1 && ValidId(id) && ValidId(agent) && ValidId(other) && agent != other
    requires Renders(p, opening, prompt) && Renders(p, between, otherPrompt)
    requires s1 == START.(rec := Failure.Fresh(id))
    ensures Run(p, s1, Turns(id, agent, opening) + [RecordTurn(id, agent)]) == Some(s2)
    ensures Run(p, s2, Turns(id, other, between) + [RecordTurn(id, other)]) == Some(s3)
    ensures Run(p, s3, Turns(id, agent, opening) + [RecordTurn(id, agent)]) == Some(s4)
    ensures s2.rec == Record(s1.rec, 0, id, Delivered(agent, opening, prompt)).0
    ensures s3.rec == Record(s2.rec, 0, id, Delivered(other, between, otherPrompt)).0
    ensures s4.rec == Record(s3.rec, 0, id, Delivered(agent, opening, prompt)).0
  {
    OtherStream(id, agent, id, other);
    OnlyStreamIsEvicted(p, StreamId(id, agent), StreamId(id, other), StateOf(opening, prompt), StateOf(between, otherPrompt));
    s2 := TurnEnds(p, s1, id, agent, opening, prompt, RecordTurn(id, agent));
    s3 := TurnEnds(p, s2, id, other, between, otherPrompt, RecordTurn(id, other));
    s4 := TurnEnds(p, s3, id, agent, opening, prompt, RecordTurn(id, agent));
  }

  /**
   An opening whose stream was evicted is rendered, sampled and committed anew. When the engine samples the same tokens,
   the second commit is recorded as a duplicate: two committed conversations, one recorded turn.
   */
  lemma RepeatedOpeningIsRecordedOnce(p: TS.Profile, id: string, agent: string, other: string, opening: Opening, between: Opening,
                                      prompt: seq<Token>, otherPrompt: seq<Token>)
    requires p.maxSessions == 1 && ValidId(id) && ValidId(agent) && ValidId(other) && agent != other
    requires Renders(p, opening, prompt) && Renders(p, between, otherPrompt)
    ensures var run := Run(p, START, RepeatedRun(id, agent, other, opening, between));
            run.Some? && |View(run.value.rec, id, Some(agent)).turns| == 1
  {
    AdmitsFresh(p, id);
    RunOne(p, START, Admit(id, None));
    var s1 := After(p, START, Admit(id, None));
    var s2, s3, s4 := RepeatedTurns(p, id, agent, other, opening, between, prompt, otherPrompt, s1);
    OpeningIsRecordedOnce(id, Delivered(agent, opening, prompt), Delivered(other, between, otherPrompt), s1.rec, 0,
                          s2.rec, s3.rec, s4.rec);
    RepeatedRunIs(p, id, agent, other, opening, between, s1, s2, s3, s4);
  }
}
