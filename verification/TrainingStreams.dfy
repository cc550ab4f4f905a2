/**
 Building one training stream per agent conversation, cutting it back into its turns, and the
 validation every stream passes (proxyserver/training.py).
 */
module TrainingStreams {
  import opened Wrappers
  import opened Messages
  import opened Recorder
  import opened Training

  // ---- Building ------------------------------------------------------------

  function Empty(session: string, agent: AgentId, role: string, segment: nat): Stream {
    Stream(session, agent, role, segment, [], [], [], [], None)
  }

  /** One more turn: prompt tokens masked out with placeholder logprobs, sampled tokens masked in with their own. */
  function Extend(s: Stream, t: Turn): Stream {
    var start := |s.tokens| + |t.prompt|;
    s.(tokens := s.tokens + t.prompt + t.completion,
       mask := s.mask + Repeat(0, |t.prompt|) + Repeat(1, |t.completion|),
       logprobs := s.logprobs + Repeat(0.0, |t.prompt|) + t.logprobs,
       completions := s.completions + [Span(start, start + |t.completion|, t.meta.weightVersion, t.meta.sampling, t.meta.finishReason)])
  }

  function SegmentStream(session: string, agent: AgentId, role: string, segment: nat, turns: seq<Turn>): Stream {
    if turns == [] then Empty(session, agent, role, segment)
    else Extend(SegmentStream(session, agent, role, segment, turns[..|turns| - 1]), turns[|turns| - 1])
  }

  /** The position of the agent's latest stream. */
  function Latest(streams: seq<Stream>, agent: AgentId): Option<nat> {
    if streams == [] then None
    else if streams[|streams| - 1].agent == agent then Some(|streams| - 1)
    else Latest(streams[..|streams| - 1], agent)
  }

  lemma {:induction false} LatestIs(streams: seq<Stream>, agent: AgentId)
    ensures Latest(streams, agent).Some? ==>
              Latest(streams, agent).value < |streams| && streams[Latest(streams, agent).value].agent == agent
              && forall i :: Latest(streams, agent).value < i < |streams| ==> streams[i].agent != agent
    ensures Latest(streams, agent).None? ==> forall i :: 0 <= i < |streams| ==> streams[i].agent != agent
  {
    if streams != [] {
      LatestIs(streams[..|streams| - 1], agent);
    }
  }

  function AddTurn(session: string, roles: map<AgentId, string>, streams: seq<Stream>, t: Turn): seq<Stream>
    requires t.agent in roles
  {
    LatestIs(streams, t.agent);
    var k := Latest(streams, t.agent);
    if k.None? then streams + [Extend(Empty(session, t.agent, roles[t.agent], 0), t)]
    else if t.newConversation then streams + [Extend(Empty(session, t.agent, roles[t.agent], streams[k.value].segment + 1), t)]
    else streams[k.value := Extend(streams[k.value], t)]
  }

  predicate Registered(roles: map<AgentId, string>, turns: seq<Turn>) {
    forall i :: 0 <= i < |turns| ==> turns[i].agent in roles
  }

  function Assemble(session: string, roles: map<AgentId, string>, turns: seq<Turn>): seq<Stream>
    requires Registered(roles, turns)
  {
    if turns == [] then []
    else AddTurn(session, roles, Assemble(session, roles, turns[..|turns| - 1]), turns[|turns| - 1])
  }

  // ---- Per agent: one stream for each of its conversations ---------------------

  function StreamsFor(streams: seq<Stream>, agent: AgentId): seq<Stream> {
    if streams == [] then []
    else StreamsFor(streams[..|streams| - 1], agent) + if streams[|streams| - 1].agent == agent then [streams[|streams| - 1]] else []
  }

  function SegmentStreams(session: string, agent: AgentId, role: string, segments: seq<seq<Turn>>): (r: seq<Stream>)
    ensures |r| == |segments|
    ensures forall i :: 0 <= i < |segments| ==> r[i] == SegmentStream(session, agent, role, i, segments[i])
  {
    seq(|segments|, i requires 0 <= i < |segments| => SegmentStream(session, agent, role, i, segments[i]))
  }

  lemma StreamsForAppend(streams: seq<Stream>, s: Stream, agent: AgentId)
    ensures StreamsFor(streams + [s], agent) == StreamsFor(streams, agent) + if s.agent == agent then [s] else []
  {
    assert (streams + [s])[..|streams|] == streams;
  }

  lemma {:induction false} StreamsForUpdate(streams: seq<Stream>, k: nat, s: Stream, agent: AgentId)
    requires k < |streams| && s.agent == streams[k].agent != agent
    ensures StreamsFor(streams[k := s], agent) == StreamsFor(streams, agent)
  {
    var init := streams[..|streams| - 1];
    if k < |streams| - 1 {
      assert streams[k := s][..|streams| - 1] == init[k := s];
      StreamsForUpdate(init, k, s, agent);
    } else {
      assert streams[k := s][..|streams| - 1] == init;
    }
  }

  lemma {:induction false} StreamsForLatest(streams: seq<Stream>, agent: AgentId)
    ensures Latest(streams, agent).None? <==> StreamsFor(streams, agent) == []
    ensures Latest(streams, agent).Some? ==>
              Latest(streams, agent).value < |streams|
              && StreamsFor(streams, agent)[|StreamsFor(streams, agent)| - 1] == streams[Latest(streams, agent).value]
  {
    if streams != [] {
      StreamsForLatest(streams[..|streams| - 1], agent);
    }
  }

  lemma {:induction false} UpdateLatest(streams: seq<Stream>, agent: AgentId, s: Stream)
    requires Latest(streams, agent).Some? && Latest(streams, agent).value < |streams| && s.agent == agent
    ensures StreamsFor(streams, agent) != []
    ensures StreamsFor(streams[Latest(streams, agent).value := s], agent)
         == StreamsFor(streams, agent)[..|StreamsFor(streams, agent)| - 1] + [s]
  {
    var k := Latest(streams, agent).value;
    var init := streams[..|streams| - 1];
    if k == |streams| - 1 {
      assert streams[k := s][..|streams| - 1] == init;
      LatestIs(streams, agent);
    } else {
      assert streams[k := s][..|streams| - 1] == init[k := s];
      LatestIs(init, agent);
      UpdateLatest(init, agent, s);
      EmptyConcat(StreamsFor(init, agent));
    }
  }

  lemma SegmentStreamAppend(session: string, agent: AgentId, role: string, segment: nat, turns: seq<Turn>, t: Turn)
    ensures SegmentStream(session, agent, role, segment, turns + [t]) == Extend(SegmentStream(session, agent, role, segment, turns), t)
  {
    assert (turns + [t])[..|turns|] == turns;
  }

  lemma SegmentStreamsAppend(session: string, agent: AgentId, role: string, segments: seq<seq<Turn>>, turns: seq<Turn>)
    ensures SegmentStreams(session, agent, role, segments + [turns])
         == SegmentStreams(session, agent, role, segments) + [SegmentStream(session, agent, role, |segments|, turns)]
  {
    var all := segments + [turns];
    var left := SegmentStreams(session, agent, role, all);
    var before := SegmentStreams(session, agent, role, segments);
    forall i | 0 <= i < |segments| ensures left[i] == before[i] {
      assert all[i] == segments[i];
    }
    assert left[|segments|] == SegmentStream(session, agent, role, |segments|, all[|segments|]);
  }

  lemma SegmentStreamsReplaceLast(session: string, agent: AgentId, role: string, segments: seq<seq<Turn>>, turns: seq<Turn>)
    requires segments != []
    ensures SegmentStreams(session, agent, role, segments[..|segments| - 1] + [turns])
         == SegmentStreams(session, agent, role, segments)[..|segments| - 1]
            + [SegmentStream(session, agent, role, |segments| - 1, turns)]
  {
  }

  /** The agent's turn opens a new stream. */
  lemma AddOpening(session: string, roles: map<AgentId, string>, streams: seq<Stream>, segments: seq<seq<Turn>>, t: Turn)
    requires t.agent in roles
    requires StreamsFor(streams, t.agent) == SegmentStreams(session, t.agent, roles[t.agent], segments)
    requires segments == [] || t.newConversation
    ensures StreamsFor(AddTurn(session, roles, streams, t), t.agent)
         == SegmentStreams(session, t.agent, roles[t.agent], segments + [[t]])
  {
    var agent := t.agent;
    StreamsForLatest(streams, agent);
    SegmentOf(session, agent, roles[agent], segments);
    SegmentStreamsAppend(session, agent, roles[agent], segments, [t]);
    SegmentStreamAppend(session, agent, roles[agent], |segments|, [], t);
    EmptyConcat([t]);
    StreamsForAppend(streams, Extend(Empty(session, agent, roles[agent], |segments|), t), agent);
  }

  /** The agent's turn extends its latest stream. */
  lemma AddContinuation(session: string, roles: map<AgentId, string>, streams: seq<Stream>, segments: seq<seq<Turn>>, t: Turn)
    requires t.agent in roles && segments != [] && !t.newConversation
    requires StreamsFor(streams, t.agent) == SegmentStreams(session, t.agent, roles[t.agent], segments)
    ensures StreamsFor(AddTurn(session, roles, streams, t), t.agent)
         == SegmentStreams(session, t.agent, roles[t.agent],
                           segments[..|segments| - 1] + [segments[|segments| - 1] + [t]])
  {
    var agent := t.agent;
    var n := |segments| - 1;
    StreamsForLatest(streams, agent);
    LatestIs(streams, agent);
    var k := Latest(streams, agent).value;
    SegmentStreamAppend(session, agent, roles[agent], n, segments[n], t);
    SegmentStreamsReplaceLast(session, agent, roles[agent], segments, segments[n] + [t]);
    UpdateLatest(streams, agent, Extend(streams[k], t));
  }

  lemma AddOwnTurn(session: string, roles: map<AgentId, string>, streams: seq<Stream>, mine: seq<Turn>, t: Turn)
    requires t.agent in roles
    requires StreamsFor(streams, t.agent) == SegmentStreams(session, t.agent, roles[t.agent], Segments(mine))
    ensures StreamsFor(AddTurn(session, roles, streams, t), t.agent)
         == SegmentStreams(session, t.agent, roles[t.agent], Segments(mine + [t]))
  {
    SegmentsAppend(mine, t);
    if mine == [] || t.newConversation {
      AddOpening(session, roles, streams, Segments(mine), t);
    } else {
      AddContinuation(session, roles, streams, Segments(mine), t);
    }
  }

  lemma {:induction false} SegmentIdentity(session: string, agent: AgentId, role: string, segment: nat, turns: seq<Turn>)
    ensures var s := SegmentStream(session, agent, role, segment, turns);
            s.session == session && s.agent == agent && s.role == role && s.segment == segment && s.routed.None?
  {
    if turns != [] {
      SegmentIdentity(session, agent, role, segment, turns[..|turns| - 1]);
    }
  }

  lemma SegmentOf(session: string, agent: AgentId, role: string, segments: seq<seq<Turn>>)
    ensures segments != [] ==> SegmentStreams(session, agent, role, segments)[|segments| - 1].segment == |segments| - 1
  {
    if segments != [] {
      SegmentIdentity(session, agent, role, |segments| - 1, segments[|segments| - 1]);
    }
  }

  lemma AddOtherTurn(session: string, roles: map<AgentId, string>, streams: seq<Stream>, t: Turn, agent: AgentId)
    requires t.agent in roles && agent != t.agent
    ensures StreamsFor(AddTurn(session, roles, streams, t), agent) == StreamsFor(streams, agent)
  {
    LatestIs(streams, t.agent);
    var k := Latest(streams, t.agent);
    if k.None? {
      StreamsForAppend(streams, Extend(Empty(session, t.agent, roles[t.agent], 0), t), agent);
    } else if t.newConversation {
      StreamsForAppend(streams, Extend(Empty(session, t.agent, roles[t.agent], streams[k.value].segment + 1), t), agent);
    } else {
      StreamsForUpdate(streams, k.value, Extend(streams[k.value], t), agent);
    }
  }

  /** For any interleaving of agents and resets, an agent's streams are its conversations, in order, one stream each. */
  lemma {:induction false} OneStreamPerConversation(session: string, roles: map<AgentId, string>, turns: seq<Turn>, agent: AgentId)
    requires Registered(roles, turns) && agent in roles
    ensures StreamsFor(Assemble(session, roles, turns), agent)
         == SegmentStreams(session, agent, roles[agent], Segments(AgentTurns(turns, agent)))
  {
    if turns != [] {
      var init := turns[..|turns| - 1];
      var t := turns[|turns| - 1];
      OneStreamPerConversation(session, roles, init, agent);
      assert turns == init + [t];
      AgentTurnsAppend(init, t, agent);
      if t.agent == agent {
        AddOwnTurn(session, roles, Assemble(session, roles, init), AgentTurns(init, agent), t);
      } else {
        AddOtherTurn(session, roles, Assemble(session, roles, init), t, agent);
        EmptyConcat(AgentTurns(init, agent));
      }
    }
  }
}
