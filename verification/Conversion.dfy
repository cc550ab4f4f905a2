/** What converting a session record means: which records convert, and to what (proxyserver/training.py). */
module Conversion {
  import opened Wrappers
  import opened Text
  import opened Capture
  import opened Recorder
  import opened Training
  import opened TrainingStreams
  import opened TrainingChecks
  import opened TrainingRecords

  // ---- An agent's conversations in a sound record ------------------------------

  /** The last conversation of a record is what rebuilding gives. */
  lemma {:induction false} LastConversationIsRebuilt(turns: seq<Turn>)
    requires turns != []
    ensures Segments(turns) != [] && TokensOf(Segments(turns)[|Segments(turns)| - 1]) == Rebuilt(turns)
  {
    var init := turns[..|turns| - 1];
    var t := turns[|turns| - 1];
    if init == [] || t.newConversation {
      assert [t][..0] == [];
      assert TokensOf([t]) == [] + t.prompt + t.completion;
    } else {
      LastConversationIsRebuilt(init);
      var last := Segments(init)[|Segments(init)| - 1];
      assert (last + [t])[..|last|] == last;
    }
  }

  predicate SoundConversation(turns: seq<Turn>, a: AgentId) {
    turns != [] && OneAgent(turns, a) && LogprobsAligned(turns) && Leads(turns)
  }

  predicate SoundConversations(segments: seq<seq<Turn>>, a: AgentId) {
    forall k :: 0 <= k < |segments| ==> SoundConversation(segments[k], a)
  }

  lemma OpensSoundly(t: Turn)
    requires |t.logprobs| == |t.completion| && (t.completion != [] ==> t.prompt != [])
    ensures SoundConversation([t], t.agent)
  {
  }

  lemma ContinuesSoundly(turns: seq<Turn>, t: Turn)
    requires SoundConversation(turns, t.agent) && |t.logprobs| == |t.completion|
    requires t.completion != [] && t.prompt == [] ==> TokensOf(turns) != []
    ensures SoundConversation(turns + [t], t.agent)
  {
    var longer := turns + [t];
    forall i | 0 <= i < |longer| && longer[i].completion != [] && longer[i].prompt == []
      ensures TokensOf(longer[..i]) != []
    {
      if i < |turns| {
        assert longer[..i] == turns[..i];
        assert longer[i] == turns[i];
      } else {
        assert longer[..i] == turns;
      }
    }
  }

  lemma OpensNext(mine: seq<Turn>, t: Turn, segments: seq<seq<Turn>>)
    requires SoundConversations(segments, t.agent) && |t.logprobs| == |t.completion| && (t.completion != [] ==> t.prompt != [])
    ensures SoundConversations(segments + [[t]], t.agent)
  {
    OpensSoundly(t);
  }

  lemma ContinuesNext(t: Turn, segments: seq<seq<Turn>>, last: seq<Turn>)
    requires segments != [] && last == segments[|segments| - 1]
    requires SoundConversations(segments, t.agent) && |t.logprobs| == |t.completion|
    requires t.completion != [] && t.prompt == [] ==> TokensOf(last) != []
    ensures SoundConversations(segments[..|segments| - 1] + [last + [t]], t.agent)
  {
    ContinuesSoundly(last, t);
  }

  lemma SoundNext(mine: seq<Turn>, t: Turn)
    requires SoundConversations(Segments(mine), t.agent) && |t.logprobs| == |t.completion|
    requires t.completion != [] && t.prompt == [] ==> !t.newConversation && Rebuilt(mine) != []
    ensures SoundConversations(Segments(mine + [t]), t.agent)
  {
    var segments := Segments(mine);
    SegmentsAppend(mine, t);
    if mine == [] || t.newConversation {
      OpensNext(mine, t, segments);
    } else {
      LastConversationIsRebuilt(mine);
      ContinuesNext(t, segments, segments[|segments| - 1]);
    }
  }

  lemma TurnsOfNext(turns: seq<Turn>, n: nat, a: AgentId)
    requires 0 < n <= |turns|
    ensures AgentTurns(turns[..n], a)
         == if turns[n - 1].agent == a then AgentTurns(turns[..n - 1], a) + [turns[n - 1]] else AgentTurns(turns[..n - 1], a)
  {
    TakeNext(turns, n - 1, a);
    EmptyConcat(AgentTurns(turns[..n - 1], a));
  }

  lemma {:induction false} ConversationsAreSound(turns: seq<Turn>, n: nat, a: AgentId)
    requires n <= |turns| && forall i :: 0 <= i < n ==> TurnOk(turns, i)
    ensures SoundConversations(Segments(AgentTurns(turns[..n], a)), a)
  {
    if n > 0 {
      ConversationsAreSound(turns, n - 1, a);
      TurnsOfNext(turns, n, a);
      assert TurnOk(turns, n - 1);
      if turns[n - 1].agent == a {
        SoundNext(AgentTurns(turns[..n - 1], a), turns[n - 1]);
      }
    }
  }

  lemma ContinuesOne(mine: seq<Turn>, t: Turn)
    requires |Segments(mine)| <= 1 && (t.newConversation ==> mine == [])
    ensures |Segments(mine + [t])| <= 1
  {
    SegmentsAppend(mine, t);
    SegmentsNone(mine);
  }

  /** An agent with a capture was never reset. */
  lemma {:induction false} CapturedAgentHasOneConversation(turns: seq<Turn>, n: nat, a: AgentId, routed: map<AgentId, Blob>,
                                                            roles: map<AgentId, string>, allowSegments: bool)
    requires n <= |turns| && a in routed
    requires forall i :: 0 <= i < n ==> TurnProblem(turns, i, routed, roles, allowSegments).None?
    ensures |Segments(AgentTurns(turns[..n], a))| <= 1
  {
    if n > 0 {
      CapturedAgentHasOneConversation(turns, n - 1, a, routed, roles, allowSegments);
      TurnsOfNext(turns, n, a);
      assert TurnProblem(turns, n - 1, routed, roles, allowSegments).None?;
      HasAgentTurns(turns[..n - 1], a);
      if turns[n - 1].agent == a {
        ContinuesOne(AgentTurns(turns[..n - 1], a), turns[n - 1]);
      }
    }
  }

  // ---- Which stream is which conversation ----------------------------------------

  lemma {:induction false} StreamsForMembers(streams: seq<Stream>, a: AgentId, i: nat)
    requires i < |streams| && streams[i].agent == a
    ensures streams[i] in StreamsFor(streams, a)
  {
    var init := streams[..|streams| - 1];
    if i < |init| {
      StreamsForMembers(init, a, i);
      assert init[i] == streams[i];
    }
  }

  lemma {:induction false} StreamsForOnlyMembers(streams: seq<Stream>, a: AgentId, s: Stream)
    requires s in StreamsFor(streams, a)
    ensures s in streams
  {
    var init := streams[..|streams| - 1];
    if s in StreamsFor(init, a) {
      StreamsForOnlyMembers(init, a, s);
    }
  }

  predicate Owned(streams: seq<Stream>, roles: map<AgentId, string>) {
    forall i :: 0 <= i < |streams| ==> streams[i].agent in roles
  }

  lemma {:induction false} EveryStreamHasRole(session: string, roles: map<AgentId, string>, turns: seq<Turn>)
    requires Registered(roles, turns)
    ensures Owned(Assemble(session, roles, turns), roles)
  {
    if turns != [] {
      EveryStreamHasRole(session, roles, turns[..|turns| - 1]);
      LatestIs(Assemble(session, roles, turns[..|turns| - 1]), turns[|turns| - 1].agent);
    }
  }

  function Conversations(turns: seq<Turn>, a: AgentId): seq<seq<Turn>> {
    Segments(AgentTurns(turns, a))
  }

  lemma StreamIsConversation(session: string, roles: map<AgentId, string>, turns: seq<Turn>, i: nat) returns (k: nat)
    requires Registered(roles, turns) && i < |Assemble(session, roles, turns)|
    ensures var s := Assemble(session, roles, turns)[i];
            && s.agent in roles && k < |Conversations(turns, s.agent)|
            && s == SegmentStream(session, s.agent, roles[s.agent], k, Conversations(turns, s.agent)[k])
  {
    var streams := Assemble(session, roles, turns);
    var a := streams[i].agent;
    EveryStreamHasRole(session, roles, turns);
    assert a in roles;
    StreamsForMembers(streams, a, i);
    OneStreamPerConversation(session, roles, turns, a);
    k :| 0 <= k < |StreamsFor(streams, a)| && StreamsFor(streams, a)[k] == streams[i];
  }

  lemma ConversationIsStream(session: string, roles: map<AgentId, string>, turns: seq<Turn>, a: AgentId, k: nat) returns (i: nat)
    requires Registered(roles, turns) && a in roles && k < |Conversations(turns, a)|
    ensures i < |Assemble(session, roles, turns)|
    ensures Assemble(session, roles, turns)[i] == SegmentStream(session, a, roles[a], k, Conversations(turns, a)[k])
  {
    var streams := Assemble(session, roles, turns);
    OneStreamPerConversation(session, roles, turns, a);
    StreamsForOnlyMembers(streams, a, StreamsFor(streams, a)[k]);
    i :| 0 <= i < |streams| && streams[i] == StreamsFor(streams, a)[k];
  }

  // ---- The acceptance condition ----------------------------------------------------

  predicate ConversationOk(turns: seq<Turn>, a: AgentId, k: nat, routed: map<AgentId, Blob>, requireRouted: bool)
    requires k < |Conversations(turns, a)|
  {
    TurnsNamed(Conversations(turns, a)[k]) && FullyCaptured(Conversations(turns, a)[k], a, routed, requireRouted)
  }

  ghost predicate ConversationsOk(turns: seq<Turn>, routed: map<AgentId, Blob>, roles: map<AgentId, string>, requireRouted: bool) {
    forall a, k :: a in roles && 0 <= k < |Conversations(turns, a)| ==> ConversationOk(turns, a, k, routed, requireRouted)
  }

  lemma BlobFitsConversation(turns: seq<Turn>, a: AgentId, k: nat, routed: map<AgentId, Blob>,
                             roles: map<AgentId, string>, allowSegments: bool)
    requires BlobsOk(turns, routed) && FirstProblem(turns, |turns|, routed, roles, allowSegments).None?
    requires a in routed && k < |Conversations(turns, a)|
    ensures BlobOk(routed[a], |TokensOf(Conversations(turns, a)[k])|)
  {
    WholeSlice(turns);
    CapturedAgentHasOneConversation(turns, |turns|, a, routed, roles, allowSegments);
    OnlyConversation(AgentTurns(turns, a), k);
  }

  lemma OnlyConversation(mine: seq<Turn>, k: nat)
    requires |Segments(mine)| <= 1 && k < |Segments(mine)|
    ensures TokensOf(Segments(mine)[k]) == Rebuilt(mine)
  {
    var segments := Segments(mine);
    assert mine != [] by {
      SegmentsNone(mine);
    }
    assert TokensOf(segments[|segments| - 1]) == Rebuilt(mine) by {
      LastConversationIsRebuilt(mine);
    }
    assert k == |segments| - 1;
  }

  lemma OneConversationValid(session: string, turns: seq<Turn>, a: AgentId, k: nat, routed: map<AgentId, Blob>,
                             roles: map<AgentId, string>, allowSegments: bool, requireRouted: bool)
    requires RolesOk(roles) && IsName(session) && RecordOk(turns, routed, requireRouted) && a in roles
    requires FirstProblem(turns, |turns|, routed, roles, allowSegments).None?
    requires k < |Conversations(turns, a)|
    ensures ValidStream(Attach(SegmentStream(session, a, roles[a], k, Conversations(turns, a)[k]), routed), requireRouted)
       <==> ConversationOk(turns, a, k, routed, requireRouted)
  {
    WholeSlice(turns);
    ConversationsAreSound(turns, |turns|, a);
    var turnsOfIt := Conversations(turns, a)[k];
    assert SoundConversation(turnsOfIt, a);
    if a in routed {
      BlobFitsConversation(turns, a, k, routed, roles, allowSegments);
    }
    ConversationValid(session, roles, a, k, turnsOfIt, routed, requireRouted);
  }

  lemma StreamsValid(session: string, turns: seq<Turn>, routed: map<AgentId, Blob>,
                     roles: map<AgentId, string>, allowSegments: bool, requireRouted: bool)
    requires RolesOk(roles) && IsName(session) && RecordOk(turns, routed, requireRouted) && Registered(roles, turns)
    requires FirstProblem(turns, |turns|, routed, roles, allowSegments).None?
    requires ConversationsOk(turns, routed, roles, requireRouted)
    ensures AllValid(AttachAll(Assemble(session, roles, turns), routed), requireRouted)
  {
    var streams := Assemble(session, roles, turns);
    forall i | 0 <= i < |streams| ensures ValidStream(AttachAll(streams, routed)[i], requireRouted) {
      var a := streams[i].agent;
      var k := StreamIsConversation(session, roles, turns, i);
      assert ConversationOk(turns, a, k, routed, requireRouted);
      OneConversationValid(session, turns, a, k, routed, roles, allowSegments, requireRouted);
    }
  }

  lemma ValidStreamsOk(session: string, turns: seq<Turn>, routed: map<AgentId, Blob>,
                       roles: map<AgentId, string>, allowSegments: bool, requireRouted: bool)
    requires RolesOk(roles) && IsName(session) && RecordOk(turns, routed, requireRouted) && Registered(roles, turns)
    requires FirstProblem(turns, |turns|, routed, roles, allowSegments).None?
    requires AllValid(AttachAll(Assemble(session, roles, turns), routed), requireRouted)
    ensures ConversationsOk(turns, routed, roles, requireRouted)
  {
    var streams := Assemble(session, roles, turns);
    forall a, k | a in roles && 0 <= k < |Conversations(turns, a)| ensures ConversationOk(turns, a, k, routed, requireRouted) {
      var i := ConversationIsStream(session, roles, turns, a, k);
      assert ValidStream(AttachAll(streams, routed)[i], requireRouted);
      OneConversationValid(session, turns, a, k, routed, roles, allowSegments, requireRouted);
    }
  }

  ghost predicate Convertible(session: string, turns: seq<Turn>, routed: map<AgentId, Blob>,
                              roles: map<AgentId, string>, allowSegments: bool, requireRouted: bool)
  {
    && RolesOk(roles) && IsName(session) && RecordOk(turns, routed, requireRouted)
    && (forall i :: 0 <= i < |turns| ==> TurnProblem(turns, i, routed, roles, allowSegments).None?)
    && ConversationsOk(turns, routed, roles, requireRouted)
  }

  /**
   A record converts exactly when it is structurally sound, its agents are registered, it resets only where
   that is allowed, its names are well formed and every capture it attaches (or needs) is complete. In
   particular the converter's own validation never rejects a sound record for its masks, boundaries or lengths.
   */
  lemma ConvertsExactlyWhenSound(session: string, turns: seq<Turn>, routed: map<AgentId, Blob>,
                                 roles: map<AgentId, string>, allowSegments: bool, requireRouted: bool)
    ensures Convert(session, turns, routed, roles, allowSegments, requireRouted).Ok?
       <==> Convertible(session, turns, routed, roles, allowSegments, requireRouted)
  {
    if RolesOk(roles) && RecordOk(turns, routed, requireRouted) && IsName(session)
       && FirstProblem(turns, |turns|, routed, roles, allowSegments).None?
    {
      NoProblem(turns, |turns|, routed, roles, allowSegments);
      WholeSlice(turns);
      if ConversationsOk(turns, routed, roles, requireRouted) {
        StreamsValid(session, turns, routed, roles, allowSegments, requireRouted);
      } else if AllValid(AttachAll(Assemble(session, roles, turns), routed), requireRouted) {
        ValidStreamsOk(session, turns, routed, roles, allowSegments, requireRouted);
      }
    }
  }

  /** A conversion yields one stream per conversation, with exactly its tokens, cut by its own boundaries into its turns. */
  lemma ConversionIsExact(session: string, turns: seq<Turn>, routed: map<AgentId, Blob>,
                          roles: map<AgentId, string>, allowSegments: bool, requireRouted: bool, a: AgentId, k: nat)
    returns (i: nat)
    requires Convert(session, turns, routed, roles, allowSegments, requireRouted).Ok?
    requires k < |Conversations(turns, a)|
    ensures var streams := Convert(session, turns, routed, roles, allowSegments, requireRouted).value;
            && i < |streams| && streams[i].agent == a && streams[i].segment == k
            && streams[i].tokens == TokensOf(Conversations(turns, a)[k])
            && CutsTo(streams[i], Conversations(turns, a)[k])
  {
    NoProblem(turns, |turns|, routed, roles, allowSegments);
    WholeSlice(turns);
    ConversationsAreSound(turns, |turns|, a);
    var mine := Conversations(turns, a)[k];
    assert SoundConversation(mine, a);
    RecordedAgentRegistered(turns, roles, a);
    i := ConversationIsStream(session, roles, turns, a, k);
    SegmentIdentity(session, a, roles[a], k, mine);
    CutGivesTurnsBack(session, a, roles[a], k, mine);
    AttachKeepsCuts(Assemble(session, roles, turns)[i], routed, mine);
  }

  lemma RecordedAgentRegistered(turns: seq<Turn>, roles: map<AgentId, string>, a: AgentId)
    requires Registered(roles, turns) && Conversations(turns, a) != []
    ensures a in roles
  {
    SegmentsNone(AgentTurns(turns, a));
    HasAgentTurns(turns, a);
  }
}
