/**
 Converting a whole session record (proxyserver/training.py, record_to_streams) and exactly which
 records convert.
 */
module TrainingRecords {
  import opened Wrappers
  import opened Text
  import opened Capture
  import opened Recorder
  import opened Training
  import opened TrainingStreams
  import opened TrainingChecks

  // ---- The conversion ----------------------------------------------------------

  predicate RolesOk(roles: map<AgentId, string>) {
    forall a :: a in roles ==> (a.Some? ==> IsName(a.value)) && IsName(roles[a])
  }

  function TurnProblem(turns: seq<Turn>, i: nat, routed: map<AgentId, Blob>, roles: map<AgentId, string>, allowSegments: bool): Option<Error>
    requires i < |turns|
  {
    var t := turns[i];
    if t.agent !in roles then Some(UnregisteredAgent)
    else if t.newConversation && HasAgent(turns[..i], t.agent) && (!allowSegments || t.agent in routed) then Some(ResetNotAllowed)
    else None
  }

  /** The first turn that cannot be converted decides the error. */
  function FirstProblem(turns: seq<Turn>, n: nat, routed: map<AgentId, Blob>, roles: map<AgentId, string>, allowSegments: bool): (r: Option<Error>)
    requires n <= |turns|
    ensures r.None? <==> forall i :: 0 <= i < n ==> TurnProblem(turns, i, routed, roles, allowSegments).None?
  {
    if n == 0 then None
    else if FirstProblem(turns, n - 1, routed, roles, allowSegments).Some? then FirstProblem(turns, n - 1, routed, roles, allowSegments)
    else TurnProblem(turns, n - 1, routed, roles, allowSegments)
  }

  lemma NoProblem(turns: seq<Turn>, n: nat, routed: map<AgentId, Blob>, roles: map<AgentId, string>, allowSegments: bool)
    requires n <= |turns| && FirstProblem(turns, n, routed, roles, allowSegments).None?
    ensures Registered(roles, turns[..n])
  {
    forall i | 0 <= i < n ensures turns[i].agent in roles {
      assert TurnProblem(turns, i, routed, roles, allowSegments).None?;
    }
  }

  function Attach(s: Stream, routed: map<AgentId, Blob>): Stream {
    s.(routed := if s.agent in routed then Some(routed[s.agent]) else None)
  }

  function AttachAll(streams: seq<Stream>, routed: map<AgentId, Blob>): (r: seq<Stream>)
    ensures |r| == |streams| && forall i :: 0 <= i < |r| ==> r[i] == Attach(streams[i], routed)
  {
    seq(|streams|, i requires 0 <= i < |streams| => Attach(streams[i], routed))
  }

  predicate AllValid(streams: seq<Stream>, requireRouted: bool) {
    forall i :: 0 <= i < |streams| ==> ValidStream(streams[i], requireRouted)
  }

  function Convert(session: string, turns: seq<Turn>, routed: map<AgentId, Blob>, roles: map<AgentId, string>,
                   allowSegments: bool, requireRouted: bool): Result<seq<Stream>, Error>
  {
    if !RolesOk(roles) then Err(BadName)
    else if !RecordOk(turns, routed, requireRouted) then Err(InvalidRecord)
    else if !IsName(session) then Err(BadName)
    else
      var problem := FirstProblem(turns, |turns|, routed, roles, allowSegments);
      if problem.Some? then Err(problem.value)
      else
        NoProblem(turns, |turns|, routed, roles, allowSegments);
        WholeSlice(turns);
        var streams := AttachAll(Assemble(session, roles, turns), routed);
        if AllValid(streams, requireRouted) then Ok(streams) else Err(InvalidStream)
  }

  lemma WholeSlice<T>(s: seq<T>)
    ensures s[..|s|] == s
  {
  }

  // ---- The loop that performs it -------------------------------------------------

  ghost predicate Tracks(current: map<AgentId, nat>, streams: seq<Stream>) {
    forall a :: Latest(streams, a) == if a in current then Some(current[a]) else None
  }

  lemma LatestUnique(streams: seq<Stream>, a: AgentId, k: nat)
    requires k < |streams| && streams[k].agent == a && forall i :: k < i < |streams| ==> streams[i].agent != a
    ensures Latest(streams, a) == Some(k)
  {
    LatestIs(streams, a);
  }

  lemma LatestNone(streams: seq<Stream>, a: AgentId)
    requires forall i :: 0 <= i < |streams| ==> streams[i].agent != a
    ensures Latest(streams, a).None?
  {
    LatestIs(streams, a);
  }

  lemma LatestAfterAppend(streams: seq<Stream>, s: Stream, a: AgentId)
    ensures Latest(streams + [s], a) == if s.agent == a then Some(|streams|) else Latest(streams, a)
  {
    assert (streams + [s])[..|streams|] == streams;
  }

  lemma LatestAfterUpdate(streams: seq<Stream>, k: nat, s: Stream, a: AgentId)
    requires k < |streams| && s.agent == streams[k].agent
    ensures Latest(streams[k := s], a) == Latest(streams, a)
  {
    LatestIs(streams, a);
    if Latest(streams, a).Some? {
      LatestUnique(streams[k := s], a, Latest(streams, a).value);
    } else {
      LatestNone(streams[k := s], a);
    }
  }

  lemma TracksAppend(current: map<AgentId, nat>, streams: seq<Stream>, s: Stream)
    requires Tracks(current, streams)
    ensures Tracks(current[s.agent := |streams|], streams + [s])
  {
    forall a ensures Latest(streams + [s], a) == if a == s.agent then Some(|streams|) else Latest(streams, a) {
      LatestAfterAppend(streams, s, a);
    }
  }

  lemma TracksUpdate(current: map<AgentId, nat>, streams: seq<Stream>, k: nat, s: Stream)
    requires Tracks(current, streams) && k < |streams| && s.agent == streams[k].agent
    ensures Tracks(current, streams[k := s])
  {
    forall a ensures Latest(streams[k := s], a) == Latest(streams, a) {
      LatestAfterUpdate(streams, k, s, a);
    }
  }

  lemma SegmentsNone(turns: seq<Turn>)
    ensures Segments(turns) == [] <==> turns == []
  {
  }

  /** An agent has a stream exactly when it has recorded a turn. */
  lemma StreamOnceRecorded(session: string, roles: map<AgentId, string>, turns: seq<Turn>, a: AgentId)
    requires Registered(roles, turns) && a in roles
    ensures Latest(Assemble(session, roles, turns), a).Some? <==> HasAgent(turns, a)
  {
    OneStreamPerConversation(session, roles, turns, a);
    StreamsForLatest(Assemble(session, roles, turns), a);
    HasAgentTurns(turns, a);
    SegmentsNone(AgentTurns(turns, a));
  }

  lemma AssembleNext(session: string, roles: map<AgentId, string>, turns: seq<Turn>, i: nat)
    requires i < |turns| && Registered(roles, turns[..i]) && turns[i].agent in roles
    ensures Registered(roles, turns[..i + 1])
    ensures Assemble(session, roles, turns[..i + 1]) == AddTurn(session, roles, Assemble(session, roles, turns[..i]), turns[i])
  {
    assert turns[..i + 1][..i] == turns[..i];
  }

  method AddOne(session: string, roles: map<AgentId, string>, streams: seq<Stream>, current: map<AgentId, nat>, t: Turn)
    returns (streams': seq<Stream>, current': map<AgentId, nat>)
    requires t.agent in roles && Tracks(current, streams)
    ensures streams' == AddTurn(session, roles, streams, t)
    ensures Tracks(current', streams')
  {
    LatestIs(streams, t.agent);
    var index: nat;
    streams', current' := streams, current;
    assert Latest(streams, t.agent) == if t.agent in current then Some(current[t.agent]) else None;
    if t.agent !in current || t.newConversation {
      var segment := if t.agent in current then streams[current[t.agent]].segment + 1 else 0;
      streams' := streams + [Extend(Empty(session, t.agent, roles[t.agent], segment), t)];
      current' := current[t.agent := |streams|];
      TracksAppend(current, streams, streams'[|streams|]);
    } else {
      index := current[t.agent];
      streams' := streams[index := Extend(streams[index], t)];
      TracksUpdate(current, streams, index, Extend(streams[index], t));
    }
  }

  method TakeTurn(session: string, turns: seq<Turn>, i: nat, routed: map<AgentId, Blob>, roles: map<AgentId, string>,
                  allowSegments: bool, streams: seq<Stream>, current: map<AgentId, nat>)
    returns (problem: Option<Error>, streams': seq<Stream>, current': map<AgentId, nat>)
    requires i < |turns| && Registered(roles, turns[..i])
    requires streams == Assemble(session, roles, turns[..i]) && Tracks(current, streams)
    ensures problem == TurnProblem(turns, i, routed, roles, allowSegments)
    ensures problem.None? ==>
              Registered(roles, turns[..i + 1]) && streams' == Assemble(session, roles, turns[..i + 1]) && Tracks(current', streams')
  {
    var t := turns[i];
    streams', current' := streams, current;
    if t.agent !in roles {
      return Some(UnregisteredAgent), streams, current;
    }
    StreamOnceRecorded(session, roles, turns[..i], t.agent);
    assert Latest(streams, t.agent).Some? <==> t.agent in current;
    if t.agent in current && t.newConversation && (!allowSegments || t.agent in routed) {
      return Some(ResetNotAllowed), streams, current;
    }
    AssembleNext(session, roles, turns, i);
    streams', current' := AddOne(session, roles, streams, current, t);
    problem := None;
  }

  /** Takes the turns in order until one cannot be converted. */
  method TakeTurns(session: string, turns: seq<Turn>, routed: map<AgentId, Blob>, roles: map<AgentId, string>, allowSegments: bool)
    returns (problem: Option<Error>, streams: seq<Stream>)
    ensures problem == FirstProblem(turns, |turns|, routed, roles, allowSegments)
    ensures problem.None? ==> Registered(roles, turns) && streams == Assemble(session, roles, turns)
  {
    streams, problem := [], None;
    var current: map<AgentId, nat> := map[];
    for i := 0 to |turns|
      invariant FirstProblem(turns, i, routed, roles, allowSegments).None?
      invariant Registered(roles, turns[..i])
      invariant streams == Assemble(session, roles, turns[..i])
      invariant Tracks(current, streams)
      invariant problem.None?
    {
      problem, streams, current := TakeTurn(session, turns, i, routed, roles, allowSegments, streams, current);
      if problem.Some? {
        FirstProblemStays(turns, i, |turns|, routed, roles, allowSegments);
        return;
      }
    }
    WholeSlice(turns);
  }

  method RecordToStreams(session: string, turns: seq<Turn>, routed: map<AgentId, Blob>, roles: map<AgentId, string>,
                         allowSegments: bool, requireRouted: bool) returns (r: Result<seq<Stream>, Error>)
    ensures r == Convert(session, turns, routed, roles, allowSegments, requireRouted)
  {
    if !RolesOk(roles) {
      return Err(BadName);
    }
    var recordOk := ValidateRecord(turns, routed, requireRouted);
    if !recordOk {
      return Err(InvalidRecord);
    }
    if !IsName(session) {
      return Err(BadName);
    }
    var problem, streams := TakeTurns(session, turns, routed, roles, allowSegments);
    if problem.Some? {
      return Err(problem.value);
    }
    r := CheckStreams(streams, routed, requireRouted);
  }

  /** The converter's last pass: attach each agent's capture and validate each stream. */
  method CheckStreams(streams: seq<Stream>, routed: map<AgentId, Blob>, requireRouted: bool) returns (r: Result<seq<Stream>, Error>)
    ensures r == if AllValid(AttachAll(streams, routed), requireRouted) then Ok(AttachAll(streams, routed)) else Err(InvalidStream)
  {
    var attached := streams;
    for i := 0 to |streams|
      invariant |attached| == |streams|
      invariant attached[i..] == streams[i..]
      invariant forall j :: 0 <= j < i ==> attached[j] == Attach(streams[j], routed)
      invariant forall j :: 0 <= j < i ==> ValidStream(AttachAll(streams, routed)[j], requireRouted)
    {
      assert attached[i..][0] == streams[i..][0];
      attached := attached[i := Attach(attached[i], routed)];
      var ok := Validate(attached[i], requireRouted);
      if !ok {
        return Err(InvalidStream);
      }
    }
    assert attached == AttachAll(streams, routed);
    r := Ok(attached);
  }

  lemma {:induction false} FirstProblemStays(turns: seq<Turn>, i: nat, n: nat, routed: map<AgentId, Blob>, roles: map<AgentId, string>, allowSegments: bool)
    requires i < n <= |turns|
    requires FirstProblem(turns, i, routed, roles, allowSegments).None?
    requires TurnProblem(turns, i, routed, roles, allowSegments).Some?
    ensures FirstProblem(turns, n, routed, roles, allowSegments) == TurnProblem(turns, i, routed, roles, allowSegments)
  {
    if n > i + 1 {
      FirstProblemStays(turns, i, n - 1, routed, roles, allowSegments);
    }
  }

  // ---- Exactly which records convert -----------------------------------------------

  predicate TurnsNamed(turns: seq<Turn>) {
    forall i :: 0 <= i < |turns| ==> Named(turns[i].meta.weightVersion, turns[i].meta.finishReason)
  }

  /** No conversation starts with sampled tokens. */
  predicate Leads(turns: seq<Turn>) {
    forall i :: 0 <= i < |turns| && turns[i].completion != [] && turns[i].prompt == [] ==> TokensOf(turns[..i]) != []
  }

  /** A routing capture, once wanted or attached, reaches every token of the conversation but the last. */
  predicate FullyCaptured(turns: seq<Turn>, a: AgentId, routed: map<AgentId, Blob>, requireRouted: bool) {
    TokensOf(turns) != [] && (requireRouted || a in routed) ==> a in routed && routed[a].rows == |TokensOf(turns)| - 1
  }

  function StripAll(turns: seq<Turn>): (r: seq<Turn>)
    ensures |r| == |turns| && forall i :: 0 <= i < |r| ==> r[i] == Stripped(turns[i])
  {
    seq(|turns|, i requires 0 <= i < |turns| => Stripped(turns[i]))
  }

  predicate OneAgent(turns: seq<Turn>, a: AgentId) {
    forall i :: 0 <= i < |turns| ==> turns[i].agent == a
  }

  lemma {:induction false} AllAgentTurns(turns: seq<Turn>, a: AgentId)
    requires OneAgent(turns, a)
    ensures AgentTurns(turns, a) == turns
  {
    if turns != [] {
      AllAgentTurns(turns[..|turns| - 1], a);
      assert turns == turns[..|turns| - 1] + [turns[|turns| - 1]];
    }
  }

  lemma {:induction false} OneSegment(turns: seq<Turn>)
    requires turns != []
    ensures |Segments(StripAll(turns))| == 1
    ensures Rebuilt(StripAll(turns)) == TokensOf(turns)
  {
    var init := turns[..|turns| - 1];
    assert StripAll(turns)[..|turns| - 1] == StripAll(init);
    if init != [] {
      OneSegment(init);
    }
  }

  lemma RebuiltStripped(turns: seq<Turn>, a: AgentId, n: nat)
    requires OneAgent(turns, a) && n <= |turns|
    ensures AgentTurns(StripAll(turns)[..n], a) == StripAll(turns[..n])
    ensures Rebuilt(StripAll(turns[..n])) == TokensOf(turns[..n])
  {
    assert StripAll(turns)[..n] == StripAll(turns[..n]);
    AllAgentTurns(StripAll(turns[..n]), a);
    if n > 0 {
      OneSegment(turns[..n]);
    }
  }

  lemma StrippedTurnsOk(turns: seq<Turn>, a: AgentId)
    requires OneAgent(turns, a) && LogprobsAligned(turns) && Leads(turns)
    ensures forall i :: 0 <= i < |turns| ==> TurnOk(StripAll(turns), i)
  {
    forall i | 0 <= i < |turns| ensures TurnOk(StripAll(turns), i) {
      RebuiltStripped(turns, a, i);
    }
  }

  function Only(a: AgentId, routed: map<AgentId, Blob>): map<AgentId, Blob> {
    if a in routed then map[a := routed[a]] else map[]
  }

  lemma StrippedTotals(turns: seq<Turn>, a: AgentId)
    requires turns != [] && OneAgent(turns, a)
    ensures HasAgent(StripAll(turns), a)
    ensures AgentTurns(StripAll(turns), a) == StripAll(turns)
    ensures Rebuilt(StripAll(turns)) == TokensOf(turns) && |Segments(StripAll(turns))| == 1
  {
    RebuiltStripped(turns, a, |turns|);
    WholeSlice(turns);
    WholeSlice(StripAll(turns));
    OneSegment(turns);
    assert StripAll(turns)[0].agent == a;
  }

  lemma StrippedBlobsOk(turns: seq<Turn>, a: AgentId, routed: map<AgentId, Blob>)
    requires turns != [] && OneAgent(turns, a)
    requires a in routed ==> BlobOk(routed[a], |TokensOf(turns)|)
    ensures BlobsOk(StripAll(turns), Only(a, routed))
  {
    StrippedTotals(turns, a);
  }

  lemma StrippedCovered(turns: seq<Turn>, a: AgentId, routed: map<AgentId, Blob>)
    requires turns != [] && OneAgent(turns, a)
    ensures Covered(StripAll(turns), Only(a, routed))
       <==> (TokensOf(turns) != [] ==> a in routed && routed[a].rows == |TokensOf(turns)| - 1)
  {
    StrippedTotals(turns, a);
    var cut := StripAll(turns);
    var own := Only(a, routed);
    assert AgentCovered(cut, own, a) <==> (TokensOf(turns) != [] ==> a in routed && routed[a].rows == |TokensOf(turns)| - 1);
    assert Covered(cut, own) ==> AgentCovered(cut, own, cut[0].agent);
    assert forall i :: 0 <= i < |cut| ==> cut[i].agent == a;
  }

  /** The record check a stream's own turns go through asks only for the capture to be complete. */
  lemma StrippedRecordOk(turns: seq<Turn>, a: AgentId, routed: map<AgentId, Blob>, requireRouted: bool)
    requires turns != [] && OneAgent(turns, a) && LogprobsAligned(turns) && Leads(turns)
    requires a in routed ==> BlobOk(routed[a], |TokensOf(turns)|)
    ensures RecordOk(StripAll(turns), Only(a, routed), requireRouted || a in routed)
       <==> FullyCaptured(turns, a, routed, requireRouted)
  {
    StrippedTurnsOk(turns, a);
    StrippedBlobsOk(turns, a, routed);
    StrippedCovered(turns, a, routed);
  }

  lemma AttachKeepsCuts(s: Stream, routed: map<AgentId, Blob>, turns: seq<Turn>)
    requires CutsTo(s, turns)
    ensures CutsTo(Attach(s, routed), turns)
  {
    forall i | 0 <= i < |turns| ensures CutsOne(Attach(s, routed), i, turns[i]) {
      assert CutsOne(s, i, turns[i]);
      assert SpanFits(Attach(s, routed), i);
    }
  }

  lemma CutsAll(s: Stream, turns: seq<Turn>)
    requires CutsTo(s, turns)
    ensures forall i :: 0 <= i < |turns| ==> SpanFits(s, i)
    ensures CutTurns(s, |turns|) == StripAll(turns)
  {
    forall i | 0 <= i < |turns| ensures SpanFits(s, i) && CutTurn(s, i) == Stripped(turns[i]) {
      assert CutsOne(s, i, turns[i]);
    }
  }

  lemma CutsNamed(s: Stream, turns: seq<Turn>)
    requires CutsTo(s, turns)
    ensures (forall i :: 0 <= i < |turns| ==> SpanNamed(s.completions[i])) <==> TurnsNamed(turns)
  {
    forall i | 0 <= i < |turns|
      ensures SpanNamed(s.completions[i]) <==> Named(turns[i].meta.weightVersion, turns[i].meta.finishReason)
    {
      assert CutsOne(s, i, turns[i]);
    }
  }

  /** One conversation's stream passes validation exactly when its names are well formed and its capture complete. */
  lemma ConversationValid(session: string, roles: map<AgentId, string>, a: AgentId, segment: nat, turns: seq<Turn>,
                          routed: map<AgentId, Blob>, requireRouted: bool)
    requires RolesOk(roles) && a in roles && IsName(session)
    requires turns != [] && OneAgent(turns, a) && LogprobsAligned(turns) && Leads(turns)
    requires a in routed ==> BlobOk(routed[a], |TokensOf(turns)|)
    ensures ValidStream(Attach(SegmentStream(session, a, roles[a], segment, turns), routed), requireRouted)
       <==> TurnsNamed(turns) && FullyCaptured(turns, a, routed, requireRouted)
  {
    var bare := SegmentStream(session, a, roles[a], segment, turns);
    var s := Attach(bare, routed);
    SegmentIdentity(session, a, roles[a], segment, turns);
    CutGivesTurnsBack(session, a, roles[a], segment, turns);
    AttachKeepsCuts(bare, routed, turns);
    CutsAll(s, turns);
    CutsNamed(s, turns);
    StrippedRecordOk(turns, a, routed, requireRouted);
  }
}
