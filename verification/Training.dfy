/**
 From a session record to training streams (proxyserver/training.py) and the integrity checks on the
 way (proxyserver/record_validation.py).
 */
module Training {
  import opened Wrappers
  import opened Messages
  import opened Capture
  import opened Recorder

  /** One recorded turn's [start, end) completion span in a stream, with its metadata. */
  datatype Span = Span(start: nat, end: nat, weightVersion: Option<string>, sampling: Option<map<string, real>>,
                       finishReason: Option<string>)

  datatype Stream = Stream(session: string, agent: AgentId, role: string, segment: nat, tokens: seq<Token>,
                           mask: seq<nat>, logprobs: seq<real>, completions: seq<Span>, routed: Option<Blob>)

  datatype Error = BadName | InvalidRecord | UnregisteredAgent | ResetNotAllowed | InvalidStream

  // ---- The record's integrity ----------------------------------------------

  function Repeat<T>(x: T, n: nat): (r: seq<T>)
    ensures |r| == n && forall i :: 0 <= i < n ==> r[i] == x
  {
    seq(n, i => x)
  }

  /** The agent's conversations in a record, oldest first: a turn opens one when it is the agent's first or says so. */
  function Segments(turns: seq<Turn>): (r: seq<seq<Turn>>)
    ensures turns != [] ==> r != []
    ensures |r| <= |turns|
  {
    if turns == [] then []
    else
      var last := turns[|turns| - 1];
      var earlier := Segments(turns[..|turns| - 1]);
      if last.newConversation || |turns| == 1 then earlier + [[last]]
      else earlier[..|earlier| - 1] + [earlier[|earlier| - 1] + [last]]
  }

  function TokensOf(turns: seq<Turn>): seq<Token> {
    if turns == [] then []
    else TokensOf(turns[..|turns| - 1]) + turns[|turns| - 1].prompt + turns[|turns| - 1].completion
  }

  /** The tokens recorded so far for the conversation a turn belongs to, before that turn. */
  function LengthBefore(turns: seq<Turn>, i: nat): nat
    requires i < |turns|
  {
    if turns[i].newConversation then 0 else |Rebuilt(AgentTurns(turns[..i], turns[i].agent))|
  }

  predicate TurnOk(turns: seq<Turn>, i: nat)
    requires i < |turns|
  {
    && |turns[i].logprobs| == |turns[i].completion|
    && (turns[i].completion != [] && turns[i].prompt == [] ==> LengthBefore(turns, i) > 0)
  }

  predicate BlobOk(b: Blob, length: nat) {
    && 0 <= b.rows && 0 < b.cols && b.start == 0 && b.rows <= (if length == 0 then 0 else length - 1)
    && b.data.Some? && |b.data.value| == b.rows * b.cols
  }

  predicate HasAgent(turns: seq<Turn>, agent: AgentId) {
    exists i :: 0 <= i < |turns| && turns[i].agent == agent
  }

  predicate BlobsOk(turns: seq<Turn>, routed: map<AgentId, Blob>) {
    forall agent :: agent in routed ==>
      HasAgent(turns, agent) && BlobOk(routed[agent], |Rebuilt(AgentTurns(turns, agent))|)
  }

  /** Full coverage of an agent that has tokens, in a record where it never reset. */
  predicate AgentCovered(turns: seq<Turn>, routed: map<AgentId, Blob>, a: AgentId) {
    var mine := AgentTurns(turns, a);
    Rebuilt(mine) != [] ==>
      |Segments(mine)| == 1 && a in routed && routed[a].rows == |Rebuilt(mine)| - 1
  }

  predicate Covered(turns: seq<Turn>, routed: map<AgentId, Blob>) {
    forall i :: 0 <= i < |turns| ==> AgentCovered(turns, routed, turns[i].agent)
  }

  predicate RecordOk(turns: seq<Turn>, routed: map<AgentId, Blob>, requireRouted: bool) {
    && (forall i :: 0 <= i < |turns| ==> TurnOk(turns, i))
    && BlobsOk(turns, routed)
    && (requireRouted ==> Covered(turns, routed))
  }

  lemma HasAgentTurns(turns: seq<Turn>, agent: AgentId)
    ensures HasAgent(turns, agent) <==> AgentTurns(turns, agent) != []
  {
    if turns != [] {
      var init := turns[..|turns| - 1];
      HasAgentTurns(init, agent);
      assert turns == init + [turns[|turns| - 1]];
      if HasAgent(init, agent) {
        var i :| 0 <= i < |init| && init[i].agent == agent;
        assert turns[i].agent == agent;
      }
      if HasAgent(turns, agent) && turns[|turns| - 1].agent != agent {
        var i :| 0 <= i < |turns| && turns[i].agent == agent;
        assert init[i].agent == agent;
      }
    }
  }

  lemma TakeNext(turns: seq<Turn>, i: nat, agent: AgentId)
    requires i < |turns|
    ensures turns[..i + 1] == turns[..i] + [turns[i]]
    ensures AgentTurns(turns[..i + 1], agent) == AgentTurns(turns[..i], agent) + if turns[i].agent == agent then [turns[i]] else []
  {
    assert turns[..i + 1] == turns[..i] + [turns[i]];
    AgentTurnsAppend(turns[..i], turns[i], agent);
  }

  lemma SegmentsAppend(turns: seq<Turn>, t: Turn)
    ensures var earlier := Segments(turns);
            Segments(turns + [t]) == if t.newConversation || turns == [] then earlier + [[t]]
                                     else earlier[..|earlier| - 1] + [earlier[|earlier| - 1] + [t]]
  {
    assert (turns + [t])[..|turns|] == turns;
  }

  /** What the record check keeps about one agent after a prefix of the turns. */
  predicate TalliedFor(turns: seq<Turn>, lengths: map<AgentId, nat>, conversations: map<AgentId, nat>, a: AgentId) {
    var mine := AgentTurns(turns, a);
    && (a in lengths <==> mine != []) && (a in conversations <==> mine != [])
    && (a in lengths ==> lengths[a] == |Rebuilt(mine)|)
    && (a in conversations ==> conversations[a] == |Segments(mine)|)
  }

  ghost predicate Tallied(turns: seq<Turn>, lengths: map<AgentId, nat>, conversations: map<AgentId, nat>) {
    forall a :: TalliedFor(turns, lengths, conversations, a)
  }

  function LengthAfter(lengths: map<AgentId, nat>, t: Turn): nat {
    (if t.agent !in lengths || t.newConversation then 0 else lengths[t.agent]) + |t.prompt| + |t.completion|
  }

  function ConversationsAfter(conversations: map<AgentId, nat>, t: Turn): nat {
    if t.agent !in conversations then 1
    else if t.newConversation then conversations[t.agent] + 1
    else conversations[t.agent]
  }

  lemma TallyOwn(turns: seq<Turn>, i: nat, lengths: map<AgentId, nat>, conversations: map<AgentId, nat>)
    requires i < |turns| && TalliedFor(turns[..i], lengths, conversations, turns[i].agent)
    ensures LengthBefore(turns, i) == LengthAfter(lengths, turns[i]) - |turns[i].prompt| - |turns[i].completion|
    ensures var after := AgentTurns(turns[..i + 1], turns[i].agent);
            && after != []
            && |Rebuilt(after)| == LengthAfter(lengths, turns[i])
            && |Segments(after)| == ConversationsAfter(conversations, turns[i])
  {
    var t := turns[i];
    var mine := AgentTurns(turns[..i], t.agent);
    TakeNext(turns, i, t.agent);
    RebuiltAppend(mine, t);
    SegmentsAppend(mine, t);
  }

  lemma TallyNext(turns: seq<Turn>, i: nat, lengths: map<AgentId, nat>, conversations: map<AgentId, nat>)
    requires i < |turns| && Tallied(turns[..i], lengths, conversations)
    ensures LengthBefore(turns, i) == LengthAfter(lengths, turns[i]) - |turns[i].prompt| - |turns[i].completion|
    ensures Tallied(turns[..i + 1], lengths[turns[i].agent := LengthAfter(lengths, turns[i])],
                    conversations[turns[i].agent := ConversationsAfter(conversations, turns[i])])
  {
    assert TalliedFor(turns[..i], lengths, conversations, turns[i].agent);
    TallyOwn(turns, i, lengths, conversations);
    var taken := turns[..i + 1];
    var lengths' := lengths[turns[i].agent := LengthAfter(lengths, turns[i])];
    var conversations' := conversations[turns[i].agent := ConversationsAfter(conversations, turns[i])];
    forall a ensures TalliedFor(taken, lengths', conversations', a) {
      if a != turns[i].agent {
        TakeNext(turns, i, a);
        EmptyConcat(AgentTurns(turns[..i], a));
        assert TalliedFor(turns[..i], lengths, conversations, a);
      }
    }
  }

  /** The part of the record check that reads one turn. */
  method CheckTurn(turns: seq<Turn>, i: nat, length: nat) returns (ok: bool)
    requires i < |turns| && length == LengthBefore(turns, i)
    ensures ok <==> TurnOk(turns, i)
  {
    var t := turns[i];
    if t.completion != [] && t.prompt == [] && length == 0 {
      return false;
    }
    return |t.logprobs| == |t.completion|;
  }

  /** Validates a record before anything is built from it: the checks that apply to its values, in one pass over its turns. */
  method ValidateRecord(turns: seq<Turn>, routed: map<AgentId, Blob>, requireRouted: bool) returns (ok: bool)
    ensures ok <==> RecordOk(turns, routed, requireRouted)
  {
    var lengths: map<AgentId, nat> := map[];
    var conversations: map<AgentId, nat> := map[];
    for i := 0 to |turns|
      invariant Tallied(turns[..i], lengths, conversations)
      invariant forall j :: 0 <= j < i ==> TurnOk(turns, j)
    {
      var t := turns[i];
      TallyNext(turns, i, lengths, conversations);
      var length := if t.agent !in lengths || t.newConversation then 0 else lengths[t.agent];
      var turnOk := CheckTurn(turns, i, length);
      if !turnOk {
        return false;
      }
      conversations := conversations[t.agent := ConversationsAfter(conversations, t)];
      lengths := lengths[t.agent := length + |t.prompt| + |t.completion|];
    }
    assert turns[..|turns|] == turns;
    ok := CheckBlobs(turns, routed, lengths, conversations);
    if ok && requireRouted {
      ok := CheckCoverage(turns, routed, lengths, conversations);
    }
  }

  lemma TalliedAgents(turns: seq<Turn>, lengths: map<AgentId, nat>, conversations: map<AgentId, nat>)
    requires Tallied(turns, lengths, conversations)
    ensures forall a :: HasAgent(turns, a) <==> a in lengths
    ensures forall i :: 0 <= i < |turns| ==> turns[i].agent in lengths
  {
    forall a ensures HasAgent(turns, a) <==> a in lengths {
      HasAgentTurns(turns, a);
      assert TalliedFor(turns, lengths, conversations, a);
    }
    forall i | 0 <= i < |turns| ensures turns[i].agent in lengths {
      assert HasAgent(turns, turns[i].agent);
    }
  }

  method CheckBlobs(turns: seq<Turn>, routed: map<AgentId, Blob>, lengths: map<AgentId, nat>, ghost conversations: map<AgentId, nat>)
    returns (ok: bool)
    requires Tallied(turns, lengths, conversations)
    ensures ok <==> BlobsOk(turns, routed)
  {
    TalliedAgents(turns, lengths, conversations);
    ok := forall agent :: agent in routed ==> agent in lengths && BlobOk(routed[agent], lengths[agent]);
    assert forall agent :: agent in routed ==> TalliedFor(turns, lengths, conversations, agent);
  }

  /** The coverage rule as the check reads it from its tallies. */
  predicate CoveredAgent(routed: map<AgentId, Blob>, lengths: map<AgentId, nat>, conversations: map<AgentId, nat>, a: AgentId) {
    a in lengths && a in conversations && lengths[a] > 0 ==>
      conversations[a] == 1 && a in routed && routed[a].rows == lengths[a] - 1
  }

  method CheckCoverage(turns: seq<Turn>, routed: map<AgentId, Blob>, lengths: map<AgentId, nat>, conversations: map<AgentId, nat>)
    returns (ok: bool)
    requires Tallied(turns, lengths, conversations)
    ensures ok <==> Covered(turns, routed)
  {
    TalliedAgents(turns, lengths, conversations);
    ok := forall a :: a in lengths ==> CoveredAgent(routed, lengths, conversations, a);
    forall a | a in lengths ensures CoveredAgent(routed, lengths, conversations, a) <==> AgentCovered(turns, routed, a) {
      TalliedCoverage(turns, routed, lengths, conversations, a);
    }
    if !ok {
      var a :| a in lengths && !CoveredAgent(routed, lengths, conversations, a);
      assert HasAgent(turns, a);
    }
  }

  lemma TalliedCoverage(turns: seq<Turn>, routed: map<AgentId, Blob>, lengths: map<AgentId, nat>, conversations: map<AgentId, nat>, a: AgentId)
    requires TalliedFor(turns, lengths, conversations, a) && a in lengths
    ensures CoveredAgent(routed, lengths, conversations, a) <==> AgentCovered(turns, routed, a)
  {
  }
}
