/**
 The session recorder (proxyserver/recorder.py): per-agent delta records, the
 duplicate-delivery rules, the recording-failure marker and the tombstones.

 The first half specifies what one delivery does to one agent's record and to the
 whole recorder, as functions on values. The class at the end keeps the source's
 fields and control flow and is proved against those functions.
 */
module Recorder {
  import opened Wrappers
  import opened Messages
  import opened Capture

  type AgentId = Option<string>

  const TOMBSTONE_TTL: nat := 3600
  const MAX_TOMBSTONES: nat := 8192

  /** Response metadata stored with a turn; `sampling` maps parameter names to values. */
  datatype Meta = Meta(text: string, finishReason: Option<string>, weightVersion: Option<string>,
                       sampling: Option<map<string, real>>)

  /** One recorded turn: the request's delta beyond the agent's previous turn, and its completion. */
  datatype Turn = Turn(agent: AgentId, messages: seq<Message>, prompt: seq<Token>, newConversation: bool,
                       completion: seq<Token>, logprobs: seq<real>, meta: Meta)

  datatype Session = Session(modelName: Option<string>, turns: seq<Turn>, routed: map<string, Blob>, completed: bool)

  /** An unresolved recording error and the position an exact retry can repair. */
  datatype FailedTurn = FailedTurn(messages: seq<Message>, prompt: seq<Token>, completion: seq<Token>, recordedTurns: nat)

  /** What the completion handler hands to the recorder: the full request, not a delta. */
  datatype Delivery = Delivery(agent: AgentId, messages: seq<Message>, prompt: seq<Token>, completion: seq<Token>,
                               logprobs: seq<real>, routed: Option<WireBlob>, meta: Meta)

  datatype Outcome = Recorded | SkippedDuplicate | DroppedDeleted | Raised

  // ---- One agent's turns -------------------------------------------------

  function AgentTurns(turns: seq<Turn>, agent: AgentId): (r: seq<Turn>)
    ensures |r| <= |turns|
    ensures forall i :: 0 <= i < |r| ==> r[i].agent == agent
  {
    if turns == [] then []
    else
      var last := turns[|turns| - 1];
      AgentTurns(turns[..|turns| - 1], agent) + if last.agent == agent then [last] else []
  }

  /** The tokens of the agent's current conversation: its deltas since the last new conversation, joined. */
  function Rebuilt(turns: seq<Turn>): seq<Token> {
    if turns == [] then []
    else
      var last := turns[|turns| - 1];
      (if last.newConversation then [] else Rebuilt(turns[..|turns| - 1])) + last.prompt + last.completion
  }

  /** The roles and texts of the messages stored for the agent's current conversation. */
  function RebuiltGists(turns: seq<Turn>): seq<Gist> {
    if turns == [] then []
    else
      var last := turns[|turns| - 1];
      (if last.newConversation then [] else RebuiltGists(turns[..|turns| - 1])) + Gists(NonAssistant(last.messages))
  }

  lemma AgentTurnsAppend(turns: seq<Turn>, t: Turn, agent: AgentId)
    ensures AgentTurns(turns + [t], agent) == AgentTurns(turns, agent) + if t.agent == agent then [t] else []
  {
    assert (turns + [t])[..|turns|] == turns;
  }

  lemma RebuiltAppend(turns: seq<Turn>, t: Turn)
    ensures Rebuilt(turns + [t]) == (if t.newConversation then [] else Rebuilt(turns)) + t.prompt + t.completion
    ensures RebuiltGists(turns + [t])
         == (if t.newConversation then [] else RebuiltGists(turns)) + Gists(NonAssistant(t.messages))
  {
    assert (turns + [t])[..|turns|] == turns;
  }

  // ---- What one delivery does to one agent's record -----------------------

  datatype Verdict =
    | Duplicate
    | Store(messages: seq<Message>, prompt: seq<Token>, newConversation: bool)
    | Refuses

  /** How the recorder classifies a delivery, from message and token counts alone. */
  function Judge(turns: seq<Turn>, d: Delivery): Verdict {
    if turns == [] then
      Store(d.messages, d.prompt, true)
    else
      var last := turns[|turns| - 1];
      if !HasAssistant(d.messages) then
        if !last.newConversation then Store(d.messages, d.prompt, true)
        else if Normalize(d.messages).None? || Normalize(last.messages).None? then Refuses
        else if Normalize(d.messages) == Normalize(last.messages)
                && d.completion == last.completion && d.prompt == last.prompt then Duplicate
        else Store(d.messages, d.prompt, true)
      else
        var counted := |RebuiltGists(turns)|;
        var length := |Rebuilt(turns)|;
        var own := NonAssistant(d.messages);
        if |own| == counted && d.completion == last.completion && |d.prompt| == length - |last.completion| then Duplicate
        else if |own| < counted || |d.prompt| < length then Store(d.messages, d.prompt, true)
        else Store(own[counted..], d.prompt[length..], false)
  }

  datatype AgentState = AgentState(turns: seq<Turn>, capture: Option<Blob>, failed: Option<FailedTurn>)

  /** The marker names this very position and this very token stream. */
  predicate SameStream(a: AgentState, d: Delivery) {
    && a.failed.Some?
    && |a.turns| == a.failed.value.recordedTurns
    && d.prompt == a.failed.value.prompt
    && d.completion == a.failed.value.completion
  }

  /** An exact retry of the failed turn, arriving before the agent recorded anything else. */
  predicate Repairs(a: AgentState, d: Delivery) {
    SameStream(a, d) && Normalize(d.messages) == Some(a.failed.value.messages)
  }

  function StoredTurn(d: Delivery, v: Verdict): Turn
    requires v.Store?
  {
    Turn(d.agent, v.messages, v.prompt, v.newConversation, d.completion, d.logprobs, d.meta)
  }

  function CaptureAfter(capture: Option<Blob>, d: Delivery, newConversation: bool): Option<Blob> {
    if d.agent.None? then capture
    else
      var kept := if newConversation then None else capture;
      if d.routed.Some? then Merge(kept, d.routed.value) else kept
  }

  function RecordAgent(a: AgentState, d: Delivery): (AgentState, Outcome) {
    if SameStream(a, d) && Normalize(d.messages).None? then (a, Raised)
    else
      var failed := if Repairs(a, d) then None else a.failed;
      match Judge(a.turns, d)
      case Refuses => (a, Raised)
      case Duplicate => (a.(failed := failed), SkippedDuplicate)
      case Store(ms, p, opens) =>
        (AgentState(a.turns + [StoredTurn(d, Store(ms, p, opens))], CaptureAfter(a.capture, d, opens), failed), Recorded)
  }

  // ---- The recorder's whole state ----------------------------------------

  /** A deleted id and its deletion time. */
  datatype Tombstone = Tombstone(id: string, at: nat)

  datatype State = State(sessions: map<string, Session>, failed: map<string, map<AgentId, FailedTurn>>, deleted: seq<Tombstone>)

  const INITIAL := State(map[], map[], [])

  predicate Tombstoned(deleted: seq<Tombstone>, id: string, now: nat) {
    exists i :: 0 <= i < |deleted| && deleted[i].id == id && now - deleted[i].at < TOMBSTONE_TTL
  }

  function SessionOf(s: State, id: string): Session {
    if id in s.sessions then s.sessions[id] else Session(None, [], map[], false)
  }

  function FailedOf(s: State, id: string): map<AgentId, FailedTurn> {
    if id in s.failed then s.failed[id] else map[]
  }

  function CaptureOf(routed: map<string, Blob>, agent: AgentId): Option<Blob> {
    if agent.Some? && agent.value in routed then Some(routed[agent.value]) else None
  }

  /** Everything the recorder knows about one agent of one session. */
  function View(s: State, id: string, agent: AgentId): AgentState {
    var session := SessionOf(s, id);
    AgentState(
      AgentTurns(session.turns, agent),
      CaptureOf(session.routed, agent),
      if agent in FailedOf(s, id) then Some(FailedOf(s, id)[agent]) else None)
  }

  function WithCapture(routed: map<string, Blob>, agent: AgentId, capture: Option<Blob>): map<string, Blob> {
    if agent.None? then routed
    else if capture.Some? then routed[agent.value := capture.value]
    else routed - {agent.value}
  }

  /** Drops one agent's marker, and the session's table with its last entry. */
  function ClearFailure(failed: map<string, map<AgentId, FailedTurn>>, id: string, agent: AgentId)
    : map<string, map<AgentId, FailedTurn>>
  {
    if id !in failed then failed
    else
      var rest := failed[id] - {agent};
      if rest == map[] then failed - {id} else failed[id := rest]
  }

  /** Writes one agent's new state back: the added turn goes at the end of the session's turns. */
  function Update(s: State, id: string, agent: AgentId, before: AgentState, after: AgentState): State
    requires |before.turns| <= |after.turns|
  {
    var session := SessionOf(s, id);
    var added := after.turns[|before.turns|..];
    State(
      s.sessions[id := session.(
        turns := session.turns + added,
        routed := if added == [] then session.routed else WithCapture(session.routed, agent, after.capture))],
      if before.failed.Some? && after.failed.None? then ClearFailure(s.failed, id, agent) else s.failed,
      s.deleted)
  }

  function Record(s: State, now: nat, id: string, d: Delivery): (State, Outcome) {
    if Tombstoned(s.deleted, id, now) then (s, DroppedDeleted)
    else
      var before := View(s, id, d.agent);
      var (after, outcome) := RecordAgent(before, d);
      RecordAgentShape(before, d);
      (Update(s, id, d.agent, before, after), outcome)
  }

  function Ensure(s: State, now: nat, id: string, model: Option<string>): State {
    if Tombstoned(s.deleted, id, now) then s
    else if id !in s.sessions then s.(sessions := s.sessions[id := Session(model, [], map[], false)])
    else if s.sessions[id].modelName.None? && model.Some? && model.value != "" then s.(sessions := s.sessions[id := s.sessions[id].(modelName := model)])
    else s
  }

  function MarkFailed(s: State, now: nat, id: string, agent: AgentId, messages: seq<Message>,
                      prompt: seq<Token>, completion: seq<Token>): State
  {
    if Tombstoned(s.deleted, id, now) then s
    else
      var table := FailedOf(s, id);
      if agent in table then s
      else
        match Normalize(messages)
        case None => s.(failed := s.failed[id := table])
        case Some(ms) =>
          s.(failed := s.failed[id := table[agent := FailedTurn(ms, prompt, completion, |View(s, id, agent).turns|)]])
  }

  /** Removes every earlier entry of an id: re-deleting moves it to the end of the deletion order. */
  function WithoutId(deleted: seq<Tombstone>, id: string): (r: seq<Tombstone>)
    ensures |r| <= |deleted|
  {
    if deleted == [] then []
    else (if deleted[0].id == id then [] else [deleted[0]]) + WithoutId(deleted[1..], id)
  }

  function DropExpired(deleted: seq<Tombstone>, now: nat): (r: seq<Tombstone>)
    ensures |r| <= |deleted|
    ensures r == deleted[|deleted| - |r|..]
  {
    if deleted == [] || deleted[0].at + TOMBSTONE_TTL >= now then deleted
    else DropExpired(deleted[1..], now)
  }

  function Bound(deleted: seq<Tombstone>): seq<Tombstone> {
    if |deleted| > MAX_TOMBSTONES then deleted[|deleted| - MAX_TOMBSTONES..] else deleted
  }

  /** The deletion order once an id has been moved to its end and the table pruned. */
  function Buried(deleted: seq<Tombstone>, now: nat, id: string): seq<Tombstone> {
    Bound(DropExpired(WithoutId(deleted, id) + [Tombstone(id, now)], now))
  }

  function Delete(s: State, now: nat, id: string): State {
    State(s.sessions - {id}, s.failed - {id}, Buried(s.deleted, now, id))
  }

  datatype Dump = NotFound | Blocked | Served(session: Session)

  function DumpOf(s: State, id: string): Dump {
    if id !in s.sessions then NotFound
    else if id in s.failed then Blocked
    else Served(s.sessions[id])
  }

  predicate Finalizable(s: State, id: string) {
    id in s.sessions && id !in s.failed
  }

  function Finalize(s: State, id: string): State {
    if Finalizable(s, id) then s.(sessions := s.sessions[id := s.sessions[id].(completed := true)]) else s
  }

  // ---- A delivery touches one agent of one session ------------------------

  /** How one agent's state may change in one delivery. */
  predicate Steps(a: AgentState, b: AgentState, agent: AgentId) {
    && (b.turns == a.turns || (|b.turns| == |a.turns| + 1 && b.turns[..|a.turns|] == a.turns && b.turns[|a.turns|].agent == agent))
    && (b.turns == a.turns ==> b.capture == a.capture)
    && (agent.None? ==> b.capture == a.capture)
    && (b.failed == a.failed || b.failed.None?)
  }

  lemma RecordAgentShape(a: AgentState, d: Delivery)
    ensures var (b, outcome) := RecordAgent(a, d);
            && Steps(a, b, d.agent)
            && (b.turns != a.turns <==> outcome == Recorded)
            && (b.failed != a.failed <==> Repairs(a, d) && outcome != Raised)
            && outcome != DroppedDeleted
  {
  }

  lemma UpdateTurns(turns: seq<Turn>, agent: AgentId, before: AgentState, after: AgentState, agent': AgentId)
    requires before.turns == AgentTurns(turns, agent)
    requires Steps(before, after, agent)
    ensures AgentTurns(turns + after.turns[|before.turns|..], agent')
         == if agent' == agent then after.turns else AgentTurns(turns, agent')
  {
    if after.turns == before.turns {
      assert turns + after.turns[|before.turns|..] == turns;
    } else {
      assert after.turns[|before.turns|..] == [after.turns[|before.turns|]];
      assert after.turns == before.turns + [after.turns[|before.turns|]];
      AgentTurnsAppend(turns, after.turns[|before.turns|], agent');
    }
  }

  lemma ClearFailureView(failed: map<string, map<AgentId, FailedTurn>>, id: string, agent: AgentId, id': string, agent': AgentId)
    requires id in failed && agent in failed[id]
    ensures var next := ClearFailure(failed, id, agent);
            (id' in next && agent' in next[id']) <==> (id' in failed && agent' in failed[id'] && !(id' == id && agent' == agent))
    ensures var next := ClearFailure(failed, id, agent);
            id' in next && agent' in next[id'] ==> next[id'][agent'] == failed[id'][agent']
  {
    var rest := failed[id] - {agent};
    if rest == map[] && agent' != agent {
      assert agent' !in rest;
    }
  }

  lemma CaptureUpdateView(routed: map<string, Blob>, agent: AgentId, capture: Option<Blob>, agent': AgentId)
    ensures CaptureOf(WithCapture(routed, agent, capture), agent')
         == if agent' == agent && agent.Some? then capture else CaptureOf(routed, agent')
  {
  }

  lemma AddedIsEmpty(before: AgentState, after: AgentState, agent: AgentId)
    requires Steps(before, after, agent)
    ensures after.turns[|before.turns|..] == [] <==> after.turns == before.turns
  {
  }

  lemma UpdateTurnsView(s: State, id: string, agent: AgentId, after: AgentState, agent': AgentId)
    requires Steps(View(s, id, agent), after, agent)
    ensures View(Update(s, id, agent, View(s, id, agent), after), id, agent').turns
         == if agent' == agent then after.turns else View(s, id, agent').turns
  {
    UpdateTurns(SessionOf(s, id).turns, agent, View(s, id, agent), after, agent');
  }

  lemma UpdateCaptureView(s: State, id: string, agent: AgentId, after: AgentState, agent': AgentId)
    requires Steps(View(s, id, agent), after, agent)
    ensures View(Update(s, id, agent, View(s, id, agent), after), id, agent').capture
         == if agent' == agent then after.capture else View(s, id, agent').capture
  {
    AddedIsEmpty(View(s, id, agent), after, agent);
    CaptureUpdateView(SessionOf(s, id).routed, agent, after.capture, agent');
  }

  lemma UpdateFailureView(s: State, id: string, agent: AgentId, after: AgentState, id': string, agent': AgentId)
    requires Steps(View(s, id, agent), after, agent)
    ensures View(Update(s, id, agent, View(s, id, agent), after), id', agent').failed
         == if id' == id && agent' == agent then after.failed else View(s, id', agent').failed
  {
    if View(s, id, agent).failed.Some? && after.failed.None? {
      ClearFailureView(s.failed, id, agent, id', agent');
    }
  }

  lemma UpdateView(s: State, id: string, agent: AgentId, after: AgentState, id': string, agent': AgentId)
    requires Steps(View(s, id, agent), after, agent)
    ensures View(Update(s, id, agent, View(s, id, agent), after), id', agent')
         == if id' == id && agent' == agent then after else View(s, id', agent')
  {
    UpdateFailureView(s, id, agent, after, id', agent');
    if id' == id {
      UpdateTurnsView(s, id, agent, after, agent');
      UpdateCaptureView(s, id, agent, after, agent');
    }
  }

  /** A delivery does to its agent what RecordAgent says, and nothing to any other agent or session. */
  lemma RecordView(s: State, now: nat, id: string, d: Delivery, id': string, agent': AgentId)
    requires !Tombstoned(s.deleted, id, now)
    ensures Record(s, now, id, d).1 == RecordAgent(View(s, id, d.agent), d).1
    ensures View(Record(s, now, id, d).0, id', agent')
         == if id' == id && agent' == d.agent then RecordAgent(View(s, id, d.agent), d).0 else View(s, id', agent')
  {
    var before := View(s, id, d.agent);
    RecordAgentShape(before, d);
    UpdateView(s, id, d.agent, RecordAgent(before, d).0, id', agent');
  }

  function FailedAfter(s: State, id: string, d: Delivery): map<string, map<AgentId, FailedTurn>> {
    if Repairs(View(s, id, d.agent), d) then ClearFailure(s.failed, id, d.agent) else s.failed
  }

  /** A delivery that appends nothing still creates a missing session, and may settle a failure. */
  lemma RecordWithoutAppend(s: State, now: nat, id: string, d: Delivery)
    requires !Tombstoned(s.deleted, id, now)
    requires RecordAgent(View(s, id, d.agent), d).1 != Recorded
    ensures Record(s, now, id, d).0
         == State(s.sessions[id := SessionOf(s, id)],
                  if RecordAgent(View(s, id, d.agent), d).1 == Raised then s.failed else FailedAfter(s, id, d),
                  s.deleted)
  {
    var before := View(s, id, d.agent);
    RecordAgentShape(before, d);
    assert before.turns[|before.turns|..] == [];
    EmptyConcat(SessionOf(s, id).turns);
  }

  lemma RecordWithAppend(s: State, now: nat, id: string, d: Delivery)
    requires !Tombstoned(s.deleted, id, now)
    requires RecordAgent(View(s, id, d.agent), d).1 == Recorded
    ensures var session := SessionOf(s, id); var before := View(s, id, d.agent); var v := Judge(before.turns, d);
            && v.Store?
            && Record(s, now, id, d).0
            == State(s.sessions[id := session.(
                       turns := session.turns + [StoredTurn(d, v)],
                       routed := WithCapture(session.routed, d.agent, CaptureAfter(before.capture, d, v.newConversation)))],
                     FailedAfter(s, id, d), s.deleted)
  {
    var before := View(s, id, d.agent);
    var t := StoredTurn(d, Judge(before.turns, d));
    assert (before.turns + [t])[|before.turns|..] == [t];
  }

  /**
   What a recorded delivery stores: one turn at the end of the session, with the completion, logprobs, text, finish
   reason, weight version and sampling parameters delivered, and the request in full or what it adds to the record.
   */
  lemma RecordedTurnIsDelivered(s: State, now: nat, id: string, d: Delivery)
    requires Record(s, now, id, d).1 == Recorded
    ensures id in Record(s, now, id, d).0.sessions
    ensures var before := SessionOf(s, id).turns; var turns := Record(s, now, id, d).0.sessions[id].turns;
            && |turns| == |before| + 1 && turns[..|before|] == before
            && var t := turns[|before|];
            && t.agent == d.agent && t.completion == d.completion && t.logprobs == d.logprobs
            && t.meta.text == d.meta.text && t.meta.finishReason == d.meta.finishReason
            && t.meta.weightVersion == d.meta.weightVersion && t.meta.sampling == d.meta.sampling
            && (t.newConversation ==> t.messages == d.messages && t.prompt == d.prompt)
            && (!t.newConversation ==>
                  var mine := AgentTurns(before, d.agent);
                  && |Rebuilt(mine)| <= |d.prompt| && t.prompt == d.prompt[|Rebuilt(mine)|..]
                  && |RebuiltGists(mine)| <= |NonAssistant(d.messages)|
                  && t.messages == NonAssistant(d.messages)[|RebuiltGists(mine)|..])
  {
    RecordWithAppend(s, now, id, d);
  }

  // ---- The recorder object ------------------------------------------------

  /** The agent-side messages and the tokens of the turns from `start` on. */
  function Extent(turns: seq<Turn>, start: nat): (nat, nat) {
    if |turns| <= start then (0, 0)
    else
      var t := turns[|turns| - 1];
      var (messages, tokens) := Extent(turns[..|turns| - 1], start);
      (messages + |NonAssistant(t.messages)|, tokens + |t.prompt| + |t.completion|)
  }

  lemma {:induction false} ExtentIsRebuilt(turns: seq<Turn>, start: nat)
    requires start == 0 || (start < |turns| && turns[start].newConversation)
    requires forall j :: start < j < |turns| ==> !turns[j].newConversation
    ensures Extent(turns, start) == (|RebuiltGists(turns)|, |Rebuilt(turns)|)
  {
    if |turns| > start + 1 {
      ExtentIsRebuilt(turns[..|turns| - 1], start);
    } else if turns != [] {
      assert Extent(turns[..|turns| - 1], start) == (0, 0);
    }
  }

  lemma ExtentNext(turns: seq<Turn>, k: nat, start: nat)
    requires start <= k < |turns|
    ensures Extent(turns[..k + 1], start)
         == (Extent(turns[..k], start).0 + |NonAssistant(turns[k].messages)|,
             Extent(turns[..k], start).1 + |turns[k].prompt| + |turns[k].completion|)
  {
    assert turns[..k + 1][..k] == turns[..k];
  }

  /** Where the agent's current conversation starts. */
  method ConversationStart(turns: seq<Turn>) returns (start: nat)
    ensures start <= |turns|
    ensures start == 0 || (start < |turns| && turns[start].newConversation)
    ensures forall j :: start < j < |turns| ==> !turns[j].newConversation
  {
    start := 0;
    var i := |turns|;
    while i > 0
      invariant 0 <= i <= |turns|
      invariant start == 0
      invariant forall j :: i <= j < |turns| ==> !turns[j].newConversation
    {
      i := i - 1;
      if turns[i].newConversation {
        start := i;
        break;
      }
    }
  }

  /** The number of agent-side messages and of tokens of the current conversation, counted as the recorder counts them. */
  method ConversationExtent(turns: seq<Turn>) returns (messages: nat, tokens: nat)
    ensures messages == |RebuiltGists(turns)|
    ensures tokens == |Rebuilt(turns)|
  {
    var start := ConversationStart(turns);
    messages, tokens := 0, 0;
    var k := start;
    while k < |turns|
      invariant start <= k <= |turns|
      invariant (messages, tokens) == Extent(turns[..k], start)
    {
      ExtentNext(turns, k, start);
      messages := messages + |NonAssistant(turns[k].messages)|;
      tokens := tokens + |turns[k].prompt| + |turns[k].completion|;
      k := k + 1;
    }
    assert turns[..|turns|] == turns;
    ExtentIsRebuilt(turns, start);
  }

  /** The source's SessionRecorder, without its disk snapshots. */
  class SessionRecorder {
    var sessions: map<string, Session>
    var recordingFailed: map<string, map<AgentId, FailedTurn>>
    var deleted: seq<Tombstone>

    function Value(): State
      reads this
    {
      State(sessions, recordingFailed, deleted)
    }

    constructor ()
      ensures Value() == INITIAL
    {
      sessions, recordingFailed, deleted := map[], map[], [];
    }

    method EnsureSession(now: nat, id: string, model: Option<string>)
      modifies this
      ensures Value() == Ensure(old(Value()), now, id, model)
    {
      if Tombstoned(deleted, id, now) {
        return;
      }
      if id !in sessions {
        sessions := sessions[id := Session(model, [], map[], false)];
      } else if sessions[id].modelName.None? && model.Some? && model.value != "" {
        sessions := sessions[id := sessions[id].(modelName := model)];
      }
    }

    /** The turns of one agent, in recording order. */
    method TurnsOf(id: string, agent: AgentId) returns (turns: seq<Turn>)
      ensures turns == View(Value(), id, agent).turns
    {
      turns := [];
      if id in sessions {
        var all := sessions[id].turns;
        for i := 0 to |all|
          invariant turns == AgentTurns(all[..i], agent)
        {
          AgentTurnsAppend(all[..i], all[i], agent);
          assert all[..i + 1] == all[..i] + [all[i]];
          if all[i].agent == agent {
            turns := turns + [all[i]];
          }
        }
        assert all[..|all|] == all;
      }
    }

    /** Whether a delivery repeats the agent's last recorded opening. */
    method IsRepeatedOpening(last: Turn, d: Delivery) returns (repeated: bool, raised: bool)
      ensures raised <==> last.newConversation && (Normalize(d.messages).None? || Normalize(last.messages).None?)
      ensures !raised ==> (repeated <==> last.newConversation && Normalize(d.messages) == Normalize(last.messages)
                                         && d.completion == last.completion && d.prompt == last.prompt)
    {
      repeated, raised := false, false;
      if last.newConversation {
        if Normalize(d.messages).None? || Normalize(last.messages).None? {
          raised := true;
        } else {
          repeated := Normalize(d.messages) == Normalize(last.messages)
                      && d.completion == last.completion && d.prompt == last.prompt;
        }
      }
    }

    /** Classifies a delivery from counts alone, and cuts its delta. */
    method Classify(turns: seq<Turn>, d: Delivery) returns (verdict: Verdict)
      ensures verdict == Judge(turns, d)
    {
      var opens := !HasAssistant(d.messages) || turns == [];
      verdict := Store(d.messages, d.prompt, true);
      if opens {
        if turns != [] {
          var repeated, raised := IsRepeatedOpening(turns[|turns| - 1], d);
          if raised {
            verdict := Refuses;
          } else if repeated {
            verdict := Duplicate;
          }
        }
      } else {
        var counted, length := ConversationExtent(turns);
        var own := NonAssistant(d.messages);
        var last := turns[|turns| - 1];
        if |own| == counted && d.completion == last.completion && |d.prompt| == length - |last.completion| {
          verdict := Duplicate;
        } else if !(|own| < counted || |d.prompt| < length) {
          verdict := Store(own[counted..], d.prompt[length..], false);
        }
      }
    }

    method ClearRecordingFailure(id: string, agent: AgentId)
      modifies this`recordingFailed
      ensures recordingFailed == ClearFailure(old(recordingFailed), id, agent)
    {
      if id in recordingFailed {
        var failures := recordingFailed[id] - {agent};
        recordingFailed := recordingFailed[id := failures];
        if failures == map[] {
          recordingFailed := recordingFailed - {id};
          assert recordingFailed == old(recordingFailed) - {id};
        }
      }
    }

    /** Appends the turn to the session and folds its capture. */
    method Append(id: string, d: Delivery, verdict: Verdict)
      requires id in sessions && verdict.Store?
      modifies this`sessions
      ensures var session := old(sessions[id]);
              sessions == old(sessions)[id := session.(
                turns := session.turns + [StoredTurn(d, verdict)],
                routed := WithCapture(session.routed, d.agent,
                                      CaptureAfter(CaptureOf(session.routed, d.agent), d, verdict.newConversation)))]
    {
      var session := sessions[id];
      var routed := session.routed;
      if d.agent.Some? {
        var agent := d.agent.value;
        if verdict.newConversation {
          routed := routed - {agent};
        }
        if d.routed.Some? {
          var merged := Merge(if agent in routed then Some(routed[agent]) else None, d.routed.value);
          if merged.Some? {
            routed := routed[agent := merged.value];
          }
        }
        assert routed == WithCapture(session.routed, d.agent, CaptureAfter(CaptureOf(session.routed, d.agent), d, verdict.newConversation));
      }
      sessions := sessions[id := session.(turns := session.turns + [StoredTurn(d, verdict)], routed := routed)];
    }

    /** What the recorder knows about the delivering agent, and how it classifies the delivery. */
    method Assess(id: string, d: Delivery) returns (state: AgentState, verdict: Verdict)
      requires id in sessions
      ensures state == View(Value(), id, d.agent)
      ensures RecordAgent(state, d).1 == (if verdict.Refuses? then Raised else if verdict.Duplicate? then SkippedDuplicate else Recorded)
      ensures verdict.Store? ==> verdict == Judge(state.turns, d)
    {
      var turns := TurnsOf(id, d.agent);
      var failed := if id in recordingFailed && d.agent in recordingFailed[id] then Some(recordingFailed[id][d.agent]) else None;
      state := AgentState(turns, CaptureOf(sessions[id].routed, d.agent), failed);
      verdict := Refuses;
      if !SameStream(state, d) || Normalize(d.messages).Some? {
        verdict := Classify(turns, d);
      }
    }

    /** Records one completion as its delta; a duplicate or a tombstoned session stores nothing. */
    method RecordCompletion(now: nat, id: string, d: Delivery) returns (outcome: Outcome)
      modifies this
      ensures (Value(), outcome) == Record(old(Value()), now, id, d)
    {
      if Tombstoned(deleted, id, now) {
        return DroppedDeleted;
      }
      ghost var start := Value();
      if id !in sessions {
        sessions := sessions[id := Session(None, [], map[], false)];
      }
      var state, verdict := Assess(id, d);
      assert state == View(start, id, d.agent);
      outcome := if verdict.Refuses? then Raised else if verdict.Duplicate? then SkippedDuplicate else Recorded;
      if verdict.Store? {
        RecordWithAppend(start, now, id, d);
        Append(id, d, verdict);
      } else {
        RecordWithoutAppend(start, now, id, d);
      }
      assert sessions == Record(start, now, id, d).0.sessions;
      if !verdict.Refuses? && Repairs(state, d) {
        ClearRecordingFailure(id, d.agent);
      }
      assert recordingFailed == Record(start, now, id, d).0.failed;
    }

    method DumpSession(id: string) returns (dump: Dump)
      ensures dump == DumpOf(Value(), id)
    {
      if id !in sessions {
        return NotFound;
      }
      if id in recordingFailed {
        return Blocked;
      }
      return Served(sessions[id]);
    }

    method FinalizeSession(id: string) returns (ok: bool)
      modifies this`sessions
      ensures ok <==> Finalizable(old(Value()), id)
      ensures Value() == Finalize(old(Value()), id)
    {
      if id !in sessions || id in recordingFailed {
        return false;
      }
      sessions := sessions[id := sessions[id].(completed := true)];
      return true;
    }

    method MarkRecordingFailed(now: nat, id: string, agent: AgentId, messages: seq<Message>, prompt: seq<Token>, completion: seq<Token>)
      modifies this`recordingFailed
      ensures Value() == MarkFailed(old(Value()), now, id, agent, messages, prompt, completion)
    {
      if Tombstoned(deleted, id, now) {
        return;
      }
      ghost var start := Value();
      var turns := TurnsOf(id, agent);
      var failures := if id in recordingFailed then recordingFailed[id] else map[];
      if agent in failures {
        assert recordingFailed[id := failures] == recordingFailed;
      } else if Normalize(messages).Some? {
        failures := failures[agent := FailedTurn(Normalize(messages).value, prompt, completion, |turns|)];
      }
      recordingFailed := recordingFailed[id := failures];
    }

    method DropExpiredTombstones(now: nat)
      modifies this`deleted
      ensures deleted == DropExpired(old(deleted), now)
    {
      while deleted != [] && deleted[0].at + TOMBSTONE_TTL < now
        invariant DropExpired(deleted, now) == DropExpired(old(deleted), now)
        decreases |deleted|
      {
        deleted := deleted[1..];
      }
    }

    method BoundTombstones()
      modifies this`deleted
      ensures deleted == Bound(old(deleted))
    {
      ghost var all := deleted;
      while |deleted| > MAX_TOMBSTONES
        invariant |deleted| <= |all| && deleted == all[|all| - |deleted|..]
        invariant |deleted| == |all| || |deleted| >= MAX_TOMBSTONES
      {
        deleted := deleted[1..];
      }
    }

    /** Moves the id to the end of the deletion order and prunes. */
    method Entomb(now: nat, id: string)
      modifies this`deleted
      ensures deleted == Buried(old(deleted), now, id)
    {
      deleted := WithoutId(deleted, id) + [Tombstone(id, now)];
      DropExpiredTombstones(now);
      BoundTombstones();
    }

    method DeleteSession(now: nat, id: string)
      modifies this
      ensures Value() == Delete(old(Value()), now, id)
    {
      sessions := sessions - {id};
      recordingFailed := recordingFailed - {id};
      Entomb(now, id);
    }
  }
}
