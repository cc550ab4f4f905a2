/**
 Why storing only deltas, chosen from message and token counts, loses nothing.

 This module follows one agent: its recorded turns, its failure marker, the token
 stream the manager holds for it, and the one turn it may have in flight. Each step
 of the completion handler (proxyserver/service.py) keeps the invariant `Sound`.
 */
module Lossless {
  import opened Wrappers
  import opened Messages
  import opened Recorder
  import TS = TokenStream

  /** One committed turn: its normalized request, its full engine prompt and what was sampled. */
  datatype Exchange = Exchange(messages: seq<Message>, prompt: seq<Token>, completion: seq<Token>)

  function StreamOf(e: Exchange): seq<Token> {
    e.prompt + e.completion
  }

  // ---- When a record and a committed turn belong together -----------------

  /** Recording this request next extends the record: it opens a conversation, or continues the recorded one. */
  predicate Follows(turns: seq<Turn>, messages: seq<Message>, prompt: seq<Token>) {
    || !HasAssistant(messages)
    || turns == []
    || (&& StartsWith(prompt, Rebuilt(turns))
        && StartsWith(Gists(NonAssistant(messages)), RebuiltGists(turns))
        && |RebuiltGists(turns)| < |NonAssistant(messages)|)
  }

  /** The record ends with exactly this turn: rebuilding its current conversation gives the turn's stream and history. */
  predicate InStep(turns: seq<Turn>, e: Exchange) {
    && turns != []
    && Rebuilt(turns) == StreamOf(e)
    && RebuiltGists(turns) == Gists(NonAssistant(e.messages))
    && turns[|turns| - 1].completion == e.completion
    && (!HasAssistant(e.messages) ==>
          turns[|turns| - 1].newConversation && Normalize(turns[|turns| - 1].messages) == Some(e.messages))
  }

  predicate Fits(turns: seq<Turn>, e: Exchange) {
    Follows(turns, e.messages, e.prompt) || InStep(turns, e)
  }

  /** Every stored opening can be compared with a later one. */
  predicate Comparable(turns: seq<Turn>) {
    forall i :: 0 <= i < |turns| && turns[i].newConversation ==> Normalize(turns[i].messages).Some?
  }

  predicate Delivers(d: Delivery, e: Exchange) {
    Normalize(d.messages) == Some(e.messages) && d.prompt == e.prompt && d.completion == e.completion
  }

  // ---- One delivery -------------------------------------------------------

  /** For an opening, ending with exactly this turn means having stored this very request and completion last. */
  lemma OpeningInStep(turns: seq<Turn>, e: Exchange)
    requires !HasAssistant(e.messages) && turns != []
    ensures InStep(turns, e) <==>
            var last := turns[|turns| - 1];
            && last.newConversation && Normalize(last.messages) == Some(e.messages)
            && last.completion == e.completion && last.prompt == e.prompt
  {
    var last := turns[|turns| - 1];
    if last.newConversation && Normalize(last.messages) == Some(e.messages) && last.completion == e.completion {
      NormalizeKeepsConversation(last.messages);
      assert Rebuilt(turns) == [] + last.prompt + last.completion;
      assert [] + last.prompt == last.prompt;
      if Rebuilt(turns) == StreamOf(e) {
        assert last.prompt == Rebuilt(turns)[..|last.prompt|];
        assert e.prompt == StreamOf(e)[..|e.prompt|];
      }
    }
  }

  /** An opening is either recognized as the last recorded turn or stored in full. */
  lemma JudgeOpening(turns: seq<Turn>, d: Delivery, e: Exchange)
    requires Comparable(turns) && Delivers(d, e)
    requires StartsAfresh(turns, e)
    ensures Judge(turns, d) == if turns != [] && InStep(turns, e) then Duplicate else Store(d.messages, d.prompt, true)
  {
    NormalizeKeepsConversation(d.messages);
    if turns != [] {
      OpeningInStep(turns, e);
    }
  }

  /** A continuation of the recorded conversation is stored as its delta, and a repeat of its last turn is skipped. */
  lemma JudgeContinuation(turns: seq<Turn>, d: Delivery, e: Exchange)
    requires Delivers(d, e) && HasAssistant(e.messages) && turns != [] && Fits(turns, e)
    ensures var own := NonAssistant(d.messages);
            if InStep(turns, e) then Judge(turns, d) == Duplicate
            else
              && |RebuiltGists(turns)| <= |own| && |Rebuilt(turns)| <= |d.prompt|
              && Judge(turns, d) == Store(own[|RebuiltGists(turns)|..], d.prompt[|Rebuilt(turns)|..], false)
  {
    NormalizeKeepsConversation(d.messages);
    var own := NonAssistant(d.messages);
    assert |own| == |Gists(own)| == |Gists(NonAssistant(e.messages))| == |NonAssistant(e.messages)|;
    if InStep(turns, e) {
      assert |Rebuilt(turns)| == |e.prompt| + |e.completion|;
    }
  }

  predicate StartsAfresh(turns: seq<Turn>, e: Exchange) {
    turns == [] || !HasAssistant(e.messages)
  }

  lemma StoredInFull(turns: seq<Turn>, d: Delivery, e: Exchange)
    requires Delivers(d, e)
    requires turns == [] || !HasAssistant(e.messages)
    ensures InStep(turns + [StoredTurn(d, Store(d.messages, d.prompt, true))], e)
  {
    var t := StoredTurn(d, Store(d.messages, d.prompt, true));
    RebuiltAppend(turns, t);
    NormalizeKeepsConversation(d.messages);
    assert [] + t.prompt + t.completion == StreamOf(e);
  }

  lemma GistsOfNewMessages(ms: seq<Message>, n: nat)
    requires n <= |NonAssistant(ms)|
    ensures Gists(NonAssistant(NonAssistant(ms)[n..])) == Gists(NonAssistant(ms))[n..]
  {
    var own := NonAssistant(ms);
    NonAssistantHasNone(ms);
    forall i | 0 <= i < |own[n..]| ensures own[n..][i].role != Assistant {
      assert own[n..][i] == own[n + i];
    }
    NonAssistantOfOpening(own[n..]);
  }

  lemma DeltaInStep(turns: seq<Turn>, t: Turn, e: Exchange)
    requires HasAssistant(e.messages) && !t.newConversation && t.completion == e.completion
    requires StartsWith(e.prompt, Rebuilt(turns)) && t.prompt == e.prompt[|Rebuilt(turns)|..]
    requires StartsWith(Gists(NonAssistant(e.messages)), RebuiltGists(turns))
    requires Gists(NonAssistant(t.messages)) == Gists(NonAssistant(e.messages))[|RebuiltGists(turns)|..]
    ensures InStep(turns + [t], e)
  {
    RebuiltAppend(turns, t);
    PrefixAndRest(e.prompt, Rebuilt(turns));
    PrefixAndRest(Gists(NonAssistant(e.messages)), RebuiltGists(turns));
  }

  lemma StoredAsDelta(turns: seq<Turn>, d: Delivery, e: Exchange)
    requires Delivers(d, e) && HasAssistant(e.messages)
    requires StartsWith(e.prompt, Rebuilt(turns)) && StartsWith(Gists(NonAssistant(e.messages)), RebuiltGists(turns))
    ensures |RebuiltGists(turns)| <= |NonAssistant(d.messages)|
    ensures InStep(turns + [StoredTurn(d, Store(NonAssistant(d.messages)[|RebuiltGists(turns)|..], d.prompt[|Rebuilt(turns)|..], false))], e)
  {
    NormalizeKeepsConversation(d.messages);
    assert |Gists(NonAssistant(d.messages))| == |NonAssistant(d.messages)|;
    var n := |RebuiltGists(turns)|;
    GistsOfNewMessages(d.messages, n);
    DeltaInStep(turns, StoredTurn(d, Store(NonAssistant(d.messages)[n..], d.prompt[|Rebuilt(turns)|..], false)), e);
  }

  lemma ComparableAppend(turns: seq<Turn>, t: Turn)
    requires Comparable(turns) && (t.newConversation ==> Normalize(t.messages).Some?)
    ensures Comparable(turns + [t])
  {
  }

  /** Delivering a turn that fits leaves the record ending with exactly that turn, however it was classified. */
  lemma RecordKeepsStep(a: AgentState, d: Delivery, e: Exchange)
    requires Comparable(a.turns) && Delivers(d, e) && Fits(a.turns, e)
    ensures var (b, outcome) := RecordAgent(a, d);
            && outcome != Raised && InStep(b.turns, e) && Comparable(b.turns)
            && b.failed == (if Repairs(a, d) then None else a.failed)
  {
    NormalizeKeepsConversation(d.messages);
    if StartsAfresh(a.turns, e) {
      JudgeOpening(a.turns, d, e);
      StoredInFull(a.turns, d, e);
      ComparableAppend(a.turns, StoredTurn(d, Store(d.messages, d.prompt, true)));
    } else {
      JudgeContinuation(a.turns, d, e);
      if !InStep(a.turns, e) {
        StoredAsDelta(a.turns, d, e);
        ComparableAppend(a.turns, StoredTurn(d, Judge(a.turns, d)));
      }
    }
  }

  // ---- One agent, between its turns and during one -------------------------

  /** The turn of an agent that is being served: sampling, or committed and not yet recorded. */
  datatype Flight =
    | Idle
    | Generating(messages: seq<Message>, tools: seq<TS.ToolDefinition>, effort: Option<TS.Effort>, prompt: seq<Token>)
    | Unrecorded(delivery: Delivery)

  datatype Agent = Agent(name: string, rec: AgentState, held: Option<TS.StreamState>, flight: Flight)

  /** The turn a held stream ends with. */
  function HeldExchange(st: TS.StreamState): Exchange
    requires st.lastTurn.Some?
  {
    var (prompt, completion) := TS.SplitLast(st.stream, st.lastTurn.value.completionLen);
    Exchange(st.messages, prompt, completion)
  }

  predicate HeldSound(st: TS.StreamState) {
    && Normalize(st.messages) == Some(st.messages)
    && st.lastTurn.Some?
    && 0 < st.lastTurn.value.completionLen <= |st.stream|
  }

  predicate HoldsOnly(held: Option<TS.StreamState>, e: Exchange) {
    held.Some? ==> held.value.lastTurn.Some? && HeldExchange(held.value) == e
  }

  /** The record ends where the held stream ends, as far as both exist. */
  predicate Settled(turns: seq<Turn>, held: Option<TS.StreamState>)
    requires held.Some? ==> HeldSound(held.value)
  {
    turns != [] && held.Some? ==> InStep(turns, HeldExchange(held.value))
  }

  function DeliveredExchange(d: Delivery): Exchange
    requires Normalize(d.messages).Some?
  {
    Exchange(Normalize(d.messages).value, d.prompt, d.completion)
  }

  function FailedExchange(f: FailedTurn): Exchange {
    Exchange(f.messages, f.prompt, f.completion)
  }

  /** What the turn in flight may be; a committed one is the turn the manager holds. */
  predicate FlightSound(v: Agent)
    requires v.held.Some? ==> HeldSound(v.held.value)
  {
    match v.flight
    case Idle => true
    case Generating(ms, _, _, _) => Normalize(ms).Some?
    case Unrecorded(d) => d.agent == Some(v.name) && Normalize(d.messages).Some? && HoldsOnly(v.held, DeliveredExchange(d))
  }

  /** With no failure pending the record is behind by the turn in flight at most. */
  predicate NothingLost(v: Agent)
    requires v.held.Some? ==> HeldSound(v.held.value)
    requires FlightSound(v)
  {
    match v.flight
    case Idle => Settled(v.rec.turns, v.held)
    case Generating(ms, _, _, prompt) => Settled(v.rec.turns, v.held) && Follows(v.rec.turns, Normalize(ms).value, prompt)
    case Unrecorded(d) => Fits(v.rec.turns, DeliveredExchange(d))
  }

  /** With a failure pending and nothing recorded since, the failed turn still fits the record. */
  predicate Repairable(a: AgentState)
    requires a.failed.Some?
  {
    && |a.turns| >= a.failed.value.recordedTurns
    && (|a.turns| == a.failed.value.recordedTurns ==> Fits(a.turns, FailedExchange(a.failed.value)))
  }

  predicate Sound(v: Agent) {
    && Comparable(v.rec.turns)
    && (v.held.Some? ==> HeldSound(v.held.value))
    && FlightSound(v)
    && if v.rec.failed.None? then NothingLost(v) else Repairable(v.rec)
  }

  // ---- The steps -----------------------------------------------------------

  /** Marks the turn as unrecorded unless an earlier failure of the agent is pending. */
  function MarkAgent(a: AgentState, d: Delivery): AgentState {
    if a.failed.Some? || Normalize(d.messages).None? then a
    else a.(failed := Some(FailedTurn(Normalize(d.messages).value, d.prompt, d.completion, |a.turns|)))
  }

  function AfterRecord(v: Agent): Agent
    requires v.flight.Unrecorded?
  {
    v.(rec := RecordAgent(v.rec, v.flight.delivery).0, flight := Idle)
  }

  function AfterFailBefore(v: Agent): Agent
    requires v.flight.Unrecorded?
  {
    v.(rec := MarkAgent(v.rec, v.flight.delivery), flight := Idle)
  }

  function AfterFailAfter(v: Agent): Agent
    requires v.flight.Unrecorded?
  {
    v.(rec := MarkAgent(RecordAgent(v.rec, v.flight.delivery).0, v.flight.delivery), flight := Idle)
  }

  /** A held stream may be evicted or released at any time. */
  lemma LoseHeldKeepsSound(v: Agent)
    requires Sound(v)
    ensures Sound(v.(held := None))
  {
  }

  /** Deletion forgets the agent's record and its failure. */
  lemma LoseRecordKeepsSound(v: Agent)
    requires Sound(v)
    ensures Sound(v.(rec := AgentState([], None, None)))
  {
  }

  lemma AbortKeepsSound(v: Agent)
    requires Sound(v) && v.flight.Generating?
    ensures Sound(v.(flight := Idle))
  {
  }

  lemma {:induction false} GistsAgree(a: seq<Message>, b: seq<Message>)
    requires |a| == |b|
    requires Normalize(a) == Some(a) && Normalize(b) == Some(b)
    requires TS.Agree(a, b)
    ensures Gists(a) == Gists(b)
  {
    NormalizePointwise(a);
    NormalizePointwise(b);
    forall i | 0 <= i < |a| ensures GistOf(a[i]) == GistOf(b[i]) {
      assert NormalizeMessage(a[i]) == Some(a[i]) && NormalizeMessage(b[i]) == Some(b[i]);
      SameMessageIsSameGist(a[i], b[i]);
    }
  }

  lemma {:induction false} NormalizeSlice(ms: seq<Message>, n: nat)
    requires Normalize(ms) == Some(ms) && n <= |ms|
    ensures Normalize(ms[..n]) == Some(ms[..n])
  {
    if n > 0 {
      assert ms == [ms[0]] + ms[1..];
      assert Normalize(ms[1..]).Some?;
      assert Normalize(ms).value[1..] == Normalize(ms[1..]).value;
      NormalizeSlice(ms[1..], n - 1);
      assert ms[..n][1..] == ms[1..][..n - 1];
      assert ms[..n] == [ms[0]] + ms[1..][..n - 1];
    }
  }

  lemma NonAssistantOfEcho(m: Message)
    requires m.role == Assistant
    ensures NonAssistant([m]) == []
  {
  }

  lemma GapMessagesAreNotAssistant(ms: seq<Message>)
    requires TS.GapMessages(ms)
    ensures NonAssistant(ms) == ms
  {
    forall i | 0 <= i < |ms| ensures ms[i].role != Assistant {
      assert TS.GapRole(ms[i].role);
    }
    NonAssistantOfOpening(ms);
  }

  /** The agent-side messages of a continuation: those of the history, then all the new ones. */
  lemma ContinuationSplit(ms: seq<Message>, n: nat)
    requires n < |ms| && ms[n].role == Assistant && TS.GapMessages(ms[n + 1..])
    ensures NonAssistant(ms) == NonAssistant(ms[..n]) + ms[n + 1..]
  {
    GapMessagesAreNotAssistant(ms[n + 1..]);
    NonAssistantConcat([ms[n]], ms[n + 1..]);
    NonAssistantConcat(ms[..n], [ms[n]] + ms[n + 1..]);
    AroundElement(ms, n);
    NonAssistantOfEcho(ms[n]);
    EmptyConcat(ms[n + 1..]);
  }

  /** A request that keeps the held history, echoes the assistant and adds gap messages extends the held gists. */
  lemma ContinuationGists(history: seq<Message>, ms: seq<Message>)
    requires Normalize(history) == Some(history) && Normalize(ms) == Some(ms)
    requires |ms| >= |history| + 2 && TS.Agree(history, ms)
    requires ms[|history|].role == Assistant && TS.GapMessages(ms[|history| + 1..])
    ensures StartsWith(Gists(NonAssistant(ms)), Gists(NonAssistant(history)))
    ensures |NonAssistant(history)| < |NonAssistant(ms)|
  {
    var kept := ms[..|history|];
    NormalizeSlice(ms, |history|);
    GistsAgree(history, kept);
    GistsDecideNonAssistant(history, kept);
    ContinuationSplit(ms, |history|);
    GistsConcat(NonAssistant(kept), ms[|history| + 1..]);
    ConcatStartsWith(Gists(NonAssistant(kept)), Gists(ms[|history| + 1..]));
    assert |Gists(NonAssistant(history))| == |NonAssistant(history)|;
    assert |Gists(NonAssistant(kept))| == |NonAssistant(kept)|;
  }

  // ---- What each step of a turn does to a sound agent ------------------------

  /** A continuation is accepted only against the held history, and its prompt extends the held stream. */
  predicate Accepted(held: Option<TS.StreamState>, ms: seq<Message>, prompt: seq<Token>) {
    HasAssistant(ms) ==>
      && held.Some?
      && |ms| >= |held.value.messages| + 2 && TS.Agree(held.value.messages, ms)
      && ms[|held.value.messages|].role == Assistant && TS.GapMessages(ms[|held.value.messages| + 1..])
      && StartsWith(prompt, held.value.stream)
  }

  lemma HeldStream(st: TS.StreamState)
    requires HeldSound(st)
    ensures StreamOf(HeldExchange(st)) == st.stream && HeldExchange(st).completion != []
    ensures |HeldExchange(st).completion| == st.lastTurn.value.completionLen
  {
  }

  /** A prompt accepted against a settled held stream continues the record. */
  lemma AcceptedFollows(turns: seq<Turn>, held: TS.StreamState, ms: seq<Message>, prompt: seq<Token>)
    requires HeldSound(held) && turns != [] && InStep(turns, HeldExchange(held))
    requires Normalize(ms) == Some(ms) && HasAssistant(ms) && Accepted(Some(held), ms, prompt)
    ensures Follows(turns, ms, prompt)
  {
    HeldStream(held);
    ContinuationGists(held.messages, ms);
    assert |Gists(NonAssistant(held.messages))| == |NonAssistant(held.messages)|;
  }

  lemma GenerateKeepsSound(v: Agent, ms: seq<Message>, tools: seq<TS.ToolDefinition>, effort: Option<TS.Effort>, prompt: seq<Token>)
    requires Sound(v) && v.flight.Idle?
    requires Normalize(ms).Some? && Accepted(v.held, Normalize(ms).value, prompt)
    ensures Sound(v.(flight := Generating(ms, tools, effort, prompt)))
  {
    var ns := Normalize(ms).value;
    if v.rec.failed.None? && v.rec.turns != [] && HasAssistant(ns) {
      NormalizePointwise(ms);
      AcceptedFollows(v.rec.turns, v.held.value, ns, prompt);
    }
  }

  /** The sampled turn becomes the held stream, unless the stream was released or evicted meanwhile. */
  lemma CommitKeepsSound(v: Agent, d: Delivery, held: Option<TS.StreamState>)
    requires Sound(v) && v.flight.Generating?
    requires d.agent == Some(v.name) && d.messages == v.flight.messages && d.prompt == v.flight.prompt
    requires held.Some? ==> HeldSound(held.value) && HeldExchange(held.value) == DeliveredExchange(d)
    ensures Sound(v.(held := held, flight := Unrecorded(d)))
  {
  }

  lemma ReplayKeepsSound(v: Agent, d: Delivery, held: TS.StreamState)
    requires Sound(v) && v.flight.Idle? && v.held.Some? && d.agent == Some(v.name)
    requires Normalize(d.messages) == Some(v.held.value.messages) && DeliveredExchange(d) == HeldExchange(v.held.value)
    requires held.stream == v.held.value.stream && held.messages == v.held.value.messages && held.lastTurn == v.held.value.lastTurn
    ensures Sound(v.(held := Some(held), flight := Unrecorded(d)))
  {
    assert HeldExchange(held) == HeldExchange(v.held.value);
  }

  lemma PublishKeepsSound(v: Agent, held: TS.StreamState)
    requires Sound(v) && v.held.Some?
    requires held.stream == v.held.value.stream && held.messages == v.held.value.messages
    requires held.lastTurn.Some? && held.lastTurn.value.completionLen == v.held.value.lastTurn.value.completionLen
    ensures Sound(v.(held := Some(held)))
  {
    assert HeldExchange(held) == HeldExchange(v.held.value);
  }

  /** What the marker allows: only the exact turn, at the exact position, clears it. */
  lemma RepairedExchange(a: AgentState, d: Delivery)
    requires Repairs(a, d)
    ensures DeliveredExchange(d) == FailedExchange(a.failed.value)
  {
  }

  /** While a failure stays pending, other deliveries keep it repairable or move the record past it for good. */
  lemma OtherDeliveryKeepsRepairable(a: AgentState, d: Delivery)
    requires Comparable(a.turns) && Normalize(d.messages).Some?
    requires a.failed.Some? && Repairable(a) && !Repairs(a, d)
    ensures var b := RecordAgent(a, d).0; Comparable(b.turns) && b.failed == a.failed && Repairable(b)
  {
    RecordAgentShape(a, d);
    var b := RecordAgent(a, d).0;
    StoredOpeningsCompare(a, d);
    if b.turns != a.turns {
      assert |b.turns| > a.failed.value.recordedTurns;
    }
  }

  lemma StoredOpeningsCompare(a: AgentState, d: Delivery)
    requires Comparable(a.turns) && Normalize(d.messages).Some?
    ensures Comparable(RecordAgent(a, d).0.turns)
  {
  }

  lemma RecordKeepsSound(v: Agent)
    requires Sound(v) && v.flight.Unrecorded?
    ensures Sound(AfterRecord(v))
  {
    var d := v.flight.delivery;
    var e := DeliveredExchange(d);
    if v.rec.failed.None? || Repairs(v.rec, d) {
      if v.rec.failed.Some? {
        RepairedExchange(v.rec, d);
      }
      RecordKeepsStep(v.rec, d, e);
    } else {
      OtherDeliveryKeepsRepairable(v.rec, d);
    }
  }

  lemma FailBeforeKeepsSound(v: Agent)
    requires Sound(v) && v.flight.Unrecorded?
    ensures Sound(AfterFailBefore(v))
  {
  }

  lemma FailAfterKeepsSound(v: Agent)
    requires Sound(v) && v.flight.Unrecorded?
    ensures Sound(AfterFailAfter(v))
  {
    var d := v.flight.delivery;
    var e := DeliveredExchange(d);
    if v.rec.failed.None? || Repairs(v.rec, d) {
      if v.rec.failed.Some? {
        RepairedExchange(v.rec, d);
      }
      RecordKeepsStep(v.rec, d, e);
      assert FailedExchange(AfterFailAfter(v).rec.failed.value) == e;
    } else {
      OtherDeliveryKeepsRepairable(v.rec, d);
    }
  }

  // ---- Every way an agent's state can change ---------------------------------

  /** One agent's view of one step of the system. */
  datatype Move =
    | Stay
    | LoseHeld
    | LoseRecord
    | Abort
    | Generate(messages: seq<Message>, tools: seq<TS.ToolDefinition>, effort: Option<TS.Effort>, prompt: seq<Token>)
    | CommitTurn(delivery: Delivery, held: Option<TS.StreamState>)
    | Replay(delivery: Delivery, replayed: TS.StreamState)
    | PublishTurn(published: TS.StreamState)
    | RecordOk
    | FailBefore
    | FailAfter
    | DropDelivery

  /** The delivery hands over what the engine answered. */
  predicate CarriesReply(d: Delivery, reply: TS.Reply) {
    && d.logprobs == reply.logprobs && d.routed == reply.routed
    && d.meta.weightVersion == reply.weightVersion && d.meta.sampling == reply.sampling
  }

  predicate CanMove(v: Agent, m: Move) {
    match m
    case Stay => true
    case LoseHeld => true
    case LoseRecord => true
    case Abort => v.flight.Generating?
    case Generate(ms, _, _, prompt) =>
      v.flight.Idle? && Normalize(ms).Some? && Accepted(v.held, Normalize(ms).value, prompt)
    case CommitTurn(d, held) =>
      && v.flight.Generating? && d.agent == Some(v.name) && d.messages == v.flight.messages && d.prompt == v.flight.prompt
      && Normalize(d.messages).Some? && d.completion != []
      && (held.Some? ==> HeldSound(held.value) && HeldExchange(held.value) == DeliveredExchange(d)
                         && CarriesReply(d, held.value.lastTurn.value.reply))
    case Replay(d, held) =>
      && v.flight.Idle? && v.held.Some? && d.agent == Some(v.name) && v.held.value.lastTurn.Some?
      && Normalize(d.messages) == Some(v.held.value.messages) && DeliveredExchange(d) == HeldExchange(v.held.value)
      && held.stream == v.held.value.stream && held.messages == v.held.value.messages && held.lastTurn == v.held.value.lastTurn
      && CarriesReply(d, held.lastTurn.value.reply)
    case PublishTurn(held) =>
      && v.held.Some? && v.held.value.lastTurn.Some? && held.lastTurn.Some?
      && held.stream == v.held.value.stream && held.messages == v.held.value.messages
      && held.lastTurn.value.completionLen == v.held.value.lastTurn.value.completionLen
      && held.lastTurn.value.reply == v.held.value.lastTurn.value.reply
    case RecordOk => v.flight.Unrecorded?
    case FailBefore => v.flight.Unrecorded?
    case FailAfter => v.flight.Unrecorded?
    case DropDelivery => v.flight.Unrecorded? && v.rec == AgentState([], None, None)
  }

  function Moved(v: Agent, m: Move): Agent
    requires CanMove(v, m)
  {
    match m
    case Stay => v
    case LoseHeld => v.(held := None)
    case LoseRecord => v.(rec := AgentState([], None, None))
    case Abort => v.(flight := Idle)
    case Generate(ms, tools, effort, prompt) => v.(flight := Generating(ms, tools, effort, prompt))
    case CommitTurn(d, held) => v.(held := held, flight := Unrecorded(d))
    case Replay(d, held) => v.(held := Some(held), flight := Unrecorded(d))
    case PublishTurn(held) => v.(held := Some(held))
    case RecordOk => AfterRecord(v)
    case FailBefore => AfterFailBefore(v)
    case FailAfter => AfterFailAfter(v)
    case DropDelivery => v.(flight := Idle)
  }

  /** No step of the pipeline breaks the invariant. */
  lemma MoveKeepsSound(v: Agent, m: Move)
    requires Sound(v) && CanMove(v, m)
    ensures Sound(Moved(v, m))
  {
    match m
    case Stay =>
    case LoseHeld => LoseHeldKeepsSound(v);
    case LoseRecord => LoseRecordKeepsSound(v);
    case Abort => AbortKeepsSound(v);
    case Generate(ms, tools, effort, prompt) => GenerateKeepsSound(v, ms, tools, effort, prompt);
    case CommitTurn(d, held) => CommitKeepsSound(v, d, held);
    case Replay(d, held) => ReplayKeepsSound(v, d, held);
    case PublishTurn(held) => PublishKeepsSound(v, held);
    case RecordOk => RecordKeepsSound(v);
    case FailBefore => FailBeforeKeepsSound(v);
    case FailAfter => FailAfterKeepsSound(v);
    case DropDelivery => DroppedKeepsSound(v);
  }

  /** A delivery to a deleted session is dropped, and nothing of that session is recorded anyway. */
  lemma DroppedKeepsSound(v: Agent)
    requires Sound(v) && v.rec == AgentState([], None, None)
    ensures Sound(v.(flight := Idle))
  {
  }
}
