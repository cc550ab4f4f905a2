/**
 The unresolved-failure marker over whole runs of the recorder (proxyserver/recorder.py):
 what blocks collection, what clears the block, and what never does.
 */
module RecordingFailure {
  import opened Wrappers
  import opened Messages
  import opened Recorder
  import opened Lossless

  /** One call into the recorder, or time passing. */
  datatype Op =
    | EnsureOp(id: string, model: Option<string>)
    | RecordOp(id: string, delivery: Delivery)
    | MarkOp(id: string, agent: AgentId, messages: seq<Message>, prompt: seq<Token>, completion: seq<Token>)
    | FinalizeOp(id: string)
    | DeleteOp(id: string)
    | WaitOp(seconds: nat)

  datatype Clocked = Clocked(state: State, now: nat)

  function Apply(c: Clocked, op: Op): Clocked {
    match op
    case EnsureOp(id, model) => c.(state := Ensure(c.state, c.now, id, model))
    case RecordOp(id, d) => c.(state := Record(c.state, c.now, id, d).0)
    case MarkOp(id, agent, ms, prompt, completion) => c.(state := MarkFailed(c.state, c.now, id, agent, ms, prompt, completion))
    case FinalizeOp(id) => c.(state := Finalize(c.state, id))
    case DeleteOp(id) => c.(state := Delete(c.state, c.now, id))
    case WaitOp(seconds) => c.(now := c.now + seconds)
  }

  function ApplyAll(c: Clocked, ops: seq<Op>): Clocked
    decreases |ops|
  {
    if ops == [] then c else ApplyAll(Apply(c, ops[0]), ops[1..])
  }

  /** Collection is refused: neither a dump nor a finalization can succeed. */
  predicate Refused(s: State, id: string) {
    !DumpOf(s, id).Served? && !Finalizable(s, id)
  }

  predicate Pending(c: Clocked, id: string, agent: AgentId, f: FailedTurn) {
    View(c.state, id, agent).failed == Some(f)
  }

  /** The two calls that end a block: deletion, and the exact turn at the exact position. */
  predicate Ends(c: Clocked, op: Op, id: string, agent: AgentId) {
    || (op.DeleteOp? && op.id == id)
    || (&& op.RecordOp? && op.id == id && op.delivery.agent == agent
        && !Tombstoned(c.state.deleted, id, c.now)
        && Repairs(View(c.state, id, agent), op.delivery)
        && RecordAgent(View(c.state, id, agent), op.delivery).1 != Raised)
  }

  predicate Ended(c: Clocked, ops: seq<Op>, id: string, agent: AgentId)
    decreases |ops|
  {
    ops != [] && (Ends(c, ops[0], id, agent) || Ended(Apply(c, ops[0]), ops[1..], id, agent))
  }

  lemma RefusedWhilePending(s: State, id: string, agent: AgentId)
    requires View(s, id, agent).failed.Some?
    ensures Refused(s, id)
  {
  }

  lemma MarkKeepsPending(s: State, now: nat, id: string, agent: AgentId, id': string, agent': AgentId, ms: seq<Message>,
                         prompt: seq<Token>, completion: seq<Token>)
    requires View(s, id, agent).failed.Some?
    ensures View(MarkFailed(s, now, id', agent', ms, prompt, completion), id, agent).failed == View(s, id, agent).failed
  {
  }

  lemma RecordStepPending(c: Clocked, op: Op, id: string, agent: AgentId, f: FailedTurn)
    requires op.RecordOp? && Pending(c, id, agent, f)
    ensures Pending(Apply(c, op), id, agent, f) <==> !Ends(c, op, id, agent)
  {
    if !Tombstoned(c.state.deleted, op.id, c.now) {
      RecordView(c.state, c.now, op.id, op.delivery, id, agent);
      RecordAgentShape(View(c.state, op.id, op.delivery.agent), op.delivery);
    }
  }

  /** One call: the marker survives unchanged exactly when the call is not one of the two that end it. */
  lemma StepPending(c: Clocked, op: Op, id: string, agent: AgentId, f: FailedTurn)
    requires Pending(c, id, agent, f)
    ensures Pending(Apply(c, op), id, agent, f) <==> !Ends(c, op, id, agent)
  {
    match op
    case EnsureOp(_, _) =>
    case FinalizeOp(_) =>
    case DeleteOp(_) =>
    case WaitOp(_) =>
    case MarkOp(id', agent', ms, prompt, completion) =>
      MarkKeepsPending(c.state, c.now, id, agent, id', agent', ms, prompt, completion);
    case RecordOp(_, _) => RecordStepPending(c, op, id, agent, f);
  }

  /**
   From the moment a failure is marked, collection is refused through any calls until deletion or the exact retry.
   No delivery of another agent, no other turn, no later failure and no late retry ends the block.
   */
  lemma {:induction false} BlockedUntilExactRetry(c: Clocked, ops: seq<Op>, id: string, agent: AgentId, f: FailedTurn)
    requires Pending(c, id, agent, f) && !Ended(c, ops, id, agent)
    ensures Pending(ApplyAll(c, ops), id, agent, f) && Refused(ApplyAll(c, ops).state, id)
    decreases |ops|
  {
    if ops == [] {
      RefusedWhilePending(c.state, id, agent);
    } else {
      StepPending(c, ops[0], id, agent, f);
      BlockedUntilExactRetry(Apply(c, ops[0]), ops[1..], id, agent, f);
    }
  }

  // ---- Moving past the failure -----------------------------------------------

  predicate MentionsDelete(ops: seq<Op>, id: string) {
    exists i :: 0 <= i < |ops| && ops[i].DeleteOp? && ops[i].id == id
  }

  /** The agent's record only grows, apart from deletion. */
  lemma StepGrows(c: Clocked, op: Op, id: string, agent: AgentId)
    requires !(op.DeleteOp? && op.id == id)
    ensures |View(Apply(c, op).state, id, agent).turns| >= |View(c.state, id, agent).turns|
  {
    if op.RecordOp? && !Tombstoned(c.state.deleted, op.id, c.now) {
      RecordView(c.state, c.now, op.id, op.delivery, id, agent);
      RecordAgentShape(View(c.state, op.id, op.delivery.agent), op.delivery);
    }
  }

  /** Once the agent has recorded another turn, no delivery at all can end the block: only deletion does. */
  lemma {:induction false} PassedForGood(c: Clocked, ops: seq<Op>, id: string, agent: AgentId, f: FailedTurn)
    requires Pending(c, id, agent, f) && |View(c.state, id, agent).turns| > f.recordedTurns
    requires !MentionsDelete(ops, id)
    ensures !Ended(c, ops, id, agent)
    ensures Pending(ApplyAll(c, ops), id, agent, f) && Refused(ApplyAll(c, ops).state, id)
    decreases |ops|
  {
    if ops == [] {
      RefusedWhilePending(c.state, id, agent);
    } else {
      assert !(ops[0].DeleteOp? && ops[0].id == id);
      assert !Ends(c, ops[0], id, agent);
      StepPending(c, ops[0], id, agent, f);
      StepGrows(c, ops[0], id, agent);
      forall i | 0 <= i < |ops[1..]| ensures !(ops[1..][i].DeleteOp? && ops[1..][i].id == id) {
        assert ops[1..][i] == ops[i + 1];
      }
      PassedForGood(Apply(c, ops[0]), ops[1..], id, agent, f);
    }
  }

  /** Deliveries of the agent decide alone: what they were for other agents leaves its marker as it was. */
  lemma RepairIsPerAgent(c: Clocked, op: Op, id: string, agent: AgentId, other: AgentId)
    requires op.RecordOp? && op.id == id && op.delivery.agent == agent && other != agent
    ensures View(Apply(c, op).state, id, other) == View(c.state, id, other)
  {
    if !Tombstoned(c.state.deleted, id, c.now) {
      RecordView(c.state, c.now, id, op.delivery, id, other);
    }
  }

  // ---- What the marker does not cover ----------------------------------------

  function Mark(s: State, now: nat, id: string, d: Delivery): State {
    MarkFailed(s, now, id, d.agent, d.messages, d.prompt, d.completion)
  }

  /** A session that was just created. */
  function Fresh(id: string): State {
    State(map[id := Session(None, [], map[], false)], map[], [])
  }

  function FailureAt0(d: Delivery): FailedTurn
    requires Normalize(d.messages).Some?
  {
    FailedTurn(Normalize(d.messages).value, d.prompt, d.completion, 0)
  }

  /** Of two turns that fail to record one after the other, only the first is marked. */
  lemma OnlyFirstIsMarked(id: string, first: Delivery, second: Delivery, now: nat)
    requires first.agent == second.agent && Normalize(first.messages).Some?
    ensures Mark(Fresh(id), now, id, first) == Fresh(id).(failed := map[id := map[first.agent := FailureAt0(first)]])
    ensures Mark(Mark(Fresh(id), now, id, first), now, id, second) == Mark(Fresh(id), now, id, first)
  {
    assert View(Fresh(id), id, first.agent).turns == [];
    assert FailedOf(Fresh(id), id) == map[];
  }

  /** Delivering the first turn again stores it and clears the marker. */
  lemma FirstIsRepaired(id: string, first: Delivery, marked: State, now: nat)
    requires Normalize(first.messages).Some?
    requires marked == Fresh(id).(failed := map[id := map[first.agent := FailureAt0(first)]])
    ensures var after := Record(marked, now, id, first).0;
            && id in after.sessions && id !in after.failed
            && |after.sessions[id].turns| == 1 && after.sessions[id].turns[0].completion == first.completion
  {
    var before := View(marked, id, first.agent);
    assert before == AgentState([], None, Some(FailureAt0(first)));
    assert Repairs(before, first);
    assert Judge([], first) == Store(first.messages, first.prompt, true);
    RecordWithAppend(marked, now, id, first);
    assert ClearFailure(marked.failed, id, first.agent) == map[] by {
      assert marked.failed[id] - {first.agent} == map[];
    }
  }

  /**
   The marker keeps the first failure of an agent only, so a second committed turn that also fails to record is not
   guarded: repairing the first one reopens collection of a record that lacks the second.
   */
  lemma SecondFailureIsNotGuarded(id: string, first: Delivery, second: Delivery, now: nat)
    requires first.agent == second.agent && Normalize(first.messages).Some? && first.completion != second.completion
    ensures var marked := Mark(Mark(Fresh(id), now, id, first), now, id, second);
            var after := Record(marked, now, id, first).0;
            && DumpOf(after, id).Served? && Finalizable(after, id)
            && forall i :: 0 <= i < |DumpOf(after, id).session.turns| ==>
                 DumpOf(after, id).session.turns[i].completion != second.completion
  {
    OnlyFirstIsMarked(id, first, second, now);
    FirstIsRepaired(id, first, Mark(Fresh(id), now, id, first), now);
  }

  /**
   Marking a turn leaves its own marker in place if and only if the agent has no other failure pending (and the session
   is not deleted).
   */
  lemma GuardedIffFirst(c: Clocked, id: string, d: Delivery)
    requires Normalize(d.messages).Some? && !Tombstoned(c.state.deleted, id, c.now)
    ensures var f := FailedTurn(Normalize(d.messages).value, d.prompt, d.completion, |View(c.state, id, d.agent).turns|);
            Pending(Apply(c, MarkOp(id, d.agent, d.messages, d.prompt, d.completion)), id, d.agent, f)
            <==> View(c.state, id, d.agent).failed.None? || View(c.state, id, d.agent).failed == Some(f)
  {
  }

  // ---- What the completion handler can bring about ------------------------------

  /** The handler normalizes a request before it commits it, so it only hands over requests that normalize. */
  predicate HandledOp(op: Op) {
    match op
    case RecordOp(_, d) => Normalize(d.messages).Some?
    case MarkOp(_, _, ms, _, _) => Normalize(ms).Some?
    case _ => true
  }

  predicate Handled(ops: seq<Op>) {
    forall i :: 0 <= i < |ops| ==> HandledOp(ops[i])
  }

  /** A marker names a turn that can be delivered, at a position the record has reached. */
  predicate MarkerSound(a: AgentState) {
    && Comparable(a.turns)
    && (a.failed.Some? ==>
          Normalize(a.failed.value.messages) == Some(a.failed.value.messages) && a.failed.value.recordedTurns <= |a.turns|)
  }

  /** A session's table of markers goes with its last marker, and a deleted session has none. */
  predicate TablesUsed(s: State) {
    forall id :: id in s.failed ==> s.failed[id] != map[]
  }

  ghost predicate Orderly(c: Clocked) {
    TablesUsed(c.state) && forall id, agent :: MarkerSound(View(c.state, id, agent))
  }

  lemma NormalFormsStay(ms: seq<Message>)
    requires Normalize(ms).Some?
    ensures Normalize(Normalize(ms).value) == Normalize(ms)
  {
    NormalizePointwise(ms);
  }

  lemma RecordKeepsMarkers(c: Clocked, op: Op, id: string, agent: AgentId)
    requires Orderly(c) && op.RecordOp? && HandledOp(op)
    ensures MarkerSound(View(Apply(c, op).state, id, agent))
  {
    assert MarkerSound(View(c.state, id, agent)) && MarkerSound(View(c.state, op.id, op.delivery.agent));
    if !Tombstoned(c.state.deleted, op.id, c.now) {
      RecordView(c.state, c.now, op.id, op.delivery, id, agent);
      RecordAgentShape(View(c.state, op.id, op.delivery.agent), op.delivery);
      StoredOpeningsCompare(View(c.state, op.id, op.delivery.agent), op.delivery);
    }
  }

  lemma MarkKeepsMarkers(c: Clocked, op: Op, id: string, agent: AgentId)
    requires Orderly(c) && op.MarkOp? && HandledOp(op)
    ensures MarkerSound(View(Apply(c, op).state, id, agent))
  {
    assert MarkerSound(View(c.state, id, agent));
    NormalFormsStay(op.messages);
  }

  lemma StepKeepsMarkers(c: Clocked, op: Op, id: string, agent: AgentId)
    requires Orderly(c) && HandledOp(op)
    ensures MarkerSound(View(Apply(c, op).state, id, agent))
  {
    assert MarkerSound(View(c.state, id, agent));
    if op.RecordOp? {
      RecordKeepsMarkers(c, op, id, agent);
    } else if op.MarkOp? {
      MarkKeepsMarkers(c, op, id, agent);
    }
  }

  /** Clearing a marker drops the table it leaves empty. */
  lemma ClearKeepsTables(failed: map<string, map<AgentId, FailedTurn>>, id: string, agent: AgentId)
    requires forall k :: k in failed ==> failed[k] != map[]
    ensures forall k :: k in ClearFailure(failed, id, agent) ==> ClearFailure(failed, id, agent)[k] != map[]
  {
  }

  lemma StepKeepsTables(c: Clocked, op: Op)
    requires TablesUsed(c.state) && HandledOp(op)
    ensures TablesUsed(Apply(c, op).state)
  {
    if op.RecordOp? {
      var before := View(c.state, op.id, op.delivery.agent);
      RecordAgentShape(before, op.delivery);
      ClearKeepsTables(c.state.failed, op.id, op.delivery.agent);
    }
  }

  lemma StepKeepsOrderly(c: Clocked, op: Op)
    requires Orderly(c) && HandledOp(op)
    ensures Orderly(Apply(c, op))
  {
    StepKeepsTables(c, op);
    forall id, agent ensures MarkerSound(View(Apply(c, op).state, id, agent)) {
      StepKeepsMarkers(c, op, id, agent);
    }
  }

  lemma {:induction false} HandledRunIsOrderly(c: Clocked, ops: seq<Op>)
    requires Orderly(c) && Handled(ops)
    ensures Orderly(ApplyAll(c, ops))
    decreases |ops|
  {
    if ops != [] {
      assert HandledOp(ops[0]);
      StepKeepsOrderly(c, ops[0]);
      assert forall i :: 0 <= i < |ops[1..]| ==> ops[1..][i] == ops[i + 1];
      HandledRunIsOrderly(Apply(c, ops[0]), ops[1..]);
    }
  }

  const NOTHING := Clocked(INITIAL, 0)

  /** After any calls the handler can make, a session can be collected exactly when it exists and no marker is pending. */
  lemma CollectableIffNothingPending(ops: seq<Op>, id: string)
    requires Handled(ops)
    ensures var s := ApplyAll(NOTHING, ops).state;
            && (DumpOf(s, id).Served? <==> id in s.sessions && forall agent :: View(s, id, agent).failed.None?)
            && (Finalizable(s, id) <==> DumpOf(s, id).Served?)
  {
    HandledRunIsOrderly(NOTHING, ops);
    var s := ApplyAll(NOTHING, ops).state;
    if id in s.failed {
      assert s.failed[id] != map[];
      var agent :| agent in s.failed[id];
      assert View(s, id, agent).failed.Some?;
    }
  }

  // ---- When collection can reopen without a failed turn -----------------------------

  predicate SameTurn(x: Delivery, d: Delivery) {
    x.agent == d.agent && x.prompt == d.prompt && x.completion == d.completion && Normalize(x.messages) == Normalize(d.messages)
  }

  /** Calls that neither delete the session nor deliver this very turn. */
  predicate Avoids(ops: seq<Op>, id: string, d: Delivery) {
    forall i :: 0 <= i < |ops| ==> AvoidsOp(ops[i], id, d)
  }

  predicate AvoidsOp(op: Op, id: string, d: Delivery) {
    && !(op.DeleteOp? && op.id == id)
    && !(op.RecordOp? && op.id == id && SameTurn(op.delivery, d))
  }

  function MarkOf(id: string, d: Delivery): Op {
    MarkOp(id, d.agent, d.messages, d.prompt, d.completion)
  }

  predicate MarksTurn(f: FailedTurn, d: Delivery) {
    Normalize(d.messages) == Some(f.messages) && d.prompt == f.prompt && d.completion == f.completion
  }

  /** Nothing was recorded since the failure. */
  predicate InPlace(a: AgentState) {
    a.failed.Some? ==> |a.turns| == a.failed.value.recordedTurns
  }

  /** The agent's pending failure is another turn, and every pending failure of the session can still be repaired. */
  ghost predicate Uncovered(c: Clocked, id: string, d: Delivery) {
    && View(c.state, id, d.agent).failed.Some? && !MarksTurn(View(c.state, id, d.agent).failed.value, d)
    && forall agent :: InPlace(View(c.state, id, agent))
  }

  lemma AvoidsRest(ops: seq<Op>, id: string, d: Delivery)
    requires Avoids(ops, id, d) && ops != []
    ensures AvoidsOp(ops[0], id, d) && Avoids(ops[1..], id, d)
  {
    assert forall i :: 0 <= i < |ops[1..]| ==> ops[1..][i] == ops[i + 1];
  }

  /** Only its own delivery ends a turn's own marker. */
  lemma {:induction false} OwnMarkerHolds(c: Clocked, ops: seq<Op>, id: string, d: Delivery, f: FailedTurn)
    requires Pending(c, id, d.agent, f) && MarksTurn(f, d) && Avoids(ops, id, d)
    ensures !Ended(c, ops, id, d.agent)
    decreases |ops|
  {
    if ops != [] {
      AvoidsRest(ops, id, d);
      assert !Ends(c, ops[0], id, d.agent);
      StepPending(c, ops[0], id, d.agent, f);
      OwnMarkerHolds(Apply(c, ops[0]), ops[1..], id, d, f);
    }
  }

  lemma AvoidingDeletesNothing(ops: seq<Op>, id: string, d: Delivery)
    requires Avoids(ops, id, d)
    ensures !MentionsDelete(ops, id)
  {
    forall i | 0 <= i < |ops| ensures !(ops[i].DeleteOp? && ops[i].id == id) {
      assert AvoidsOp(ops[i], id, d);
    }
  }

  /** A covered turn keeps collection closed through any calls that do not deliver it. */
  lemma CoveredStaysClosed(c: Clocked, ops: seq<Op>, id: string, d: Delivery)
    requires Orderly(c) && Normalize(d.messages).Some? && !Tombstoned(c.state.deleted, id, c.now)
    requires !Uncovered(c, id, d) && Avoids(ops, id, d)
    ensures Refused(ApplyAll(Apply(c, MarkOf(id, d)), ops).state, id)
  {
    var marked := Apply(c, MarkOf(id, d));
    AvoidingDeletesNothing(ops, id, d);
    if View(c.state, id, d.agent).failed.Some? && !MarksTurn(View(c.state, id, d.agent).failed.value, d) {
      var agent :| !InPlace(View(c.state, id, agent));
      assert MarkerSound(View(c.state, id, agent));
      MarkKeepsPending(c.state, c.now, id, agent, id, d.agent, d.messages, d.prompt, d.completion);
      StepGrows(c, MarkOf(id, d), id, agent);
      PassedForGood(marked, ops, id, agent, View(c.state, id, agent).failed.value);
    } else {
      GuardedIffFirst(c, id, d);
      var f := View(marked.state, id, d.agent).failed;
      assert f.Some? && MarksTurn(f.value, d);
      OwnMarkerHolds(marked, ops, id, d, f.value);
      BlockedUntilExactRetry(marked, ops, id, d.agent, f.value);
    }
  }

  /** The exact retry of a pending failure. */
  function Retry(agent: AgentId, f: FailedTurn): Delivery {
    Delivery(agent, f.messages, f.prompt, f.completion, [], None, Meta("", None, None, None))
  }

  lemma RetryRepairs(a: AgentState, agent: AgentId)
    requires MarkerSound(a) && a.failed.Some? && InPlace(a)
    ensures Repairs(a, Retry(agent, a.failed.value))
    ensures RecordAgent(a, Retry(agent, a.failed.value)).1 != Raised
    ensures RecordAgent(a, Retry(agent, a.failed.value)).0.failed.None?
  {
  }

  lemma ClearedTable(failed: map<string, map<AgentId, FailedTurn>>, id: string, agent: AgentId)
    requires id in failed && agent in failed[id]
    ensures var after := ClearFailure(failed, id, agent);
            (if id in after then after[id] else map[]) == failed[id] - {agent}
  {
  }

  /** An exact retry takes its agent's marker off the session's table, creates the session, and touches no other agent. */
  lemma RetryClears(c: Clocked, id: string, agent: AgentId) returns (op: Op)
    requires Orderly(c) && !Tombstoned(c.state.deleted, id, c.now)
    requires agent in FailedOf(c.state, id) && InPlace(View(c.state, id, agent))
    ensures op == RecordOp(id, Retry(agent, FailedOf(c.state, id)[agent])) && HandledOp(op)
    ensures FailedOf(Apply(c, op).state, id) == FailedOf(c.state, id) - {agent}
    ensures id in Apply(c, op).state.sessions && Apply(c, op).state.deleted == c.state.deleted && Apply(c, op).now == c.now
    ensures forall other :: other != agent ==> View(Apply(c, op).state, id, other) == View(c.state, id, other)
  {
    var a := View(c.state, id, agent);
    var d := Retry(agent, FailedOf(c.state, id)[agent]);
    op := RecordOp(id, d);
    assert MarkerSound(a);
    RetryRepairs(a, agent);
    ClearedTable(c.state.failed, id, agent);
    if RecordAgent(a, d).1 == Recorded {
      RecordWithAppend(c.state, c.now, id, d);
    } else {
      RecordWithoutAppend(c.state, c.now, id, d);
    }
    forall other | other != agent ensures View(Apply(c, op).state, id, other) == View(c.state, id, other) {
      RecordView(c.state, c.now, id, d, id, other);
    }
  }

  /** Every marker of the session is in place, and none is this turn's. */
  ghost predicate Repairable(c: Clocked, id: string, d: Delivery) {
    && Orderly(c) && !Tombstoned(c.state.deleted, id, c.now)
    && (forall agent :: InPlace(View(c.state, id, agent)))
    && (View(c.state, id, d.agent).failed.Some? ==> !MarksTurn(View(c.state, id, d.agent).failed.value, d))
  }

  /** One repair leaves the same situation with one marker less. */
  lemma RepairNext(c: Clocked, id: string, d: Delivery, agent: AgentId) returns (op: Op, after: Clocked)
    requires Repairable(c, id, d) && agent in FailedOf(c.state, id)
    ensures HandledOp(op) && AvoidsOp(op, id, d) && after == Apply(c, op)
    ensures Repairable(after, id, d) && id in after.state.sessions
    ensures |FailedOf(after.state, id)| < |FailedOf(c.state, id)|
  {
    op := RetryClears(c, id, agent);
    after := Apply(c, op);
    StepKeepsOrderly(c, op);
    var table := FailedOf(c.state, id);
    assert |table - {agent}| < |table|;
    forall other ensures InPlace(View(after.state, id, other)) {
      if other != agent {
        assert View(after.state, id, other) == View(c.state, id, other);
      } else {
        assert agent !in FailedOf(after.state, id);
      }
    }
  }

  lemma AvoidsFirst(c: Clocked, op: Op, rest: seq<Op>, id: string, d: Delivery)
    requires HandledOp(op) && AvoidsOp(op, id, d) && Handled(rest) && Avoids(rest, id, d)
    ensures Handled([op] + rest) && Avoids([op] + rest, id, d)
    ensures ApplyAll(c, [op] + rest) == ApplyAll(Apply(c, op), rest)
  {
    assert ([op] + rest)[1..] == rest;
  }

  /** Repairing every marker in place, one after the other, reopens the session. */
  lemma {:induction false} RepairAll(c: Clocked, id: string, d: Delivery) returns (ops: seq<Op>)
    requires Repairable(c, id, d) && (FailedOf(c.state, id) != map[] || id in c.state.sessions)
    ensures Handled(ops) && Avoids(ops, id, d)
    ensures id in ApplyAll(c, ops).state.sessions && id !in ApplyAll(c, ops).state.failed
    decreases |FailedOf(c.state, id)|
  {
    if FailedOf(c.state, id) == map[] {
      ops := [];
    } else {
      var agent :| agent in FailedOf(c.state, id);
      var op, after := RepairNext(c, id, d, agent);
      var rest := RepairAll(after, id, d);
      AvoidsFirst(c, op, rest, id, d);
      ops := [op] + rest;
    }
  }

  ghost predicate CanReopen(c: Clocked, id: string, d: Delivery) {
    exists ops :: Handled(ops) && Avoids(ops, id, d) && !Refused(ApplyAll(c, ops).state, id)
  }

  /**
   Exactly when marking a failed turn does not keep collection closed. After any calls the handler can make, marking
   the turn leaves a way to reopen collection without ever delivering it if and only if the agent already has another
   turn's failure pending and every pending failure of the session is still in place, so that repairing them all is
   possible. Otherwise no calls short of deletion or the turn's own delivery reopen it.
   */
  lemma ReopensExactlyWhenUncovered(history: seq<Op>, id: string, d: Delivery)
    requires Handled(history) && Normalize(d.messages).Some?
    requires var c := ApplyAll(NOTHING, history); !Tombstoned(c.state.deleted, id, c.now)
    ensures var c := ApplyAll(NOTHING, history); CanReopen(Apply(c, MarkOf(id, d)), id, d) <==> Uncovered(c, id, d)
  {
    HandledRunIsOrderly(NOTHING, history);
    var c := ApplyAll(NOTHING, history);
    var marked := Apply(c, MarkOf(id, d));
    if Uncovered(c, id, d) {
      assert marked == c;
      var ops := RepairAll(c, id, d);
      assert !Refused(ApplyAll(marked, ops).state, id);
    } else {
      forall ops | Handled(ops) && Avoids(ops, id, d) ensures Refused(ApplyAll(marked, ops).state, id) {
        CoveredStaysClosed(c, ops, id, d);
      }
    }
  }

  // ---- What stays of a session ---------------------------------------------------------

  predicate NamesModel(s: State, id: string, model: string) {
    id in s.sessions && s.sessions[id].modelName == Some(model)
  }

  lemma RecordKeepsModel(c: Clocked, op: Op, id: string, model: string)
    requires op.RecordOp? && NamesModel(c.state, id, model)
    ensures NamesModel(Apply(c, op).state, id, model)
  {
    if !Tombstoned(c.state.deleted, op.id, c.now) {
      var before := View(c.state, op.id, op.delivery.agent);
      if RecordAgent(before, op.delivery).1 == Recorded {
        RecordWithAppend(c.state, c.now, op.id, op.delivery);
      } else {
        RecordWithoutAppend(c.state, c.now, op.id, op.delivery);
      }
    }
  }

  /** The first model a session is stamped with stays, whatever is requested later, until the session is deleted. */
  lemma {:induction false} FirstModelStays(c: Clocked, ops: seq<Op>, id: string, model: string)
    requires NamesModel(c.state, id, model) && !MentionsDelete(ops, id)
    ensures NamesModel(ApplyAll(c, ops).state, id, model)
    decreases |ops|
  {
    if ops != [] {
      assert !(ops[0].DeleteOp? && ops[0].id == id);
      if ops[0].RecordOp? {
        RecordKeepsModel(c, ops[0], id, model);
      }
      forall i | 0 <= i < |ops[1..]| ensures !(ops[1..][i].DeleteOp? && ops[1..][i].id == id) {
        assert ops[1..][i] == ops[i + 1];
      }
      FirstModelStays(Apply(c, ops[0]), ops[1..], id, model);
    }
  }

  // ---- Completion ----------------------------------------------------------------------

  /** The session was finalized when it could be collected, and was not deleted since. */
  predicate FinalizedIn(c: Clocked, ops: seq<Op>, id: string)
    decreases |ops|
  {
    ops != [] &&
    (|| (ops[0] == FinalizeOp(id) && DumpOf(c.state, id).Served? && !MentionsDelete(ops[1..], id))
     || FinalizedIn(Apply(c, ops[0]), ops[1..], id))
  }

  predicate Completed(s: State, id: string) {
    id in s.sessions && s.sessions[id].completed
  }

  lemma StepCompletes(c: Clocked, op: Op, id: string)
    ensures Completed(Apply(c, op).state, id)
       <==> !(op.DeleteOp? && op.id == id) && (Completed(c.state, id) || (op == FinalizeOp(id) && DumpOf(c.state, id).Served?))
  {
    if op.RecordOp? && !Tombstoned(c.state.deleted, op.id, c.now) {
      if RecordAgent(View(c.state, op.id, op.delivery.agent), op.delivery).1 == Recorded {
        RecordWithAppend(c.state, c.now, op.id, op.delivery);
      } else {
        RecordWithoutAppend(c.state, c.now, op.id, op.delivery);
      }
    }
  }

  /** A session is complete exactly when it was finalized while it could be collected, and not deleted since. */
  lemma {:induction false} CompleteExactlyWhenFinalized(c: Clocked, ops: seq<Op>, id: string)
    ensures Completed(ApplyAll(c, ops).state, id)
       <==> (Completed(c.state, id) && !MentionsDelete(ops, id)) || FinalizedIn(c, ops, id)
    decreases |ops|
  {
    if ops != [] {
      StepCompletes(c, ops[0], id);
      CompleteExactlyWhenFinalized(Apply(c, ops[0]), ops[1..], id);
      MentionsDeleteFirst(ops, id);
    }
  }

  lemma MentionsDeleteFirst(ops: seq<Op>, id: string)
    requires ops != []
    ensures MentionsDelete(ops, id) <==> (ops[0].DeleteOp? && ops[0].id == id) || MentionsDelete(ops[1..], id)
  {
    if MentionsDelete(ops[1..], id) {
      var i :| 0 <= i < |ops[1..]| && ops[1..][i].DeleteOp? && ops[1..][i].id == id;
      assert ops[i + 1] == ops[1..][i];
    }
    if MentionsDelete(ops, id) && !(ops[0].DeleteOp? && ops[0].id == id) {
      var i :| 0 <= i < |ops| && ops[i].DeleteOp? && ops[i].id == id;
      assert ops[1..][i - 1] == ops[i];
    }
  }
}
