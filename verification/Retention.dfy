/**
 Runs of the token-stream manager: eviction order, how long a stream is kept, how often a
 committed turn is served again, and the gap before a continuation (proxyserver/token_stream.py).
 */
module Retention {
  import opened Wrappers
  import opened Messages
  import opened TokenStream

  datatype Op =
    | Repeat(id: string, messages: seq<Message>, effort: Option<Effort>)
    | Prompt(id: string, messages: seq<Message>, tools: seq<ToolDefinition>, effort: Option<Effort>)
    | Commit(id: string, state: StreamState)
    | Release(id: string)
    | Parse(id: string, completion: seq<Token>, served: Message)

  function Apply(p: Profile, m: Manager, op: Op): Manager {
    match op
    case Repeat(id, ms, effort) => CachedTurn(p, m, id, ms, effort).0
    case Prompt(id, ms, tools, effort) => BuildPrompt(p, m, id, ms, tools, effort).0
    case Commit(id, state) => Install(p, m, id, state)
    case Release(id) => Drop(m, id)
    case Parse(id, completion, served) => Publish(m, id, completion, served)
  }

  function ApplyAll(p: Profile, m: Manager, ops: seq<Op>): Manager
    decreases |ops|
  {
    if ops == [] then m else ApplyAll(p, Apply(p, m, ops[0]), ops[1..])
  }

  // ---- Bounded, disjoint tables ---------------------------------------------

  predicate SameElements(order: seq<string>, keys: set<string>) {
    (forall k :: k in order ==> k in keys) && (forall k :: k in keys ==> k in order)
  }

  predicate Disjoint(a: seq<string>, b: seq<string>) {
    forall k :: k in a ==> k !in b
  }

  /** Held and evicted ids are disjoint and each table respects the bound. */
  predicate Well(p: Profile, m: Manager) {
    && Distinct(m.order) && SameElements(m.order, m.states.Keys)
    && Distinct(m.evicted) && Disjoint(m.order, m.evicted)
    && |m.order| <= p.maxSessions && |m.evicted| <= p.maxSessions
  }

  lemma TouchWell(p: Profile, m: Manager, id: string)
    requires Well(p, m)
    ensures Well(p, Touch(m, id))
  {
    if id in m.states {
      WithoutDistinct(m.order, id);
      AppendDistinct(Without(m.order, id), id);
    }
  }

  lemma OldestLeaves(p: Profile, m: Manager)
    requires Distinct(m.order) && SameElements(m.order, m.states.Keys) && m.order != []
    ensures SameElements(EvictOldest(m, p.maxSessions).order, EvictOldest(m, p.maxSessions).states.Keys)
  {
    var oldest := m.order[0];
    var next := EvictOldest(m, p.maxSessions);
    assert m.order == [oldest] + m.order[1..];
    forall k | k in next.order ensures k in next.states.Keys {
      assert k in m.order && k != oldest;
    }
  }

  /** One entry above the bound: the oldest goes, and its id moves to the bounded list of evicted ids. */
  lemma EvictOneWell(p: Profile, m: Manager)
    requires Distinct(m.order) && SameElements(m.order, m.states.Keys)
    requires Distinct(m.evicted) && Disjoint(m.order, m.evicted)
    requires |m.order| <= p.maxSessions + 1 && |m.evicted| <= p.maxSessions
    ensures Well(p, EvictDown(m, p.maxSessions))
  {
    if |m.order| > p.maxSessions {
      var oldest := m.order[0];
      var next := EvictOldest(m, p.maxSessions);
      assert m.order == [oldest] + m.order[1..];
      AppendDistinct(m.evicted, oldest);
      OldestLeaves(p, m);
      assert EvictDown(next, p.maxSessions) == next;
    }
  }

  lemma InstallWell(p: Profile, m: Manager, id: string, state: StreamState)
    requires Well(p, m)
    ensures Well(p, Install(p, m, id, state))
  {
    WithoutDistinct(m.order, id);
    AppendDistinct(Without(m.order, id), id);
    WithoutDistinct(m.evicted, id);
    EvictOneWell(p, Manager(m.states[id := state], Without(m.order, id) + [id], Without(m.evicted, id)));
  }

  lemma DropWell(p: Profile, m: Manager, id: string)
    requires Well(p, m)
    ensures Well(p, Drop(m, id))
  {
    WithoutDistinct(m.order, id);
    WithoutDistinct(m.evicted, id);
  }

  lemma RepeatWell(p: Profile, m: Manager, op: Op)
    requires Well(p, m) && op.Repeat?
    ensures Well(p, Apply(p, m, op))
  {
    if op.id in m.states {
      TouchWell(p, m.(states := m.states[op.id := m.states[op.id].(replays := m.states[op.id].replays + 1)]), op.id);
    }
  }

  lemma ParseWell(p: Profile, m: Manager, op: Op)
    requires Well(p, m) && op.Parse?
    ensures Well(p, Apply(p, m, op))
  {
  }

  lemma StepWell(p: Profile, m: Manager, op: Op)
    requires Well(p, m)
    ensures Well(p, Apply(p, m, op))
  {
    match op
    case Repeat(_, _, _) => RepeatWell(p, m, op);
    case Prompt(id, ms, tools, effort) => TouchWell(p, m, id);
    case Commit(id, state) => InstallWell(p, m, id, state);
    case Release(id) => DropWell(p, m, id);
    case Parse(_, _, _) => ParseWell(p, m, op);
  }

  /** Over any run the tables stay disjoint and bounded. */
  lemma {:induction false} RunWell(p: Profile, m: Manager, ops: seq<Op>)
    requires Well(p, m)
    ensures Well(p, ApplyAll(p, m, ops))
    decreases |ops|
  {
    if ops != [] {
      StepWell(p, m, ops[0]);
      RunWell(p, Apply(p, m, ops[0]), ops[1..]);
    }
  }

  // ---- How long a stream is kept -----------------------------------------------

  /** The ids used more recently than `id`. */
  function Newer(order: seq<string>, id: string): set<string> {
    if order == [] then {}
    else if order[0] == id then set k | k in order[1..]
    else Newer(order[1..], id)
  }

  lemma {:induction false} NewerAppend(order: seq<string>, id: string, k: string)
    requires id in order
    ensures Newer(order + [k], id) == Newer(order, id) + {k}
  {
    assert (order + [k])[0] == order[0] && (order + [k])[1..] == order[1..] + [k];
    if order[0] != id {
      NewerAppend(order[1..], id, k);
    }
  }

  lemma {:induction false} NewerWithout(order: seq<string>, id: string, k: string)
    requires k != id
    ensures Newer(Without(order, k), id) <= Newer(order, id)
  {
    if order != [] {
      NewerWithout(order[1..], id, k);
      var rest := Without(order[1..], k);
      if order[0] != k {
        assert ([order[0]] + rest)[1..] == rest;
      } else {
        assert [] + rest == rest;
        assert Without(order, k) == rest;
      }
    }
  }

  lemma {:induction false} NewestHasNoNewer(order: seq<string>, id: string)
    requires id !in order
    ensures Newer(order + [id], id) == {}
  {
    if order != [] {
      assert (order + [id])[0] == order[0] && (order + [id])[1..] == order[1..] + [id];
      NewestHasNoNewer(order[1..], id);
    }
  }

  lemma {:induction false} DistinctCardinality(s: seq<string>)
    requires Distinct(s)
    ensures |set k | k in s| == |s|
  {
    if s != [] {
      DistinctCardinality(s[1..]);
      assert (set k | k in s) == {s[0]} + (set k | k in s[1..]);
      assert s[0] !in s[1..];
    }
  }

  /** A stream is never the one evicted while fewer than the bound were used more recently. */
  lemma OldestHasManyNewer(p: Profile, order: seq<string>, id: string)
    requires Distinct(order) && order != [] && order[0] == id
    ensures |Newer(order, id)| == |order| - 1
  {
    DistinctCardinality(order[1..]);
  }

  /** The streams an operation marks as most recently used. */
  function Touched(p: Profile, m: Manager, op: Op): set<string> {
    match op
    case Repeat(id, ms, effort) => if CachedTurn(p, m, id, ms, effort).1.Hit? then {id} else {}
    case Prompt(id, ms, _, _) => if Normalize(ms).Some? && id in m.states then {id} else {}
    case Commit(id, _) => {id}
    case Release(_) => {}
    case Parse(_, _, _) => {}
  }

  function TouchedInRun(p: Profile, m: Manager, ops: seq<Op>): set<string>
    decreases |ops|
  {
    if ops == [] then {} else Touched(p, m, ops[0]) + TouchedInRun(p, Apply(p, m, ops[0]), ops[1..])
  }

  predicate Replaces(op: Op, id: string) {
    (op.Commit? || op.Release?) && op.id == id
  }

  predicate NeverReplaced(ops: seq<Op>, id: string) {
    forall i :: 0 <= i < |ops| ==> !Replaces(ops[i], id)
  }

  /** Held with these tokens, this history and this replay data. */
  predicate Keeps(m: Manager, id: string, state: StreamState) {
    && id in m.states
    && m.states[id].stream == state.stream && m.states[id].messages == state.messages
    && m.states[id].tools == state.tools && m.states[id].effort == state.effort
  }

  lemma TouchNewer(m: Manager, id: string, k: string)
    requires id in m.order && Distinct(m.order)
    ensures id in Touch(m, k).order
    ensures Newer(Touch(m, k).order, id) <= Newer(m.order, id) + (if k == id then {} else {k})
  {
    if k in m.states {
      if k == id {
        WithoutDistinct(m.order, id);
        NewestHasNoNewer(Without(m.order, id), id);
      } else {
        NewerWithout(m.order, id, k);
        NewerAppend(Without(m.order, k), id, k);
      }
    }
  }

  /** Committing another stream evicts this one only when the bound of more recent streams is reached. */
  lemma InstallOtherKeeps(p: Profile, m: Manager, id: string, k: string, state: StreamState)
    requires Well(p, m) && id in m.states && k != id
    requires |Newer(m.order, id) + {k}| < p.maxSessions
    ensures var after := Install(p, m, k, state);
            && id in after.states && after.states[id] == m.states[id]
            && Newer(after.order, id) <= Newer(m.order, id) + {k}
  {
    var full := Manager(m.states[k := state], Without(m.order, k) + [k], Without(m.evicted, k));
    WithoutDistinct(m.order, k);
    AppendDistinct(Without(m.order, k), k);
    NewerWithout(m.order, id, k);
    NewerAppend(Without(m.order, k), id, k);
    var newer := Newer(full.order, id);
    assert newer <= Newer(m.order, id) + {k};
    SubsetCardinality(newer, Newer(m.order, id) + {k});
    if |full.order| > p.maxSessions {
      if full.order[0] == id {
        OldestHasManyNewer(p, full.order, id);
        assert false;
      }
      var next := EvictOldest(full, p.maxSessions);
      assert EvictDown(next, p.maxSessions) == next;
    }
  }

  lemma {:induction false} SubsetCardinality(a: set<string>, b: set<string>)
    requires a <= b
    ensures |a| <= |b|
    decreases |a|
  {
    if a != {} {
      var x :| x in a;
      SubsetCardinality(a - {x}, b - {x});
    }
  }

  lemma RepeatKeeps(p: Profile, m: Manager, op: Op, id: string, state: StreamState)
    requires Well(p, m) && Keeps(m, id, state) && op.Repeat?
    ensures Keeps(Apply(p, m, op), id, state)
    ensures Newer(Apply(p, m, op).order, id) <= Newer(m.order, id) + (Touched(p, m, op) - {id})
  {
    if CachedTurn(p, m, op.id, op.messages, op.effort).1.Hit? {
      TouchNewer(m.(states := m.states[op.id := m.states[op.id].(replays := m.states[op.id].replays + 1)]), id, op.id);
    }
  }

  lemma PromptKeeps(p: Profile, m: Manager, op: Op, id: string, state: StreamState)
    requires Well(p, m) && Keeps(m, id, state) && op.Prompt?
    ensures Keeps(Apply(p, m, op), id, state)
    ensures Newer(Apply(p, m, op).order, id) <= Newer(m.order, id) + (Touched(p, m, op) - {id})
  {
    if Normalize(op.messages).Some? && op.id in m.states {
      TouchNewer(m, id, op.id);
    }
  }

  lemma StepKeeps(p: Profile, m: Manager, op: Op, id: string, state: StreamState, others: set<string>)
    requires Well(p, m) && Keeps(m, id, state) && !Replaces(op, id)
    requires Newer(m.order, id) + (Touched(p, m, op) - {id}) <= others && |others| < p.maxSessions
    ensures Keeps(Apply(p, m, op), id, state)
    ensures Newer(Apply(p, m, op).order, id) <= others
  {
    assert id in m.order;
    match op
    case Repeat(_, _, _) => RepeatKeeps(p, m, op, id, state);
    case Prompt(_, _, _, _) => PromptKeeps(p, m, op, id, state);
    case Commit(k, st) =>
      SubsetCardinality(Newer(m.order, id) + {k}, others);
      InstallOtherKeeps(p, m, id, k, st);
    case Release(k) =>
      NewerWithout(m.order, id, k);
    case Parse(_, _, _) =>
  }

  lemma {:induction false} RunKeeps(p: Profile, m: Manager, ops: seq<Op>, id: string, state: StreamState, others: set<string>)
    requires Well(p, m) && Keeps(m, id, state) && NeverReplaced(ops, id)
    requires Newer(m.order, id) + (TouchedInRun(p, m, ops) - {id}) <= others && |others| < p.maxSessions
    ensures Keeps(ApplyAll(p, m, ops), id, state)
    decreases |ops|
  {
    if ops != [] {
      StepWell(p, m, ops[0]);
      StepKeeps(p, m, ops[0], id, state, others);
      RunKeeps(p, Apply(p, m, ops[0]), ops[1..], id, state, others);
    }
  }

  lemma NewestIsNewest(order: seq<string>, id: string)
    requires Distinct(order) && order != [] && order[|order| - 1] == id
    ensures Newer(order, id) == {}
  {
    var before := order[..|order| - 1];
    assert order == before + [id];
    assert id !in before;
    NewestHasNoNewer(before, id);
  }

  /**
   A stream keeps its exact tokens as long as fewer than `maxSessions` other streams were touched since it was last
   touched, whatever else happens meanwhile.
   */
  lemma KeptWhileFewOthersTouched(p: Profile, m: Manager, ops: seq<Op>, id: string)
    requires Well(p, m) && id in m.states && m.order[|m.order| - 1] == id
    requires NeverReplaced(ops, id) && |TouchedInRun(p, m, ops) - {id}| < p.maxSessions
    ensures Keeps(ApplyAll(p, m, ops), id, m.states[id])
  {
    NewestIsNewest(m.order, id);
    RunKeeps(p, m, ops, id, m.states[id], TouchedInRun(p, m, ops) - {id});
  }

  lemma NotedIsLast(evicted: seq<string>, id: string, bound: nat)
    requires id !in evicted && bound > 0
    ensures id in NoteEvicted(evicted, id, bound)
  {
    var noted := evicted + [id];
    assert noted[|noted| - 1] == id;
    if |noted| > bound {
      assert noted[1..][|noted| - 2] == id;
    }
  }

  /** A commit of a new stream to a full table evicts the oldest, and only that. */
  lemma FullTableEvictsOldest(p: Profile, m: Manager, k: string, state: StreamState)
    requires Well(p, m) && k !in m.states && |m.order| == p.maxSessions && p.maxSessions > 0
    ensures Install(p, m, k, state)
         == EvictOldest(Manager(m.states[k := state], m.order + [k], Without(m.evicted, k)), p.maxSessions)
  {
    WithoutAbsent(m.order, k);
    var full := Manager(m.states[k := state], m.order + [k], Without(m.evicted, k));
    var next := EvictOldest(full, p.maxSessions);
    assert EvictDown(next, p.maxSessions) == next;
  }

  lemma SpareTableEvictsNothing(p: Profile, m: Manager, k: string, state: StreamState)
    requires Well(p, m) && (k in m.states || |m.order| < p.maxSessions)
    ensures Install(p, m, k, state) == Manager(m.states[k := state], Without(m.order, k) + [k], Without(m.evicted, k))
  {
    WithoutDistinct(m.order, k);
    if k !in m.states {
      WithoutAbsent(m.order, k);
    } else {
      WithoutShortens(m.order, k);
    }
  }

  lemma {:induction false} WithoutShortens(s: seq<string>, k: string)
    requires k in s
    ensures |Without(s, k)| < |s|
  {
    if s[0] != k {
      WithoutShortens(s[1..], k);
    }
  }

  /** Exactly when a commit costs another stream its tokens: the table is full and that stream is its oldest. */
  lemma EvictedExactlyWhenOldestOfFull(p: Profile, m: Manager, id: string, k: string, state: StreamState)
    requires Well(p, m) && id in m.states && k != id
    ensures var after := Install(p, m, k, state); var evicts := k !in m.states && |m.order| == p.maxSessions && m.order[0] == id;
            && (id !in after.states <==> evicts)
            && (evicts ==> id in after.evicted)
            && k in after.states && after.states[k] == state
  {
    assert id in m.order;
    if k !in m.states && |m.order| == p.maxSessions {
      FullTableEvictsOldest(p, m, k, state);
      WithoutDistinct(m.evicted, k);
      assert (m.order + [k])[0] == m.order[0];
      assert m.order[0] in m.order && m.order[0] !in m.evicted;
      NotedIsLast(Without(m.evicted, k), m.order[0], p.maxSessions);
    } else {
      SpareTableEvictsNothing(p, m, k, state);
    }
  }

  lemma {:induction false} WithoutAbsent(s: seq<string>, k: string)
    requires k !in s
    ensures Without(s, k) == s
  {
    if s != [] {
      WithoutAbsent(s[1..], k);
    }
  }

  // ---- Serving a committed turn again -------------------------------------------------

  /** How many requests for `id` in a run are answered from its cached turn. */
  function Hits(p: Profile, m: Manager, ops: seq<Op>, id: string): nat
    decreases |ops|
  {
    if ops == [] then 0
    else
      var op := ops[0];
      (if op.Repeat? && op.id == id && CachedTurn(p, m, id, op.messages, op.effort).1.Hit? then 1 else 0)
      + Hits(p, Apply(p, m, op), ops[1..], id)
  }

  /** Every answer given from the cached turn of `id` in a run is this one. */
  predicate AllHitsAre(p: Profile, m: Manager, ops: seq<Op>, id: string, prompt: seq<Token>, completion: seq<Token>, reply: Reply)
    decreases |ops|
  {
    ops == [] ||
    var op := ops[0];
    && (op.Repeat? && op.id == id && CachedTurn(p, m, id, op.messages, op.effort).1.Hit? ==>
          CachedTurn(p, m, id, op.messages, op.effort).1 == Hit(prompt, completion, reply))
    && AllHitsAre(p, Apply(p, m, op), ops[1..], id, prompt, completion, reply)
  }

  predicate NeverCommitted(ops: seq<Op>, id: string) {
    forall i :: 0 <= i < |ops| ==> !(ops[i].Commit? && ops[i].id == id)
  }

  /** A refused repeat changes nothing: it neither spends a replay nor moves the stream. */
  lemma RefusedRepeatSpendsNothing(p: Profile, m: Manager, id: string, messages: seq<Message>, effort: Option<Effort>)
    requires !CachedTurn(p, m, id, messages, effort).1.Hit?
    ensures CachedTurn(p, m, id, messages, effort).0 == m
    ensures (id in m.states && m.states[id].lastTurn.Some? && Normalize(messages) == Some(m.states[id].messages)
             && effort != m.states[id].effort) ==> CachedTurn(p, m, id, messages, effort).1 == Refused(EffortChanged)
  {
  }

  /** What a commit leaves for its stream: the turn it committed, with some number of replays spent. */
  predicate HoldsTurn(m: Manager, id: string, prompt: seq<Token>, completion: seq<Token>, reply: Reply, spent: nat) {
    id in m.states ==>
      var st := m.states[id];
      && st.stream == prompt + completion && st.replays == spent
      && (st.lastTurn.Some? ==> st.lastTurn.value.completionLen == |completion| && st.lastTurn.value.reply == reply)
  }

  lemma HitSplitsExactly(p: Profile, m: Manager, id: string, messages: seq<Message>, effort: Option<Effort>,
                         prompt: seq<Token>, completion: seq<Token>, reply: Reply, spent: nat)
    requires HoldsTurn(m, id, prompt, completion, reply, spent) && completion != []
    requires CachedTurn(p, m, id, messages, effort).1.Hit?
    ensures CachedTurn(p, m, id, messages, effort).1 == Hit(prompt, completion, reply)
    ensures spent < p.maxReplays
  {
    var stream := prompt + completion;
    assert stream[..|stream| - |completion|] == prompt;
    assert stream[|stream| - |completion|..] == completion;
  }

  lemma StepHoldsTurn(p: Profile, m: Manager, op: Op, id: string, prompt: seq<Token>, completion: seq<Token>, reply: Reply, spent: nat)
    requires HoldsTurn(m, id, prompt, completion, reply, spent) && !(op.Commit? && op.id == id)
    ensures var hit := op.Repeat? && op.id == id && CachedTurn(p, m, id, op.messages, op.effort).1.Hit?;
            HoldsTurn(Apply(p, m, op), id, prompt, completion, reply, if hit then spent + 1 else spent)
  {
    if op.Commit? {
      InstallHolds(p, m, op.id, op.state);
    } else if op.Repeat? && !CachedTurn(p, m, op.id, op.messages, op.effort).1.Hit? {
      RefusedRepeatSpendsNothing(p, m, op.id, op.messages, op.effort);
    }
  }

  /**
   From any moment after a turn is committed until the stream commits again, the turn is served again at most as often
   as replays remain, each time as exactly the prompt, completion and engine reply that were committed.
   */
  lemma {:induction false} ReplaysAreBoundedAndExact(p: Profile, m: Manager, ops: seq<Op>, id: string, prompt: seq<Token>,
                                                     completion: seq<Token>, reply: Reply, spent: nat)
    requires HoldsTurn(m, id, prompt, completion, reply, spent) && completion != [] && NeverCommitted(ops, id)
    ensures Hits(p, m, ops, id) > 0 ==> spent + Hits(p, m, ops, id) <= p.maxReplays
    ensures AllHitsAre(p, m, ops, id, prompt, completion, reply)
    decreases |ops|
  {
    if ops != [] {
      var op := ops[0];
      StepHoldsTurn(p, m, op, id, prompt, completion, reply, spent);
      var hit := op.Repeat? && op.id == id && CachedTurn(p, m, id, op.messages, op.effort).1.Hit?;
      if hit {
        HitSplitsExactly(p, m, id, op.messages, op.effort, prompt, completion, reply, spent);
      }
      ReplaysAreBoundedAndExact(p, Apply(p, m, op), ops[1..], id, prompt, completion, reply, if hit then spent + 1 else spent);
    }
  }

  /** A committed turn is served again at most `maxReplays` times before its stream commits another turn. */
  lemma CommittedTurnReplays(p: Profile, m: Manager, id: string, ops: seq<Op>, prompt: seq<Token>, completion: seq<Token>,
                             ms: seq<Message>, reply: Reply, tools: seq<ToolDefinition>, effort: Option<Effort>)
    requires completion != [] && NeverCommitted(ops, id)
    ensures var after := Install(p, m, id, Committed(prompt, completion, ms, reply, tools, effort));
            Hits(p, after, ops, id) <= p.maxReplays && AllHitsAre(p, after, ops, id, prompt, completion, reply)
  {
    var state := Committed(prompt, completion, ms, reply, tools, effort);
    InstallHolds(p, m, id, state);
    ReplaysAreBoundedAndExact(p, Install(p, m, id, state), ops, id, prompt, completion, reply, 0);
  }

  /**
   Replays are counted exactly: while the stream commits no other turn, its counter grows by the number of requests
   answered from the turn. Refused repeats, prompts, parses and other streams' operations spend nothing.
   */
  lemma {:induction false} ReplaysAreCountedExactly(p: Profile, m: Manager, ops: seq<Op>, id: string, prompt: seq<Token>,
                                                    completion: seq<Token>, reply: Reply, spent: nat)
    requires HoldsTurn(m, id, prompt, completion, reply, spent) && NeverCommitted(ops, id)
    ensures HoldsTurn(ApplyAll(p, m, ops), id, prompt, completion, reply, spent + Hits(p, m, ops, id))
    decreases |ops|
  {
    if ops != [] {
      var op := ops[0];
      var hit := op.Repeat? && op.id == id && CachedTurn(p, m, id, op.messages, op.effort).1.Hit?;
      StepHoldsTurn(p, m, op, id, prompt, completion, reply, spent);
      ReplaysAreCountedExactly(p, Apply(p, m, op), ops[1..], id, prompt, completion, reply, if hit then spent + 1 else spent);
    }
  }

  /**
   After a turn is committed, whatever else happens until its stream commits again, every accepted continuation of the
   stream starts with exactly the prompt that was sent and the completion that was sampled.
   */
  lemma ContinuationsStartWithTheTurn(p: Profile, m: Manager, ops: seq<Op>, id: string, prompt: seq<Token>, completion: seq<Token>,
                                      ms: seq<Message>, reply: Reply, tools: seq<ToolDefinition>, effort: Option<Effort>,
                                      messages: seq<Message>, tools': seq<ToolDefinition>, effort': Option<Effort>)
    requires NeverCommitted(ops, id) && HasAssistant(messages)
    requires var after := ApplyAll(p, Install(p, m, id, Committed(prompt, completion, ms, reply, tools, effort)), ops);
             BuildPrompt(p, after, id, messages, tools', effort').1.Ok?
    ensures var after := ApplyAll(p, Install(p, m, id, Committed(prompt, completion, ms, reply, tools, effort)), ops);
            StartsWith(BuildPrompt(p, after, id, messages, tools', effort').1.value, prompt + completion)
  {
    var state := Committed(prompt, completion, ms, reply, tools, effort);
    var committed := Install(p, m, id, state);
    InstallHolds(p, m, id, state);
    ReplaysAreCountedExactly(p, committed, ops, id, prompt, completion, reply, 0);
    AcceptedContinuation(p, ApplyAll(p, committed, ops), id, messages, tools', effort');
  }

  // ---- The parsed response of a turn ------------------------------------------------------

  /** The first parse of this completion of the stream in a run. */
  function FirstParse(ops: seq<Op>, id: string, completion: seq<Token>): Option<Message>
    decreases |ops|
  {
    if ops == [] then None
    else if ops[0].Parse? && ops[0].id == id && ops[0].completion == completion then Some(ops[0].served)
    else FirstParse(ops[1..], id, completion)
  }

  function FirstOf(known: Option<Message>, later: Option<Message>): Option<Message> {
    if known.Some? then known else later
  }

  lemma FirstParseSplits(ops: seq<Op>, id: string, completion: seq<Token>)
    requires ops != []
    ensures FirstParse(ops, id, completion) == FirstOf(FirstParse([ops[0]], id, completion), FirstParse(ops[1..], id, completion))
  {
    assert [ops[0]][1..] == [];
    assert FirstParse([], id, completion) == None;
  }

  /** The parsed response cached with the turn that the stream holds, if it still holds it. */
  predicate ServedIs(m: Manager, id: string, served: Option<Message>) {
    id in m.states ==> m.states[id].lastTurn.Some? && m.states[id].lastTurn.value.served == served
  }

  lemma StepServes(p: Profile, m: Manager, op: Op, id: string, prompt: seq<Token>, completion: seq<Token>, reply: Reply, spent: nat,
                   served: Option<Message>)
    requires HoldsTurn(m, id, prompt, completion, reply, spent) && completion != [] && !(op.Commit? && op.id == id)
    requires ServedIs(m, id, served)
    ensures ServedIs(Apply(p, m, op), id, FirstOf(served, FirstParse([op], id, completion)))
  {
    if op.Commit? {
      InstallHolds(p, m, op.id, op.state);
    } else if op.Parse? && op.id == id && id in m.states {
      var stream := m.states[id].stream;
      assert stream[|stream| - |completion|..] == completion;
    }
  }

  /**
   The response that later tool results are rendered against is the first one parsed from the committed completion:
   a later parse, or one of other tokens, never replaces it while the stream commits no other turn.
   */
  lemma {:induction false} FirstParseIsServed(p: Profile, m: Manager, ops: seq<Op>, id: string, prompt: seq<Token>,
                                              completion: seq<Token>, reply: Reply, spent: nat, served: Option<Message>)
    requires HoldsTurn(m, id, prompt, completion, reply, spent) && completion != [] && NeverCommitted(ops, id)
    requires ServedIs(m, id, served)
    ensures ServedIs(ApplyAll(p, m, ops), id, FirstOf(served, FirstParse(ops, id, completion)))
    decreases |ops|
  {
    if ops != [] {
      var op := ops[0];
      var hit := op.Repeat? && op.id == id && CachedTurn(p, m, id, op.messages, op.effort).1.Hit?;
      StepHoldsTurn(p, m, op, id, prompt, completion, reply, spent);
      StepServes(p, m, op, id, prompt, completion, reply, spent, served);
      FirstParseSplits(ops, id, completion);
      FirstParseIsServed(p, Apply(p, m, op), ops[1..], id, prompt, completion, reply, if hit then spent + 1 else spent,
                         FirstOf(served, FirstParse([op], id, completion)));
    }
  }

  /** A continuation: the held history, an assistant echo and the messages behind it. */
  predicate Continues(state: StreamState, ms: seq<Message>, echo: Message, news: seq<Message>) {
    |ms| == |state.messages| + 1 + |news| && ms[|state.messages|] == echo && ms[|state.messages| + 1..] == news
  }

  /**
   Once a response is served, messages behind it are prepared against that response: the echo the client sends back,
   whatever it holds, decides nothing.
   */
  lemma PreparedAgainstServed(p: Profile, m: Manager, id: string, messages: seq<Message>, tools: seq<ToolDefinition>,
                              effort: Option<Effort>, echo: Message, news: seq<Message>, served: Message)
    requires id in m.states && ServedIs(m, id, Some(served)) && p.prepare.Some? && HasAssistant(messages)
    requires Normalize(messages).Some? && Continues(m.states[id], Normalize(messages).value, echo, news)
    requires BuildPrompt(p, m, id, messages, tools, effort).1.Ok?
    ensures p.prepare.value(news, served).Some?
    ensures var delta := DeltaOf(p, m.states[id], p.prepare.value(news, served).value);
            delta.Ok? && BuildPrompt(p, m, id, messages, tools, effort).1 == Ok(m.states[id].stream + delta.value)
  {
    NormalizeKeepsConversation(messages);
  }

  /** So two clients that echo the response differently are answered alike. */
  lemma EchoDecidesNothing(p: Profile, m: Manager, id: string, messages: seq<Message>, messages': seq<Message>,
                           tools: seq<ToolDefinition>, effort: Option<Effort>, echo: Message, echo': Message, news: seq<Message>,
                           served: Message)
    requires id in m.states && ServedIs(m, id, Some(served)) && p.prepare.Some? && HasAssistant(messages) && HasAssistant(messages')
    requires Normalize(messages).Some? && Continues(m.states[id], Normalize(messages).value, echo, news)
    requires Normalize(messages').Some? && Continues(m.states[id], Normalize(messages').value, echo', news)
    requires BuildPrompt(p, m, id, messages, tools, effort).1.Ok? && BuildPrompt(p, m, id, messages', tools, effort).1.Ok?
    ensures BuildPrompt(p, m, id, messages, tools, effort).1 == BuildPrompt(p, m, id, messages', tools, effort).1
  {
    PreparedAgainstServed(p, m, id, messages, tools, effort, echo, news, served);
    PreparedAgainstServed(p, m, id, messages', tools, effort, echo', news, served);
  }

  // ---- The gap -----------------------------------------------------------------------

  lemma SuffixClosesMeansPrefixPresent(stream: seq<Token>, end: seq<Token>, k: nat)
    requires k <= |end|
    ensures EndsWith(stream + end[k..], end) <==> EndsWith(stream, end[..k])
  {
    var joined := stream + end[k..];
    if |joined| >= |end| {
      assert joined[|joined| - |end|..] == stream[|stream| - k..] + end[k..];
      assert end == end[..k] + end[k..];
      if joined[|joined| - |end|..] == end {
        assert stream[|stream| - k..] == (stream[|stream| - k..] + end[k..])[..k];
        assert end[..k] == (end[..k] + end[k..])[..k];
      }
    }
  }

  lemma {:induction false} MissingEndIsShortest(stream: seq<Token>, end: seq<Token>, have: nat)
    requires have <= |end|
    requires forall k :: have < k <= |end| ==> !EndsWith(stream, end[..k])
    ensures exists n :: 0 <= n <= |end| && MissingEnd(stream, end, have) == end[n..]
                        && EndsWith(stream + end[n..], end)
                        && forall k :: n < k <= |end| ==> !EndsWith(stream + end[k..], end)
  {
    if have == 0 || EndsWith(stream, end[..have]) {
      SuffixClosesMeansPrefixPresent(stream, end, have);
      assert MissingEnd(stream, end, have) == end[have..];
      forall k | have < k <= |end| ensures !EndsWith(stream + end[k..], end) {
        SuffixClosesMeansPrefixPresent(stream, end, k);
      }
    } else {
      MissingEndIsShortest(stream, end, have - 1);
    }
  }

  /** Unless the stream already ends with a complete ending, the gap is the shortest suffix of the turn ending that closes it. */
  lemma GapIsShortestClosing(p: Profile, stream: seq<Token>)
    ensures EndsComplete(stream, p.turnEndings) ==> Gap(p, stream) == []
    ensures !EndsComplete(stream, p.turnEndings) ==>
              exists n :: 0 <= n <= |p.turnEnd| && Gap(p, stream) == p.turnEnd[n..]
                          && EndsWith(stream + p.turnEnd[n..], p.turnEnd)
                          && forall k :: n < k <= |p.turnEnd| ==> !EndsWith(stream + p.turnEnd[k..], p.turnEnd)
  {
    MissingEndIsShortest(stream, p.turnEnd, |p.turnEnd|);
  }
}
