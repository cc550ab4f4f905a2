/**
 Single-flight loading of tokenizer bundles (proxyserver/model_registry.py, ModelRegistry.resolve). Any number of
 threads resolve profiles at once; each action is one critical section, one load, or one wait on a future.
 */
module Registry {
  import opened Wrappers

  type Profile = string
  type Thread = nat
  type FutureId = nat
  /** Bundles are told apart by the load that built them. */
  type Bundle = nat
  type Error = string
  type Loaded = Result<Bundle, Error>

  /** Where a thread is in `resolve`; an owner loads, settles the registry, then its future. */
  datatype Pc =
    | Idle
    | Loading(profile: Profile, future: FutureId)
    | Settling(profile: Profile, future: FutureId, outcome: Loaded)
    | Publishing(profile: Profile, future: FutureId, outcome: Loaded)
    | Waiting(profile: Profile, future: FutureId)
    | Returned(profile: Profile, source: Option<FutureId>, outcome: Loaded)

  datatype State = State(
    bundles: map<Profile, Bundle>,
    loading: map<Profile, FutureId>,
    futures: seq<Option<Loaded>>,
    profiles: seq<Profile>,
    loads: nat,
    threads: map<Thread, Pc>)

  const START := State(map[], map[], [], [], 0, map[])

  datatype Action =
    | Ask(thread: Thread, profile: Profile)
    | Load(thread: Thread, failure: Option<Error>)
    | Settle(thread: Thread)
    | Publish(thread: Thread)
    | Wake(thread: Thread)

  function At(s: State, t: Thread): Pc {
    if t in s.threads then s.threads[t] else Idle
  }

  function Goto(s: State, t: Thread, pc: Pc): State {
    s.(threads := s.threads[t := pc])
  }

  predicate Enabled(s: State, a: Action) {
    match a
    case Ask(t, _) => At(s, t).Idle? || At(s, t).Returned?
    case Load(t, _) => At(s, t).Loading?
    case Settle(t) => At(s, t).Settling?
    case Publish(t) => At(s, t).Publishing? && At(s, t).future < |s.futures|
    case Wake(t) => At(s, t).Waiting? && At(s, t).future < |s.futures| && s.futures[At(s, t).future].Some?
  }

  function Asked(s: State, t: Thread, profile: Profile): State {
    if profile in s.bundles then Goto(s, t, Returned(profile, None, Ok(s.bundles[profile])))
    else if profile in s.loading then Goto(s, t, Waiting(profile, s.loading[profile]))
    else
      Goto(s.(loading := s.loading[profile := |s.futures|], futures := s.futures + [None], profiles := s.profiles + [profile]),
           t, Loading(profile, |s.futures|))
  }

  function After(s: State, a: Action): State
    requires Enabled(s, a)
  {
    var pc := At(s, a.thread);
    match a
    case Ask(t, profile) => Asked(s, t, profile)
    case Load(t, failure) =>
      if failure.Some? then Goto(s, t, Settling(pc.profile, pc.future, Err(failure.value)))
      else Goto(s.(loads := s.loads + 1), t, Settling(pc.profile, pc.future, Ok(s.loads)))
    case Settle(t) =>
      Goto(s.(loading := s.loading - {pc.profile},
              bundles := if pc.outcome.Ok? then s.bundles[pc.profile := pc.outcome.value] else s.bundles),
           t, Publishing(pc.profile, pc.future, pc.outcome))
    case Publish(t) =>
      Goto(s.(futures := s.futures[pc.future := Some(pc.outcome)]), t, Returned(pc.profile, Some(pc.future), pc.outcome))
    case Wake(t) => Goto(s, t, Returned(pc.profile, Some(pc.future), s.futures[pc.future].value))
  }

  function Run(s: State, actions: seq<Action>): Option<State>
    decreases |actions|
  {
    if actions == [] then Some(s)
    else if !Enabled(s, actions[0]) then None
    else Run(After(s, actions[0]), actions[1..])
  }

  // ---- The invariant -------------------------------------------------------------

  /** The thread loads the profile, or has loaded it and not yet settled the registry. */
  predicate Owns(s: State, t: Thread, profile: Profile, future: FutureId) {
    At(s, t) == Loading(profile, future) || (At(s, t).Settling? && At(s, t).profile == profile && At(s, t).future == future)
  }

  /** The thread still owes the future its outcome. */
  predicate Owes(s: State, t: Thread, future: FutureId) {
    && (At(s, t).Loading? || At(s, t).Settling? || At(s, t).Publishing?)
    && At(s, t).future == future
  }

  predicate Cached(s: State, profile: Profile, outcome: Loaded) {
    outcome.Ok? ==> profile in s.bundles && s.bundles[profile] == outcome.value
  }

  predicate FutureFor(s: State, future: FutureId, profile: Profile) {
    future < |s.futures| && future < |s.profiles| && s.profiles[future] == profile
  }

  predicate ThreadSound(s: State, t: Thread) {
    match At(s, t)
    case Idle => true
    case Loading(p, f) => FutureFor(s, f, p) && s.futures[f].None? && p in s.loading && s.loading[p] == f
    case Settling(p, f, _) => FutureFor(s, f, p) && s.futures[f].None? && p in s.loading && s.loading[p] == f
    case Publishing(p, f, outcome) =>
      FutureFor(s, f, p) && s.futures[f].None? && (p in s.loading ==> s.loading[p] != f) && Cached(s, p, outcome)
    case Waiting(p, f) => FutureFor(s, f, p)
    case Returned(p, source, outcome) =>
      && Cached(s, p, outcome)
      && (source.Some? ==> FutureFor(s, source.value, p) && s.futures[source.value] == Some(outcome))
  }

  ghost predicate LoadSound(s: State, profile: Profile)
    requires profile in s.loading
  {
    && profile !in s.bundles && FutureFor(s, s.loading[profile], profile)
    && exists t :: Owns(s, t, profile, s.loading[profile])
  }

  ghost predicate FutureSound(s: State, future: FutureId) {
    && future < |s.futures| == |s.profiles|
    && if s.futures[future].Some? then Cached(s, s.profiles[future], s.futures[future].value)
       else exists t :: Owes(s, t, future)
  }

  /** A future has one owner. */
  ghost predicate OneOwner(s: State) {
    forall t, u, f :: Owes(s, t, f) && Owes(s, u, f) ==> t == u
  }

  ghost predicate Inv(s: State) {
    && |s.futures| == |s.profiles|
    && (forall t :: ThreadSound(s, t))
    && (forall p :: p in s.loading ==> LoadSound(s, p))
    && (forall f :: 0 <= f < |s.futures| ==> FutureSound(s, f))
    && OneOwner(s)
  }

  lemma OnlyOwner(s: State, t: Thread, u: Thread, f: FutureId)
    requires OneOwner(s) && Owes(s, u, f) && t != u
    ensures !Owes(s, t, f)
  {
  }

  lemma SettleKeepsThread(s: State, a: Action, t: Thread)
    requires Inv(s) && Enabled(s, a) && a.Settle?
    ensures ThreadSound(After(s, a), t)
  {
    assert ThreadSound(s, t) && ThreadSound(s, a.thread);
    assert LoadSound(s, At(s, a.thread).profile);
    if t != a.thread {
      OnlyOwner(s, t, a.thread, At(s, a.thread).future);
    }
  }

  lemma PublishKeepsThread(s: State, a: Action, t: Thread)
    requires Inv(s) && Enabled(s, a) && a.Publish?
    ensures ThreadSound(After(s, a), t)
  {
    assert ThreadSound(s, t) && ThreadSound(s, a.thread);
    if t != a.thread {
      OnlyOwner(s, t, a.thread, At(s, a.thread).future);
    }
  }

  lemma AskKeepsThread(s: State, a: Action, t: Thread)
    requires Inv(s) && Enabled(s, a) && a.Ask?
    ensures ThreadSound(After(s, a), t)
  {
    assert ThreadSound(s, t);
    if a.profile in s.loading {
      assert LoadSound(s, a.profile);
    }
  }

  lemma KeepsThreads(s: State, a: Action, t: Thread)
    requires Inv(s) && Enabled(s, a)
    ensures ThreadSound(After(s, a), t)
  {
    if a.Settle? {
      SettleKeepsThread(s, a, t);
    } else if a.Publish? {
      PublishKeepsThread(s, a, t);
    } else if a.Ask? {
      AskKeepsThread(s, a, t);
    } else {
      assert ThreadSound(s, t) && ThreadSound(s, a.thread);
      assert a.Wake? ==> FutureSound(s, At(s, a.thread).future);
    }
  }

  lemma KeepsLoads(s: State, a: Action, p: Profile)
    requires Inv(s) && Enabled(s, a) && p in After(s, a).loading
    ensures LoadSound(After(s, a), p)
  {
    var s' := After(s, a);
    assert ThreadSound(s, a.thread);
    if p in s.loading {
      assert LoadSound(s, p);
      var t :| Owns(s, t, p, s.loading[p]);
      assert Owns(s', t, p, s'.loading[p]);
    } else {
      assert Owns(s', a.thread, p, s'.loading[p]);
    }
  }

  lemma KeepsFutures(s: State, a: Action, f: FutureId)
    requires Inv(s) && Enabled(s, a) && f < |After(s, a).futures|
    ensures FutureSound(After(s, a), f)
  {
    var s' := After(s, a);
    assert ThreadSound(s, a.thread);
    if f < |s.futures| {
      assert FutureSound(s, f);
      if s'.futures[f].None? {
        var t :| Owes(s, t, f);
        assert Owes(s', t, f);
      }
    } else {
      assert Owes(s', a.thread, f);
    }
  }

  lemma KeepsOwners(s: State, a: Action)
    requires Inv(s) && Enabled(s, a)
    ensures OneOwner(After(s, a))
  {
    var s' := After(s, a);
    forall t, u, f: FutureId | Owes(s', t, f) && Owes(s', u, f) ensures t == u {
      assert ThreadSound(s, t) && ThreadSound(s, u);
      assert f < |s.futures| ==> Owes(s, t, f) && Owes(s, u, f);
    }
  }

  lemma StepKeeps(s: State, a: Action)
    requires Inv(s) && Enabled(s, a)
    ensures Inv(After(s, a))
  {
    forall t ensures ThreadSound(After(s, a), t) {
      KeepsThreads(s, a, t);
    }
    forall p | p in After(s, a).loading ensures LoadSound(After(s, a), p) {
      KeepsLoads(s, a, p);
    }
    forall f | 0 <= f < |After(s, a).futures| ensures FutureSound(After(s, a), f) {
      KeepsFutures(s, a, f);
    }
    KeepsOwners(s, a);
  }

  lemma {:induction false} RunKeeps(s: State, actions: seq<Action>)
    requires Inv(s) && Run(s, actions).Some?
    ensures Inv(Run(s, actions).value)
    decreases |actions|
  {
    if actions != [] {
      StepKeeps(s, actions[0]);
      RunKeeps(After(s, actions[0]), actions[1..]);
    }
  }

  lemma ReachableKeeps(actions: seq<Action>)
    requires Run(START, actions).Some?
    ensures Inv(Run(START, actions).value)
  {
    RunKeeps(START, actions);
  }

  // ---- What every interleaving guarantees --------------------------------------------

  /** At most one load per profile is in progress, and while it is, the profile has no bundle yet. */
  lemma OneLoadPerProfile(actions: seq<Action>, t: Thread, u: Thread, p: Profile, f: FutureId, g: FutureId)
    requires Run(START, actions).Some?
    requires Owns(Run(START, actions).value, t, p, f) && Owns(Run(START, actions).value, u, p, g)
    ensures t == u && p !in Run(START, actions).value.bundles
  {
    ReachableKeeps(actions);
    var s := Run(START, actions).value;
    assert ThreadSound(s, t) && ThreadSound(s, u);
    assert LoadSound(s, p);
    assert Owes(s, t, f) && Owes(s, u, f);
  }

  /** A bundle, once cached, is never replaced. */
  lemma BundlesStay(s: State, a: Action, p: Profile)
    requires Inv(s) && Enabled(s, a) && p in s.bundles
    ensures p in After(s, a).bundles && After(s, a).bundles[p] == s.bundles[p]
  {
    assert ThreadSound(s, a.thread);
    assert p in s.loading ==> LoadSound(s, p);
  }

  lemma {:induction false} BundlesStayInRun(s: State, actions: seq<Action>, p: Profile)
    requires Inv(s) && Run(s, actions).Some? && p in s.bundles
    ensures p in Run(s, actions).value.bundles && Run(s, actions).value.bundles[p] == s.bundles[p]
    decreases |actions|
  {
    if actions != [] {
      BundlesStay(s, actions[0], p);
      StepKeeps(s, actions[0]);
      BundlesStayInRun(After(s, actions[0]), actions[1..], p);
    }
  }

  /** Whoever receives a bundle for a profile, and whenever, receives the same one. */
  lemma EveryoneGetsTheSameBundle(actions: seq<Action>, more: seq<Action>, t: Thread, u: Thread)
    requires Run(START, actions).Some? && Run(Run(START, actions).value, more).Some?
    requires var s := Run(START, actions).value; At(s, t).Returned? && At(s, t).outcome.Ok?
    requires var s' := Run(Run(START, actions).value, more).value; At(s', u).Returned? && At(s', u).outcome.Ok?
    requires At(Run(START, actions).value, t).profile == At(Run(Run(START, actions).value, more).value, u).profile
    ensures At(Run(START, actions).value, t).outcome == At(Run(Run(START, actions).value, more).value, u).outcome
  {
    ReachableKeeps(actions);
    var s := Run(START, actions).value;
    assert ThreadSound(s, t);
    BundlesStayInRun(s, more, At(s, t).profile);
    RunKeeps(s, more);
    assert ThreadSound(Run(s, more).value, u);
  }

  /** Threads that share a load share its outcome, success or failure. */
  lemma WaitersGetTheOwnersOutcome(actions: seq<Action>, t: Thread, u: Thread)
    requires Run(START, actions).Some?
    requires var s := Run(START, actions).value;
             At(s, t).Returned? && At(s, u).Returned? && At(s, t).source.Some? && At(s, t).source == At(s, u).source
    ensures var s := Run(START, actions).value; At(s, t).outcome == At(s, u).outcome && At(s, t).profile == At(s, u).profile
  {
    ReachableKeeps(actions);
    var s := Run(START, actions).value;
    assert ThreadSound(s, t) && ThreadSound(s, u);
  }

  /** No waiter is forgotten: its future is set, or some thread still owes it an outcome. */
  lemma NoWaiterIsForgotten(actions: seq<Action>, t: Thread)
    requires Run(START, actions).Some? && At(Run(START, actions).value, t).Waiting?
    ensures var s := Run(START, actions).value; Enabled(s, Wake(t)) || exists u :: Owes(s, u, At(s, t).future)
  {
    ReachableKeeps(actions);
    var s := Run(START, actions).value;
    assert ThreadSound(s, t);
    assert FutureSound(s, At(s, t).future);
  }

  /** A failed load leaves nothing behind: the next request for the profile loads it again. */
  lemma FailedLoadLeavesNothing(actions: seq<Action>, a: Action, u: Thread)
    requires Run(START, actions).Some? && a.Settle? && Enabled(Run(START, actions).value, a)
    requires At(Run(START, actions).value, a.thread).outcome.Err?
    requires Enabled(After(Run(START, actions).value, a), Ask(u, At(Run(START, actions).value, a.thread).profile))
    ensures var s := Run(START, actions).value;
            var p := At(s, a.thread).profile;
            && p !in After(s, a).bundles && p !in After(s, a).loading
            && At(After(After(s, a), Ask(u, p)), u).Loading?
  {
    ReachableKeeps(actions);
    var s := Run(START, actions).value;
    assert ThreadSound(s, a.thread);
    assert LoadSound(s, At(s, a.thread).profile);
  }
}
