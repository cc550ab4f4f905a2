/**
 Why a tombstone must outlive its cleanup and the worker threads that cleanup abandoned, in every state
 (proxyserver/service.py, proxyserver/recorder.py): where it can lapse earlier, some continuation breaks a guarantee
 that `LifecycleSafety` proves of timely runs.
 */
module LapseConverse {
  import opened Wrappers
  import opened Lifecycle
  import opened LifecycleSafety
  import opened TurnSerialization

  // ---- Joining runs ------------------------------------------------------------------

  lemma {:induction false} RunConcat(s: Server, a: seq<Action>, b: seq<Action>, t: Server)
    requires Run(s, a) == Some(t)
    ensures Run(s, a + b) == Run(t, b)
    decreases |a|
  {
    if a == [] {
      assert a + b == b;
    } else {
      assert (a + b)[1..] == a[1..] + b;
      RunConcat(After(s, a[0]), a[1..], b, t);
    }
  }

  lemma RunNext(s: Server, actions: seq<Action>, t: Server, a: Action, u: Server)
    requires Run(s, actions) == Some(t) && Enabled(t, a) && After(t, a) == u
    ensures Run(s, actions + [a]) == Some(u)
  {
    RunConcat(s, actions, [a], t);
    assert [a][1..] == [];
  }

  lemma RunFirst(s: Server, a: Action, u: Server, rest: seq<Action>, t: Server)
    requires Enabled(s, a) && After(s, a) == u && Run(u, rest) == Some(t)
    ensures Run(s, [a] + rest) == Some(t)
  {
    RunStep(s, a, rest);
  }

  lemma RunTwo(s: Server, a: Action, s1: Server, b: Action, s2: Server)
    requires Enabled(s, a) && After(s, a) == s1 && Enabled(s1, b) && After(s1, b) == s2
    ensures Run(s, [a, b]) == Some(s2)
  {
    RunNext(s, [], s, a, s1);
    assert [] + [a] == [a];
    RunNext(s, [a], s1, b, s2);
    assert [a] + [b] == [a, b];
  }

  lemma RunThree(s: Server, a: Action, s1: Server, b: Action, s2: Server, c: Action, s3: Server)
    requires Enabled(s, a) && After(s, a) == s1 && Enabled(s1, b) && After(s1, b) == s2 && Enabled(s2, c) && After(s2, c) == s3
    ensures Run(s, [a, b, c]) == Some(s3)
  {
    RunTwo(s, a, s1, b, s2);
    RunNext(s, [a, b], s2, c, s3);
    assert [a, b] + [c] == [a, b, c];
  }

  predicate NoLapse(actions: seq<Action>) {
    forall a :: a in actions ==> !a.TombstoneLapses?
  }

  // ---- Draining what a cleanup cancelled ----------------------------------------------

  predicate RequestsCancelled(s: Server) {
    forall r :: r in s.requests ==> s.requests[r].cancelled
  }

  ghost predicate TurnsCancelled(s: Server) {
    forall t :: Live(s, t) ==> s.turns[t].cancelled
  }

  /** What draining leaves as it is. */
  predicate SameSession(s: Server, s': Server) {
    && s'.next == s.next && s'.turnLocks == s.turnLocks && s'.cleanup == s.cleanup && s'.barrier == s.barrier
    && s'.tombstone == s.tombstone
  }

  lemma RequestEndDrains(s: Server, r: Id) returns (s': Server)
    requires RequestsCancelled(s) && r in s.requests
    ensures Enabled(s, RequestEnds(r)) && s' == After(s, RequestEnds(r))
    ensures SameSession(s, s') && RequestsCancelled(s') && |s'.requests| < |s.requests|
    ensures s'.turns == s.turns && s'.heldLocks == s.heldLocks
  {
    s' := After(s, RequestEnds(r));
    assert s'.requests.Keys == s.requests.Keys - {r};
    assert |s'.requests.Keys| == |s'.requests| && |s.requests.Keys| == |s.requests|;
  }

  lemma {:induction false} DrainRequests(s: Server) returns (actions: seq<Action>, t: Server)
    requires RequestsCancelled(s)
    ensures Run(s, actions) == Some(t) && NoLapse(actions) && SameSession(s, t)
    ensures t.requests == map[] && t.turns == s.turns && t.heldLocks == s.heldLocks
    decreases |s.requests|
  {
    if s.requests == map[] {
      actions, t := [], s;
    } else {
      var r :| r in s.requests;
      var s' := RequestEndDrains(s, r);
      var rest;
      rest, t := DrainRequests(s');
      RunFirst(s, RequestEnds(r), s', rest, t);
      actions := [RequestEnds(r)] + rest;
    }
  }

  /** Held locks belong to turns, and turns still live were cancelled. */
  ghost predicate Unwinding(s: Server) {
    TurnsCancelled(s) && forall l :: l in s.heldLocks ==> HeldByTurn(s, l)
  }

  lemma GotoUnwinding(s: Server, t: Id, pc: Pc, s': Server)
    requires Unwinding(s) && Live(s, t)
    requires s'.turns == Goto(s, t, pc).turns && s'.heldLocks == s.heldLocks
    ensures Unwinding(s')
  {
    assert SameTurns(s, s');
    forall l | l in s'.heldLocks ensures HeldByTurn(s', l) {
      SameTurnsHold(s, s', l);
    }
  }

  lemma ResolveDrains(s: Server, t: Id) returns (s': Server)
    requires Unwinding(s) && At(s, t) == Some(Resolving)
    ensures Enabled(s, ResolveRuns(t, false)) && s' == After(s, ResolveRuns(t, false))
    ensures SameSession(s, s') && Unwinding(s') && s'.turns.Keys == s.turns.Keys && s'.requests == s.requests
    ensures Live(s', t) && !s'.turns[t].pc.Resolving?
  {
    s' := After(s, ResolveRuns(t, false));
    GotoUnwinding(s, t, Resolved(false), s');
  }

  lemma UnwindDrains(s: Server, t: Id) returns (s': Server)
    requires Unwinding(s) && Live(s, t) && !s.turns[t].pc.Resolving?
    ensures Enabled(s, TurnUnwinds(t)) && s' == After(s, TurnUnwinds(t))
    ensures SameSession(s, s') && Unwinding(s') && s'.turns.Keys == s.turns.Keys && s'.requests == s.requests
    ensures At(s', t) == Some(Finished)
  {
    s' := After(s, TurnUnwinds(t));
    assert s'.turns == Goto(s, t, Finished).turns;
    GotoUnwinding(s, t, Finished, s');
  }

  /** One cancelled turn returns from its thread if it must, and unwinds. */
  lemma UnwindTurn(s: Server, t: Id) returns (actions: seq<Action>, s': Server)
    requires Unwinding(s) && t in s.turns
    ensures Run(s, actions) == Some(s') && NoLapse(actions) && SameSession(s, s') && Unwinding(s') && s'.turns.Keys == s.turns.Keys
    ensures s'.requests == s.requests && At(s', t) == Some(Finished)
  {
    actions, s' := [], s;
    if s.turns[t].pc.Finished? {
      return;
    }
    if s.turns[t].pc.Resolving? {
      var u := ResolveDrains(s, t);
      RunNext(s, actions, s', ResolveRuns(t, false), u);
      actions, s' := actions + [ResolveRuns(t, false)], u;
    }
    var v := UnwindDrains(s', t);
    RunNext(s, actions, s', TurnUnwinds(t), v);
    actions, s' := actions + [TurnUnwinds(t)], v;
  }

  lemma CallbackDrains(s: Server, t: Id) returns (s': Server)
    requires Unwinding(s) && At(s, t) == Some(Finished)
    ensures Enabled(s, TurnCallback(t)) && s' == After(s, TurnCallback(t))
    ensures SameSession(s, s') && Unwinding(s') && |s'.turns| < |s.turns| && s'.requests == s.requests
  {
    s' := After(s, TurnCallback(t));
    assert s'.turns.Keys == s.turns.Keys - {t};
    assert |s'.turns.Keys| == |s'.turns| && |s.turns.Keys| == |s.turns|;
    forall l | l in s'.heldLocks ensures HeldByTurn(s', l) {
      assert HeldByTurn(s, l);
      var u :| u in s.turns && s.turns[u].lock == l;
      assert s'.turns[u].lock == l;
    }
  }

  lemma SameSize(s: Server, s': Server)
    requires s'.turns.Keys == s.turns.Keys
    ensures |s'.turns| == |s.turns|
  {
    assert |s'.turns.Keys| == |s'.turns| && |s.turns.Keys| == |s.turns|;
  }

  lemma EndTurn(s: Server, t: Id) returns (actions: seq<Action>, s': Server)
    requires Unwinding(s) && t in s.turns
    ensures Run(s, actions) == Some(s') && NoLapse(actions) && SameSession(s, s') && Unwinding(s') && |s'.turns| < |s.turns|
    ensures s'.requests == s.requests
  {
    var unwinding, unwound := UnwindTurn(s, t);
    SameSize(s, unwound);
    s' := CallbackDrains(unwound, t);
    RunNext(s, unwinding, unwound, TurnCallback(t), s');
    actions := unwinding + [TurnCallback(t)];
  }

  lemma {:induction false} DrainTurns(s: Server) returns (actions: seq<Action>, t: Server)
    requires Unwinding(s)
    ensures Run(s, actions) == Some(t) && NoLapse(actions) && SameSession(s, t)
    ensures t.turns == map[] && t.heldLocks == {} && t.requests == s.requests
    decreases |s.turns|
  {
    if s.turns == map[] {
      actions, t := [], s;
      assert forall l :: l in s.heldLocks ==> HeldByTurn(s, l);
    } else {
      var turn :| turn in s.turns;
      var ending, s' := EndTurn(s, turn);
      var rest;
      rest, t := DrainTurns(s');
      RunConcat(s, ending, rest, s');
      actions := ending + rest;
    }
  }

  // ---- A cleanup that outlives its tombstone --------------------------------------------

  /** Everything the cleanup waits for has ended, and no tombstone or barrier refuses admission. */
  predicate Reopened(s: Server) {
    && s.cleanup.Draining? && (forall task :: task in s.cleanup.tasks ==> task < s.next)
    && s.barrier.None? && !s.tombstone && s.requests == map[] && s.turns == map[] && s.heldLocks == {}
    && (forall x :: x in s.turnLocks ==> s.turnLocks[x] < s.next)
  }

  /** A stream is admitted and starts turn t before the cleanup goes on. */
  lemma FirstTurn(s: Server, x: Stream) returns (s': Server)
    requires Reopened(s)
    ensures Run(s, [Admit(x), Acquire(s.next + 1)]) == Some(s')
    ensures s'.cleanup == s.cleanup && s'.barrier.None? && !s'.tombstone && s'.next == s.next + 3
    ensures s'.requests.Keys == {s.next + 1} && x in s'.streams
    ensures s'.turns.Keys == {s.next + 2} && Live(s', s.next + 2) && s'.turns[s.next + 2].stream == x
    ensures s'.heldLocks == {s'.turns[s.next + 2].lock} && s'.turns[s.next + 2].lock <= s.next
    ensures forall y :: y in s'.turnLocks ==> s'.turnLocks[y] <= s.next
  {
    var s1 := After(s, Admit(x));
    assert s1.requests.Keys == {s.next + 1};
    s' := After(s1, Acquire(s.next + 1));
    RunTwo(s, Admit(x), s1, Acquire(s.next + 1), s');
  }

  /** A stream without a turn lock is given a new one. */
  lemma NewLock(s: Server, x: Stream) returns (s': Server)
    requires s.barrier.None? && !s.tombstone && x !in s.turnLocks
    ensures s' == After(s, Admit(x)) && s'.next == s.next + 2 && s'.turns == s.turns && s'.heldLocks == s.heldLocks
    ensures s.next + 1 in s'.requests && s'.requests[s.next + 1] == Request(x, s.next, None, false)
  {
    s' := After(s, Admit(x));
  }

  lemma NewTurn(s: Server, r: Id, x: Stream, lock: Id) returns (s': Server)
    requires r in s.requests && s.requests[r] == Request(x, lock, None, false) && lock !in s.heldLocks
    ensures Enabled(s, Acquire(r)) && s' == After(s, Acquire(r))
    ensures s'.turns == s.turns[s.next := Turn(x, lock, Created, false)]
  {
    s' := After(s, Acquire(r));
  }

  lemma CleanupForgets(s: Server, x: Stream) returns (s': Server)
    requires Drained(s) && x in s.streams
    ensures s' == After(s, CleanupSucceeds) && s'.barrier.None? && x !in s'.turnLocks && s'.tombstone == s.tombstone
    ensures s'.next == s.next && s'.turns == s.turns && s'.heldLocks == s.heldLocks
  {
    s' := After(s, CleanupSucceeds);
  }

  /** The cleanup forgets the lock that turn t holds, and the next admission takes a new one. */
  lemma SecondTurn(s: Server, x: Stream, t: Id) returns (s': Server)
    requires Drained(s) && !s.tombstone && x in s.streams && Live(s, t) && t < s.next && s.turns[t].stream == x
    requires forall l :: l in s.heldLocks ==> l < s.next
    ensures Run(s, [CleanupSucceeds, Admit(x), Acquire(s.next + 1)]) == Some(s')
    ensures Live(s', t) && Live(s', s.next + 2) && s'.turns[t].stream == x && s'.turns[s.next + 2].stream == x
  {
    var s1 := CleanupForgets(s, x);
    var s2 := NewLock(s1, x);
    s' := NewTurn(s2, s.next + 1, x, s.next);
    RunThree(s, CleanupSucceeds, s1, Admit(x), s2, Acquire(s.next + 1), s');
  }

  lemma TwoTurns(s: Server, x: Stream) returns (actions: seq<Action>, s': Server)
    requires Reopened(s)
    ensures Run(s, actions) == Some(s') && NoLapse(actions)
    ensures Live(s', s.next + 2) && Live(s', s.next + 5)
    ensures s'.turns[s.next + 2].stream == x && s'.turns[s.next + 5].stream == x
  {
    var s1 := FirstTurn(s, x);
    s' := SecondTurn(s1, x, s.next + 2);
    RunConcat(s, [Admit(x), Acquire(s.next + 1)], [CleanupSucceeds, Admit(x), Acquire(s1.next + 1)], s1);
    actions := [Admit(x), Acquire(s.next + 1)] + [CleanupSucceeds, Admit(x), Acquire(s1.next + 1)];
  }

  /** A cleanup that waits for cancelled work behind a tombstone that lapsed. */
  ghost predicate Orphaned(s: Server) {
    s.cleanup.Draining? && s.barrier.None? && !s.tombstone && RequestsCancelled(s) && TurnsCancelled(s) && Allotted(s)
  }

  lemma ToReopened(s: Server) returns (actions: seq<Action>, t: Server)
    requires Orphaned(s)
    ensures Run(s, actions) == Some(t) && NoLapse(actions) && Reopened(t)
  {
    var ends, s1 := DrainRequests(s);
    assert Unwinding(s1) by {
      forall l | l in s1.heldLocks ensures HeldByTurn(s1, l) {
        SameTurnsHold(s, s1, l);
      }
    }
    var unwinds;
    unwinds, t := DrainTurns(s1);
    RunConcat(s, ends, unwinds, s1);
    actions := ends + unwinds;
  }

  lemma OrphanedBreaks(s: Server, x: Stream) returns (actions: seq<Action>, t: Id, u: Id, s': Server)
    requires Orphaned(s)
    ensures Run(s, actions) == Some(s') && NoLapse(actions)
    ensures t != u && Live(s', t) && Live(s', u) && s'.turns[t].stream == x && s'.turns[u].stream == x
  {
    var draining, s1 := ToReopened(s);
    var reopening;
    reopening, s' := TwoTurns(s1, x);
    RunConcat(s, draining, reopening, s1);
    actions, t, u := draining + reopening, s1.next + 2, s1.next + 5;
  }

  lemma LapseWhileDraining(s: Server) returns (s': Server)
    requires Serial(s) && s.tombstone && s.cleanup.Draining? && s.barrier.None?
    ensures s' == After(s, TombstoneLapses) && Orphaned(s')
  {
    s' := After(s, TombstoneLapses);
    assert Stopping(s);
    assert SameTurns(s, s');
    StillAllotted(s, s');
    assert forall t :: Live(s', t) ==> Live(s, t);
  }

  lemma LapseWhileScheduled(s: Server) returns (s1: Server, s2: Server)
    requires Serial(s) && s.tombstone && s.cleanup.Scheduled? && s.barrier.None?
    ensures s1 == After(s, TombstoneLapses) && Enabled(s1, CleanupStarts) && s2 == After(s1, CleanupStarts) && Orphaned(s2)
  {
    s1 := After(s, TombstoneLapses);
    s2 := After(s1, CleanupStarts);
    assert SameTurns(s, s1);
    StillAllotted(s, s1);
    CleanupStartAllotted(s1, CleanupStarts);
    CleanupCancels(s1);
  }

  lemma CleanupCancels(s: Server)
    requires Tracking(s) && s.cleanup.Scheduled?
    ensures RequestsCancelled(After(s, CleanupStarts)) && TurnsCancelled(After(s, CleanupStarts))
  {
  }

  lemma UnsafeLapseBreaks(s: Server, x: Stream) returns (more: seq<Action>, t: Id, u: Id, s': Server)
    requires Serial(s) && s.tombstone && !SafeToLapse(s)
    ensures Run(After(s, TombstoneLapses), more) == Some(s') && NoLapse(more)
    ensures t != u && Live(s', t) && Live(s', u) && s'.turns[t].stream == x && s'.turns[u].stream == x
  {
    if s.cleanup.Draining? {
      var s1 := LapseWhileDraining(s);
      more, t, u, s' := OrphanedBreaks(s1, x);
    } else {
      var s1, s2 := LapseWhileScheduled(s);
      more, t, u, s' := OrphanedBreaks(s2, x);
      RunFirst(s1, CleanupStarts, s2, more, s');
      more := [CleanupStarts] + more;
    }
  }

  /**
   From every reachable state in which a tombstone can lapse although its cleanup is still under way and no barrier
   stands, and for every stream, some continuation that starts with the lapse ends with two live turns of that stream.
   */
  lemma EarlyLapseBreaksSerialization(actions: seq<Action>, x: Stream)
    returns (more: seq<Action>, t: Id, u: Id, s': Server)
    requires Run(START, actions).Some? && Guarded(START, actions)
    requires var s := Run(START, actions).value; s.tombstone && !s.cleanup.NoCleanup? && s.barrier.None?
    ensures more != [] && more[0] == TombstoneLapses && NoLapse(more[1..])
    ensures Run(Run(START, actions).value, more) == Some(s')
    ensures t != u && Live(s', t) && Live(s', u) && s'.turns[t].stream == x && s'.turns[u].stream == x
  {
    var s := Run(START, actions).value;
    RunSerial(START, actions);
    var rest;
    rest, t, u, s' := UnsafeLapseBreaks(s, x);
    RunFirst(s, TombstoneLapses, After(s, TombstoneLapses), rest, s');
    more := [TombstoneLapses] + rest;
  }

  lemma {:induction false} NoLapseIsGuarded(s: Server, actions: seq<Action>)
    requires NoLapse(actions)
    ensures Guarded(s, actions)
    decreases |actions|
  {
    if actions != [] && Enabled(s, actions[0]) {
      NoLapseIsGuarded(After(s, actions[0]), actions[1..]);
    }
  }

  /** However it goes on without a further lapse, no two turns of one stream are ever live at once. */
  ghost predicate StaysSerialized(s: Server) {
    forall more :: NoLapse(more) && Run(s, more).Some? ==> Serialized(Run(s, more).value)
  }

  lemma SafeLapseStays(s: Server)
    requires Serial(s) && s.tombstone && SafeToLapse(s)
    ensures StaysSerialized(After(s, TombstoneLapses))
  {
    var s' := After(s, TombstoneLapses);
    StepSerial(s, TombstoneLapses);
    forall more | NoLapse(more) && Run(s', more).Some? ensures Serialized(Run(s', more).value) {
      NoLapseIsGuarded(s', more);
      RunSerial(s', more);
      SerialIsSerialized(Run(s', more).value);
    }
  }

  /**
   A tombstone may lapse without two turns of a stream ever overlapping exactly when the session's cleanup is over, or
   a finalization barrier still refuses admission in its place. Otherwise two turns of any stream at all can overlap.
   */
  lemma SerializedExactlyWhenSafe(actions: seq<Action>)
    requires Run(START, actions).Some? && Guarded(START, actions) && Run(START, actions).value.tombstone
    ensures StaysSerialized(After(Run(START, actions).value, TombstoneLapses)) <==> SafeToLapse(Run(START, actions).value)
  {
    var s := Run(START, actions).value;
    RunSerial(START, actions);
    if SafeToLapse(s) {
      SafeLapseStays(s);
    } else {
      var more, t, u, s' := UnsafeLapseBreaks(s, "");
      assert !Serialized(s');
    }
  }

  // ---- Worker threads that outlive their tombstone ------------------------------------------

  /** A deleted session whose cleanup ended, open for admission again. */
  predicate Reused(s: Server) {
    s.cleanup.NoCleanup? && s.barrier.None? && !s.tombstone && s.record.None? && s.failed == {}
  }

  ghost predicate Idle(s: Server) {
    s.requests == map[] && forall t :: t in s.turns ==> s.turns[t].pc.Finished?
  }

  /** A session without work is opened, given up and finalized. */
  lemma OpenAndGiveUp(s: Server, x: Stream) returns (s': Server)
    requires Reused(s) && Idle(s)
    ensures Run(s, [Admit(x), CallerGivesUp(s.next + 1), RequestEnds(s.next + 1)]) == Some(s')
    ensures Idle(s') && s'.leftover == s.leftover && s'.barrier.None? && !s'.tombstone
    ensures s'.record == Some(Record([], false)) && s'.failed == {}
  {
    var r := s.next + 1;
    var s1 := After(s, Admit(x));
    var s2 := After(s1, CallerGivesUp(r));
    s' := After(s2, RequestEnds(r));
    assert s2.requests.Keys == {r};
    assert s'.requests.Keys == {};
    RunThree(s, Admit(x), s1, CallerGivesUp(r), s2, RequestEnds(r), s');
  }

  lemma IdlePasses(s: Server) returns (s': Server)
    requires Idle(s) && s.barrier == Some(Barrier(Starting, false))
    ensures Enabled(s, BarrierChecks) && s' == After(s, BarrierChecks)
    ensures s' == s.(barrier := Some(Barrier(Finalizing(None), false)), changed := Some(false))
  {
    s' := After(s, BarrierChecks);
    assert !AnyRunning(s);
  }

  lemma FinalizesNow(s: Server) returns (s': Server)
    requires s.barrier == Some(Barrier(Finalizing(None), false)) && Finalizable(s)
    ensures Enabled(s, FinalizeRuns) && s' == After(s, FinalizeRuns)
    ensures s'.leftover == s.leftover && s'.tombstone == s.tombstone
    ensures Finalized(s') && s'.record.value.turns == s.record.value.turns
  {
    s' := After(s, FinalizeRuns);
  }

  lemma FinalizeIdle(s: Server) returns (s': Server)
    requires Idle(s) && s.barrier.None? && !s.tombstone && s.record.Some? && s.failed == {}
    ensures Run(s, [AskFinalize, BarrierChecks, FinalizeRuns]) == Some(s')
    ensures s'.leftover == s.leftover && !s'.tombstone && Finalized(s') && s'.record.value.turns == s.record.value.turns
  {
    var s1 := After(s, AskFinalize);
    assert s1 == s.(barrier := Some(Barrier(Starting, false)));
    var s2 := IdlePasses(s1);
    s' := FinalizesNow(s2);
    RunThree(s, AskFinalize, s1, BarrierChecks, s2, FinalizeRuns, s');
  }

  lemma LapsesIdle(s: Server) returns (s': Server)
    requires Inv(s) && s.tombstone && s.cleanup.NoCleanup? && s.barrier.None?
    ensures s' == After(s, TombstoneLapses) && Reused(s') && Idle(s') && s'.leftover == s.leftover
  {
    s' := After(s, TombstoneLapses);
    assert NoWork(s);
  }

  /**
   A recorder thread that outlives its tombstone changes the finalized record of whatever session is opened next under
   the same name.
   */
  lemma {:induction false} LeftoverChangesFinalizedRecord(actions: seq<Action>, j: Id, x: Stream)
    returns (more: seq<Action>, s1: Server, s2: Server)
    requires Run(START, actions).Some? && Timely(START, actions)
    requires var s := Run(START, actions).value;
             && s.tombstone && s.cleanup.NoCleanup? && s.barrier.None?
             && j in s.leftover && s.leftover[j].RecordJob?
    ensures more != [] && more[0] == TombstoneLapses && Run(Run(START, actions).value, more) == Some(s1) && Finalized(s1)
    ensures Run(s1, [LeftoverRuns(j, Appends(false))]) == Some(s2)
    ensures s2.record.Some? && s2.record.value.completed && s2.record.value.turns == s1.record.value.turns + [Run(START, actions).value.leftover[j].turn]
  {
    ReachableKeeps(actions);
    var s := Run(START, actions).value;
    var lapsed := LapsesIdle(s);
    var idle := OpenAndGiveUp(lapsed, x);
    s1 := FinalizeIdle(idle);
    var opening := [Admit(x), CallerGivesUp(lapsed.next + 1), RequestEnds(lapsed.next + 1)];
    RunConcat(lapsed, opening, [AskFinalize, BarrierChecks, FinalizeRuns], idle);
    var rest := opening + [AskFinalize, BarrierChecks, FinalizeRuns];
    RunFirst(s, TombstoneLapses, lapsed, rest, s1);
    more := [TombstoneLapses] + rest;
    s2 := After(s1, LeftoverRuns(j, Appends(false)));
    RunNext(s1, [], s1, LeftoverRuns(j, Appends(false)), s2);
    assert [] + [LeftoverRuns(j, Appends(false))] == [LeftoverRuns(j, Appends(false))];
  }

  lemma OpenForLeftover(s: Server, x: Stream) returns (s': Server)
    requires Reused(s)
    ensures s' == After(s, Admit(x)) && s'.leftover == s.leftover && s'.requests != map[]
    ensures s'.record == Some(Record([], false)) && s'.failed == {}
  {
    s' := After(s, Admit(x));
    assert s.next + 1 in s'.requests;
  }

  lemma FinalizesOpen(s: Server, j: Id) returns (s': Server)
    requires s.requests != map[] && Finalizable(s) && j in s.leftover && s.leftover[j].FinalizeJob?
    ensures Enabled(s, LeftoverRuns(j, RaisesBefore)) && s' == After(s, LeftoverRuns(j, RaisesBefore))
    ensures Finalized(s') && !NoWork(s')
  {
    s' := After(s, LeftoverRuns(j, RaisesBefore));
  }

  /** A finalization thread that outlives its tombstone finalizes the next session while its request is still open. */
  lemma LeftoverFinalizesOpenSession(actions: seq<Action>, j: Id, x: Stream) returns (more: seq<Action>, s': Server)
    requires Run(START, actions).Some? && Timely(START, actions)
    requires var s := Run(START, actions).value;
             && s.tombstone && s.cleanup.NoCleanup? && s.barrier.None?
             && j in s.leftover && s.leftover[j].FinalizeJob?
    ensures more != [] && more[0] == TombstoneLapses && Run(Run(START, actions).value, more) == Some(s')
    ensures Finalized(s') && !NoWork(s')
  {
    ReachableKeeps(actions);
    var s := Run(START, actions).value;
    var lapsed := LapsesIdle(s);
    var s1 := OpenForLeftover(lapsed, x);
    s' := FinalizesOpen(s1, j);
    RunThree(s, TombstoneLapses, lapsed, Admit(x), s1, LeftoverRuns(j, RaisesBefore), s');
    more := [TombstoneLapses, Admit(x), LeftoverRuns(j, RaisesBefore)];
  }

  /** A worker thread, of a turn or left behind by one, that is about to write to the recorder. */
  predicate AboutToWrite(s: Server, a: Action) {
    match a
    case RecordRuns(t, outcome) => At(s, t) == Some(Recording(None)) && outcome == Appends(false)
    case MarkRuns(t) => At(s, t) == Some(Marking(false))
    case LeftoverRuns(j, outcome) => j in s.leftover && !s.leftover[j].FinalizeJob? && outcome == Appends(false)
    case _ => false
  }

  /** Behind a tombstone such a thread writes nothing; once the tombstone lapsed it brings the deleted session back. */
  lemma LapseLetsThreadsWrite(actions: seq<Action>, a: Action)
    requires Run(START, actions).Some? && Timely(START, actions)
    requires Run(START, actions).value.tombstone && AboutToWrite(Run(START, actions).value, a)
    ensures var s := Run(START, actions).value;
            && Enabled(s, a) && After(s, a).record.None? && After(s, a).failed == {}
            && Enabled(After(s, TombstoneLapses), a)
            && var s' := After(After(s, TombstoneLapses), a); s'.record.Some? || s'.failed != {}
  {
    ReachableKeeps(actions);
    var s := Run(START, actions).value;
    assert s.record.None? && s.failed == {};
    var lapsed := After(s, TombstoneLapses);
    if a.LeftoverRuns? && s.leftover[a.j].MarkJob? {
      assert s.leftover[a.j].stream in After(lapsed, a).failed;
    } else if a.MarkRuns? {
      assert s.turns[a.t].stream in After(lapsed, a).failed;
    }
  }
}
