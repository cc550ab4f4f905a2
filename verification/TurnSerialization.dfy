/**
 What it takes to serialize the turns of a stream (proxyserver/service.py): a condition on when tombstones lapse that
 is weaker than `Lifecycle.Timely`, with an invariant of its own.
 */
module TurnSerialization {
  import opened Lifecycle
  import opened LifecycleSafety

  // ---- What most steps leave as it is ---------------------------------------------------

  /** A step of one turn leaves all tasks and locks, and starts no work. */
  predicate SameTasks(s: Server, s': Server, t: Id) {
    && s'.next == s.next && s'.requests == s.requests && s'.tracked == s.tracked && s'.turnLocks == s.turnLocks
    && s'.heldLocks == s.heldLocks && s'.cleanup == s.cleanup && s'.tombstone == s.tombstone && s'.barrier == s.barrier
    && t in s.turns && (t in s'.turns && s'.turns == s.turns[t := s.turns[t].(pc := s'.turns[t].pc)]) && Live(s, t)
  }

  lemma MoveSameTasks(s: Server, a: Action)
    requires Enabled(s, a) && OnlyMoves(a)
    ensures SameTasks(s, After(s, a), a.t)
  {
  }

  lemma StartSameTasks(s: Server, a: Action)
    requires Enabled(s, a) && a.TurnStarts?
    ensures SameTasks(s, After(s, a), a.t)
  {
  }

  lemma UnwindSameTasks(s: Server, a: Action)
    requires Enabled(s, a) && a.TurnUnwinds?
    ensures SameTasks(s, After(s, a), a.t)
  {
  }

  lemma WorkSameTasks(s: Server, a: Action)
    requires Enabled(s, a) && (OfWorker(a) || a.TurnStarts? || a.TurnUnwinds?)
    ensures SameTasks(s, After(s, a), a.t)
  {
    if a.TurnStarts? {
      StartSameTasks(s, a);
    } else if a.TurnUnwinds? {
      UnwindSameTasks(s, a);
    }
  }

  /** A step that leaves all tasks and locks, and admission no more open than it was. */
  predicate SameWork(s: Server, s': Server) {
    && s'.next >= s.next && s'.requests == s.requests && s'.turns == s.turns && s'.tracked == s.tracked
    && s'.turnLocks == s.turnLocks && s'.heldLocks == s.heldLocks
    && ((s'.cleanup == s.cleanup && s'.tombstone == s.tombstone && (s.barrier.Some? ==> s'.barrier.Some?))
        || (s'.cleanup.Scheduled? && s'.tombstone))
  }

  lemma BarrierSameWork(s: Server, a: Action)
    requires Enabled(s, a) && (a.AskFinalize? || a.BarrierChecks? || a.BarrierUnwinds?)
    ensures SameWork(s, After(s, a))
  {
  }

  lemma FinalizeSameWork(s: Server, a: Action)
    requires Enabled(s, a) && (a.FinalizeRuns? || a.BarrierEnds?)
    ensures SameWork(s, After(s, a))
  {
  }

  lemma LeftoverSameWork(s: Server, a: Action)
    requires Enabled(s, a) && a.LeftoverRuns?
    ensures SameWork(s, After(s, a))
  {
  }

  lemma RecorderSameWork(s: Server, a: Action)
    requires Enabled(s, a) && (a.LeftoverRuns? || a.Delete? || a.Evicts?)
    ensures SameWork(s, After(s, a))
  {
    if a.LeftoverRuns? {
      LeftoverSameWork(s, a);
    }
  }

  lemma OtherSameWork(s: Server, a: Action)
    requires Enabled(s, a) && (OfBarrier(a) || a.LeftoverRuns? || a.Delete? || a.Evicts?)
    ensures SameWork(s, After(s, a))
  {
    if a.FinalizeRuns? || a.BarrierEnds? {
      FinalizeSameWork(s, a);
    } else if OfBarrier(a) {
      BarrierSameWork(s, a);
    } else {
      RecorderSameWork(s, a);
    }
  }

  predicate Hands(a: Action) {
    a.Admit? || a.Acquire? || a.TurnCallback? || a.CleanupStarts?
  }

  // ---- Locks and ids ---------------------------------------------------------------

  predicate HeldByTurn(s: Server, lock: Id) {
    exists t :: t in s.turns && s.turns[t].lock == lock
  }

  /** Held locks belong to turns, and the ids in use were handed out before. */
  predicate Allotted(s: Server) {
    && (forall l :: l in s.heldLocks ==> HeldByTurn(s, l))
    && (forall x :: x in s.turnLocks ==> s.turnLocks[x] < s.next)
    && (s.cleanup.Draining? ==> forall task :: task in s.cleanup.tasks ==> task < s.next)
  }

  predicate SameTurns(s: Server, s': Server) {
    && s'.heldLocks == s.heldLocks
    && forall t :: t in s.turns ==> t in s'.turns && s'.turns[t].lock == s.turns[t].lock
  }

  predicate FewerLocks(s: Server, s': Server) {
    && s'.next >= s.next
    && (forall x :: x in s'.turnLocks ==> x in s.turnLocks && s'.turnLocks[x] == s.turnLocks[x])
    && (s'.cleanup == s.cleanup || !s'.cleanup.Draining?)
  }

  lemma SameTurnsHold(s: Server, s': Server, lock: Id)
    requires SameTurns(s, s') && HeldByTurn(s, lock)
    ensures HeldByTurn(s', lock)
  {
    var t :| t in s.turns && s.turns[t].lock == lock;
    assert s'.turns[t].lock == lock;
  }

  lemma StillAllotted(s: Server, s': Server)
    requires Allotted(s) && SameTurns(s, s') && FewerLocks(s, s')
    ensures Allotted(s')
  {
    forall l | l in s'.heldLocks ensures HeldByTurn(s', l) {
      SameTurnsHold(s, s', l);
    }
  }

  lemma SameTasksAllotted(s: Server, s': Server, t: Id)
    requires Allotted(s) && SameTasks(s, s', t)
    ensures Allotted(s')
  {
    StillAllotted(s, s');
  }

  lemma SameWorkAllotted(s: Server, s': Server)
    requires Allotted(s) && SameWork(s, s')
    ensures Allotted(s')
  {
    StillAllotted(s, s');
  }

  lemma EndAllotted(s: Server, a: Action)
    requires Allotted(s) && Enabled(s, a)
    requires a.CallerGivesUp? || a.RequestEnds? || a.CleanupSucceeds? || a.CleanupFails? || a.TombstoneLapses?
    ensures Allotted(After(s, a))
  {
    StillAllotted(s, After(s, a));
  }

  lemma OtherAllotted(s: Server, a: Action)
    requires Allotted(s) && Enabled(s, a) && !Hands(a)
    ensures Allotted(After(s, a))
  {
    if OnlyMoves(a) {
      MoveSameTasks(s, a);
      SameTasksAllotted(s, After(s, a), a.t);
    } else if OfTurn(a) {
      WorkSameTasks(s, a);
      SameTasksAllotted(s, After(s, a), a.t);
    } else if OfBarrier(a) || a.LeftoverRuns? || a.Delete? || a.Evicts? {
      OtherSameWork(s, a);
      SameWorkAllotted(s, After(s, a));
    } else {
      EndAllotted(s, a);
    }
  }

  lemma AdmitAllotted(s: Server, a: Action)
    requires Allotted(s) && Enabled(s, a) && a.Admit?
    ensures Allotted(After(s, a))
  {
    var s' := After(s, a);
    assert SameTurns(s, s');
    forall l | l in s'.heldLocks ensures HeldByTurn(s', l) {
      SameTurnsHold(s, s', l);
    }
  }

  lemma AcquireAllotted(s: Server, a: Action)
    requires Tracking(s) && Allotted(s) && Enabled(s, a) && a.Acquire?
    ensures Allotted(After(s, a))
  {
    var s' := After(s, a);
    forall l | l in s'.heldLocks ensures HeldByTurn(s', l) {
      if l == s.requests[a.r].lock {
        assert s'.turns[s.next].lock == l;
      } else {
        assert HeldByTurn(s, l);
        var u :| u in s.turns && s.turns[u].lock == l;
        assert s'.turns[u].lock == l;
      }
    }
  }

  lemma CallbackAllotted(s: Server, a: Action)
    requires Allotted(s) && Enabled(s, a) && a.TurnCallback?
    ensures Allotted(After(s, a))
  {
    var s' := After(s, a);
    forall l | l in s'.heldLocks ensures HeldByTurn(s', l) {
      assert HeldByTurn(s, l);
      var u :| u in s.turns && s.turns[u].lock == l;
      assert s'.turns[u].lock == l;
    }
  }

  lemma CleanupStartAllotted(s: Server, a: Action)
    requires Tracking(s) && Allotted(s) && Enabled(s, a) && a.CleanupStarts?
    ensures Allotted(After(s, a))
  {
    var s' := After(s, a);
    assert SameTurns(s, s');
    forall l | l in s'.heldLocks ensures HeldByTurn(s', l) {
      SameTurnsHold(s, s', l);
    }
  }

  lemma StepAllotted(s: Server, a: Action)
    requires Tracking(s) && Allotted(s) && Enabled(s, a)
    ensures Allotted(After(s, a))
  {
    if a.Admit? {
      AdmitAllotted(s, a);
    } else if a.Acquire? {
      AcquireAllotted(s, a);
    } else if a.TurnCallback? {
      CallbackAllotted(s, a);
    } else if a.CleanupStarts? {
      CleanupStartAllotted(s, a);
    } else {
      OtherAllotted(s, a);
    }
  }

  // ---- What serializes turns ----------------------------------------------------------

  /** All it takes to serialize turns: no lapse while a cleanup is under way and nothing else refuses admission. */
  predicate SafeToLapse(s: Server) {
    s.cleanup.NoCleanup? || s.barrier.Some?
  }

  /** Weaker than `Timely`: leftover worker threads do not matter, nor does a cleanup behind a barrier. */
  predicate Guarded(s: Server, actions: seq<Action>)
    decreases |actions|
  {
    actions != [] && Enabled(s, actions[0]) ==>
      (actions[0].TombstoneLapses? ==> SafeToLapse(s)) && Guarded(After(s, actions[0]), actions[1..])
  }

  ghost predicate Stopping(s: Server)
    requires s.cleanup.Draining?
  {
    && (forall r :: r in s.requests ==> r in s.cleanup.tasks && s.requests[r].cancelled)
    && (forall t :: Live(s, t) ==> t in s.cleanup.tasks && s.turns[t].cancelled)
  }

  ghost predicate Closed(s: Server) {
    && (s.cleanup.Draining? ==> Stopping(s))
    && (!s.cleanup.NoCleanup? ==> s.tombstone || s.barrier.Some?)
  }

  ghost predicate Serial(s: Server) {
    Tracking(s) && Locking(s) && Allotted(s) && Closed(s)
  }

  lemma AdmitTracking(s: Server, a: Action)
    requires Tracking(s) && Enabled(s, a) && a.Admit?
    ensures Tracking(After(s, a))
  {
  }

  lemma AdmitLocking(s: Server, a: Action)
    requires Locking(s) && Enabled(s, a) && a.Admit?
    ensures Locking(After(s, a))
  {
  }

  lemma AdmitClosed(s: Server, a: Action)
    requires Serial(s) && Enabled(s, a) && a.Admit?
    ensures Closed(After(s, a))
  {
  }

  lemma AcquireTasks(s: Server, a: Action)
    requires Tracking(s) && Locking(s) && Enabled(s, a) && a.Acquire?
    ensures Tracking(After(s, a)) && Locking(After(s, a))
  {
  }

  lemma AcquireClosed(s: Server, a: Action)
    requires Serial(s) && Enabled(s, a) && a.Acquire?
    ensures Closed(After(s, a))
  {
  }

  lemma RequestSerial(s: Server, a: Action)
    requires Tracking(s) && Locking(s) && Closed(s) && Enabled(s, a) && (a.CallerGivesUp? || a.RequestEnds?)
    ensures Tracking(After(s, a)) && Locking(After(s, a)) && Closed(After(s, a))
  {
  }

  lemma SameTasksSerial(s: Server, s': Server, t: Id)
    requires Tracking(s) && Locking(s) && Closed(s) && SameTasks(s, s', t)
    ensures Tracking(s') && Locking(s') && Closed(s')
  {
  }

  lemma CallbackTracking(s: Server, a: Action)
    requires Tracking(s) && Enabled(s, a) && a.TurnCallback?
    ensures Tracking(After(s, a))
  {
  }

  lemma CallbackLocking(s: Server, a: Action)
    requires Locking(s) && Enabled(s, a) && a.TurnCallback?
    ensures Locking(After(s, a))
  {
  }

  lemma CallbackClosed(s: Server, a: Action)
    requires Serial(s) && Enabled(s, a) && a.TurnCallback?
    ensures Closed(After(s, a))
  {
  }

  lemma SameWorkSerial(s: Server, s': Server)
    requires Serial(s) && SameWork(s, s')
    ensures Tracking(s') && Locking(s') && Closed(s')
  {
  }

  lemma CleanupStartSerial(s: Server, a: Action)
    requires Tracking(s) && Locking(s) && Closed(s) && Enabled(s, a) && a.CleanupStarts?
    ensures Tracking(After(s, a)) && Locking(After(s, a)) && Closed(After(s, a))
  {
  }

  lemma CleanupEndSerial(s: Server, a: Action)
    requires Serial(s) && Enabled(s, a) && (a.CleanupSucceeds? || a.CleanupFails?)
    ensures Tracking(After(s, a)) && Locking(After(s, a)) && Closed(After(s, a))
  {
  }

  lemma LapseSerial(s: Server, a: Action)
    requires Serial(s) && Enabled(s, a) && a.TombstoneLapses? && SafeToLapse(s)
    ensures Tracking(After(s, a)) && Locking(After(s, a)) && Closed(After(s, a))
  {
  }

  lemma TurnSerial(s: Server, a: Action)
    requires Serial(s) && Enabled(s, a) && OfTurn(a)
    ensures Tracking(After(s, a)) && Locking(After(s, a)) && Closed(After(s, a))
  {
    if a.TurnCallback? {
      CallbackTracking(s, a);
      CallbackLocking(s, a);
      CallbackClosed(s, a);
    } else {
      if OnlyMoves(a) {
        MoveSameTasks(s, a);
      } else {
        WorkSameTasks(s, a);
      }
      SameTasksSerial(s, After(s, a), a.t);
    }
  }

  lemma StepSerial(s: Server, a: Action)
    requires Serial(s) && Enabled(s, a) && (a.TombstoneLapses? ==> SafeToLapse(s))
    ensures Serial(After(s, a))
  {
    StepAllotted(s, a);
    if a.Admit? {
      AdmitTracking(s, a);
      AdmitLocking(s, a);
      AdmitClosed(s, a);
    } else if a.Acquire? {
      AcquireTasks(s, a);
      AcquireClosed(s, a);
    } else if a.CallerGivesUp? || a.RequestEnds? {
      RequestSerial(s, a);
    } else if OfTurn(a) {
      TurnSerial(s, a);
    } else if a.CleanupStarts? {
      CleanupStartSerial(s, a);
    } else if a.CleanupSucceeds? || a.CleanupFails? {
      CleanupEndSerial(s, a);
    } else if a.TombstoneLapses? {
      LapseSerial(s, a);
    } else {
      OtherSameWork(s, a);
      SameWorkSerial(s, After(s, a));
    }
  }

  lemma {:induction false} RunSerial(s: Server, actions: seq<Action>)
    requires Serial(s) && Run(s, actions).Some? && Guarded(s, actions)
    ensures Serial(Run(s, actions).value)
    decreases |actions|
  {
    if actions != [] {
      StepSerial(s, actions[0]);
      RunSerial(After(s, actions[0]), actions[1..]);
    }
  }

  ghost predicate Serialized(s: Server) {
    forall t, u :: Live(s, t) && Live(s, u) && s.turns[t].stream == s.turns[u].stream ==> t == u
  }

  lemma SerialIsSerialized(s: Server)
    requires Serial(s)
    ensures Serialized(s)
  {
    forall t, u | Live(s, t) && Live(s, u) && s.turns[t].stream == s.turns[u].stream ensures t == u {
      assert TurnLocked(s, t) && TurnLocked(s, u);
    }
  }

  lemma {:induction false} TimelyIsGuarded(s: Server, actions: seq<Action>)
    requires Timely(s, actions)
    ensures Guarded(s, actions)
    decreases |actions|
  {
    if actions != [] && Enabled(s, actions[0]) {
      TimelyIsGuarded(After(s, actions[0]), actions[1..]);
    }
  }

  /** Turns of one stream never overlap in a guarded run, which need not be timely. */
  lemma GuardedRunsAreSerialized(actions: seq<Action>)
    requires Run(START, actions).Some? && Guarded(START, actions)
    ensures Serialized(Run(START, actions).value)
  {
    RunSerial(START, actions);
    SerialIsSerialized(Run(START, actions).value);
  }
}
