/**
 What holds in every state of a session's life, whatever the interleaving of clients, turns, barriers and deletions,
 and what it means for collection and deletion (proxyserver/service.py).
 */
module LifecycleSafety {
  import opened Wrappers
  import opened Lifecycle

  // ---- The invariant -----------------------------------------------------------

  predicate NoWork(s: Server) {
    s.requests == map[] && forall t :: t in s.turns ==> s.turns[t].pc.Finished?
  }

  /** Every task is tracked until it reports its end. */
  predicate Tracking(s: Server) {
    && s.tracked == s.requests.Keys + s.turns.Keys
    && (forall task :: task in s.tracked ==> task < s.next)
    && s.requests.Keys !! s.turns.Keys
  }

  predicate UsesLock(s: Server, stream: Stream, lock: Id) {
    stream in s.turnLocks && s.turnLocks[stream] == lock
  }

  predicate TurnLocked(s: Server, t: Id)
    requires t in s.turns
  {
    && s.turns[t].lock in s.heldLocks
    && (Live(s, t) ==> UsesLock(s, s.turns[t].stream, s.turns[t].lock))
  }

  /** A turn holds its stream's lock until its end is reported. */
  predicate Locking(s: Server) {
    && (forall r :: r in s.requests ==> UsesLock(s, s.requests[r].stream, s.requests[r].lock))
    && (forall t :: t in s.turns ==> TurnLocked(s, t))
    && (forall t, u :: t in s.turns && u in s.turns && t != u ==> s.turns[t].lock != s.turns[u].lock)
  }

  /** Whatever is held for a stream, the session remembers the stream. */
  ghost predicate Remembered(s: Server) {
    && (forall r :: r in s.requests ==> s.requests[r].stream in s.streams)
    && (forall t :: Live(s, t) ==> s.turns[t].stream in s.streams)
    && (forall x :: x in s.turnLocks ==> x in s.streams)
    && s.providerLocks <= s.streams && s.pins <= s.streams && s.held <= s.streams
  }

  predicate BarrierOver(s: Server) {
    s.barrier.Some? ==> s.barrier.value.pc.Ended?
  }

  ghost predicate Doomed(s: Server)
    requires s.cleanup.Draining?
  {
    && (forall r :: r in s.requests ==> r in s.cleanup.tasks && s.requests[r].cancelled)
    && (forall t :: Live(s, t) ==> t in s.cleanup.tasks && s.turns[t].cancelled)
    && (s.barrier.Some? && !s.barrier.value.pc.Ended? ==> s.barrier.value.cancelled)
  }

  /** Deleting a session stops its work and nothing of it is recorded meanwhile. */
  ghost predicate Burying(s: Server) {
    && (s.tombstone ==> s.record.None? && s.failed == {})
    && (!s.cleanup.NoCleanup? || s.leftover != map[] ==> s.tombstone)
    && (s.tombstone && s.cleanup.NoCleanup? ==> NoWork(s) && BarrierOver(s))
    && (s.cleanup.Draining? ==> Doomed(s))
    && (forall t :: Live(s, t) && s.turns[t].cancelled ==> s.cleanup.Draining?)
    && (s.barrier.Some? && s.barrier.value.cancelled && !s.barrier.value.pc.Ended? ==> s.cleanup.Draining?)
  }

  predicate PassedBarrier(s: Server) {
    s.barrier.Some? && (s.barrier.value.pc.Finalizing? || s.barrier.value.pc == Ended(true))
  }

  predicate Finalized(s: Server) {
    s.record.Some? && s.record.value.completed
  }

  predicate Sealing(s: Server) {
    && (s.barrier.Some? && (s.barrier.value.pc.Waiting? || s.barrier.value.pc.Finalizing?) ==> s.changed.Some?)
    && (s.barrier.Some? && s.barrier.value.pc.Waiting? && s.changed == Some(false) ==> s.tracked != {})
    && (PassedBarrier(s) ==> NoWork(s))
    && (Finalized(s) ==> s.barrier.Some? && (s.barrier.value.pc == Finalizing(Some(true)) || s.barrier.value.pc == Ended(true)))
  }

  ghost predicate Inv(s: Server) {
    Tracking(s) && Locking(s) && Remembered(s) && Burying(s) && Sealing(s)
  }

  // ---- Every step keeps it ---------------------------------------------------------

  lemma AdmitKeepsTracking(s: Server, a: Action)
    requires Inv(s) && Enabled(s, a) && a.Admit?
    ensures Tracking(After(s, a))
  {
  }

  lemma AdmitKeepsLocking(s: Server, a: Action)
    requires Inv(s) && Enabled(s, a) && a.Admit?
    ensures Locking(After(s, a))
  {
  }

  lemma AdmitKeepsRest(s: Server, a: Action)
    requires Inv(s) && Enabled(s, a) && a.Admit?
    ensures Remembered(After(s, a)) && Burying(After(s, a)) && Sealing(After(s, a))
  {
  }

  lemma AcquireKeepsTracking(s: Server, a: Action)
    requires Inv(s) && Enabled(s, a) && a.Acquire?
    ensures Tracking(After(s, a))
  {
  }

  lemma AcquireKeepsLocking(s: Server, a: Action)
    requires Inv(s) && Enabled(s, a) && a.Acquire?
    ensures Locking(After(s, a))
  {
  }

  lemma AcquireKeepsRest(s: Server, a: Action)
    requires Inv(s) && Enabled(s, a) && a.Acquire?
    ensures Remembered(After(s, a)) && Burying(After(s, a)) && Sealing(After(s, a))
  {
  }

  lemma GivingUpKeepsTasks(s: Server, a: Action)
    requires Inv(s) && Enabled(s, a) && a.CallerGivesUp?
    ensures Tracking(After(s, a)) && Locking(After(s, a))
  {
  }

  lemma GivingUpKeepsRest(s: Server, a: Action)
    requires Inv(s) && Enabled(s, a) && a.CallerGivesUp?
    ensures Remembered(After(s, a)) && Burying(After(s, a)) && Sealing(After(s, a))
  {
  }

  lemma RequestEndKeepsTasks(s: Server, a: Action)
    requires Inv(s) && Enabled(s, a) && a.RequestEnds?
    ensures Tracking(After(s, a)) && Locking(After(s, a))
  {
  }

  lemma RequestEndKeepsRest(s: Server, a: Action)
    requires Inv(s) && Enabled(s, a) && a.RequestEnds?
    ensures Remembered(After(s, a)) && Burying(After(s, a)) && Sealing(After(s, a))
  {
  }

  lemma GotoKeeps(s: Server, t: Id, pc: Pc)
    requires Inv(s) && Live(s, t)
    ensures Inv(Goto(s, t, pc))
  {
  }

  /** State kept per stream is only added for streams the session remembers. */
  lemma ResidueKeeps(s: Server, providerLocks: set<Stream>, pins: set<Stream>, held: set<Stream>)
    requires Inv(s) && providerLocks <= s.streams && pins <= s.streams && held <= s.streams
    ensures Inv(s.(providerLocks := providerLocks, pins := pins, held := held))
  {
  }

  lemma LeftoverAddKeeps(s: Server, j: Id, job: Job)
    requires Inv(s) && s.tombstone
    ensures Inv(s.(leftover := s.leftover[j := job]))
  {
  }

  lemma RecordedKeeps(s: Server, t: Id, stream: Stream, outcome: Recording)
    requires Inv(s) && !PassedBarrier(s)
    ensures Inv(Recorded(s, t, stream, outcome)) && Inv(Marked(s, stream))
  {
  }

  predicate OnlyMoves(a: Action) {
    a.TurnResolved? || a.GenerationFails? || a.Replays? || a.Parsed? || a.RecordReturns?
  }

  lemma MoveKeeps(s: Server, a: Action)
    requires Inv(s) && Enabled(s, a) && OnlyMoves(a)
    ensures Inv(After(s, a))
  {
    GotoKeeps(s, a.t, After(s, a).turns[a.t].pc);
    assert After(s, a) == Goto(s, a.t, After(s, a).turns[a.t].pc);
  }

  lemma StartKeeps(s: Server, a: Action)
    requires Inv(s) && Enabled(s, a) && a.TurnStarts?
    ensures Inv(After(s, a))
  {
    if s.tombstone || !a.valid {
      GotoKeeps(s, a.t, Finished);
    } else {
      assert Live(s, a.t);
      GotoKeeps(s, a.t, Resolving);
      ResidueKeeps(Goto(s, a.t, Resolving), s.providerLocks + {s.turns[a.t].stream}, s.pins, s.held);
    }
  }

  lemma ResolveKeeps(s: Server, a: Action)
    requires Inv(s) && Enabled(s, a) && a.ResolveRuns?
    ensures Inv(After(s, a))
  {
    assert Live(s, a.t);
    GotoKeeps(s, a.t, Resolved(a.served));
    ResidueKeeps(Goto(s, a.t, Resolved(a.served)), s.providerLocks, After(s, a).pins, s.held);
  }

  lemma CommitKeeps(s: Server, a: Action)
    requires Inv(s) && Enabled(s, a) && a.Commits?
    ensures Inv(After(s, a))
  {
    assert Live(s, a.t);
    GotoKeeps(s, a.t, Parsing);
    ResidueKeeps(Goto(s, a.t, Parsing), s.providerLocks, s.pins, After(s, a).held);
  }

  lemma RecordRunsKeeps(s: Server, a: Action)
    requires Inv(s) && Enabled(s, a) && a.RecordRuns?
    ensures Inv(After(s, a))
  {
    assert Live(s, a.t);
    var pc := Recording(Some(RecordOk(s, a.outcome)));
    GotoKeeps(s, a.t, pc);
    assert Live(Goto(s, a.t, pc), a.t);
    RecordedKeeps(Goto(s, a.t, pc), a.t, s.turns[a.t].stream, a.outcome);
  }

  lemma MarkRunsKeeps(s: Server, a: Action)
    requires Inv(s) && Enabled(s, a) && a.MarkRuns?
    ensures Inv(After(s, a))
  {
    assert Live(s, a.t);
    GotoKeeps(s, a.t, Marking(true));
    assert Live(Goto(s, a.t, Marking(true)), a.t);
    RecordedKeeps(Goto(s, a.t, Marking(true)), a.t, s.turns[a.t].stream, RaisesBefore);
  }

  lemma UnwindKeeps(s: Server, a: Action)
    requires Inv(s) && Enabled(s, a) && a.TurnUnwinds?
    ensures Inv(After(s, a))
  {
    assert Live(s, a.t);
    GotoKeeps(s, a.t, Finished);
    var s' := Goto(s, a.t, Finished);
    LeftoverAddKeeps(s', a.t, RecordJob(a.t, s.turns[a.t].stream));
    LeftoverAddKeeps(s', a.t, MarkJob(s.turns[a.t].stream));
  }

  lemma CallbackKeepsTracking(s: Server, a: Action)
    requires Inv(s) && Enabled(s, a) && a.TurnCallback?
    ensures Tracking(After(s, a))
  {
  }

  lemma CallbackKeepsLocking(s: Server, a: Action)
    requires Inv(s) && Enabled(s, a) && a.TurnCallback?
    ensures Locking(After(s, a))
  {
  }

  lemma CallbackKeepsRemembered(s: Server, a: Action)
    requires Inv(s) && Enabled(s, a) && a.TurnCallback?
    ensures Remembered(After(s, a)) && Sealing(After(s, a))
  {
  }

  lemma CallbackKeepsBurying(s: Server, a: Action)
    requires Inv(s) && Enabled(s, a) && a.TurnCallback?
    ensures Burying(After(s, a))
  {
  }

  lemma LeftoverDropKeeps(s: Server, j: Id)
    requires Inv(s)
    ensures Inv(s.(leftover := s.leftover - {j}))
  {
  }

  /** A worker thread left behind by a deletion finds the tombstone and records nothing. */
  lemma LeftoverRecordsNothing(s: Server, a: Action)
    requires Inv(s) && Enabled(s, a) && a.LeftoverRuns?
    ensures After(s, a) == s.(leftover := s.leftover - {a.j})
  {
    assert s.leftover != map[];
  }

  lemma LeftoverKeeps(s: Server, a: Action)
    requires Inv(s) && Enabled(s, a) && a.LeftoverRuns?
    ensures Inv(After(s, a))
  {
    LeftoverRecordsNothing(s, a);
    LeftoverDropKeeps(s, a.j);
  }

  lemma AskFinalizeKeeps(s: Server, a: Action)
    requires Inv(s) && Enabled(s, a) && a.AskFinalize?
    ensures Inv(After(s, a))
  {
  }

  lemma BarrierChecksKeeps(s: Server, a: Action)
    requires Inv(s) && Enabled(s, a) && a.BarrierChecks?
    ensures Inv(After(s, a))
  {
  }

  lemma FinalizeRunsKeeps(s: Server, a: Action)
    requires Inv(s) && Enabled(s, a) && a.FinalizeRuns?
    ensures Inv(After(s, a))
  {
    FinalizeRunsKeepsTasks(s, a);
  }

  lemma FinalizeRunsKeepsTasks(s: Server, a: Action)
    requires Inv(s) && Enabled(s, a) && a.FinalizeRuns?
    ensures Tracking(After(s, a)) && Locking(After(s, a)) && Remembered(After(s, a))
  {
  }

  lemma BarrierEndsKeeps(s: Server, a: Action)
    requires Inv(s) && Enabled(s, a) && a.BarrierEnds?
    ensures Inv(After(s, a))
  {
  }

  lemma BarrierUnwindsKeeps(s: Server, a: Action)
    requires Inv(s) && Enabled(s, a) && a.BarrierUnwinds?
    ensures Inv(After(s, a))
  {
  }

  lemma DeleteKeeps(s: Server, a: Action)
    requires Inv(s) && Enabled(s, a) && a.Delete?
    ensures Inv(After(s, a))
  {
  }

  lemma CleanupStartKeepsTasks(s: Server, a: Action)
    requires Inv(s) && Enabled(s, a) && a.CleanupStarts?
    ensures Tracking(After(s, a)) && Locking(After(s, a))
  {
  }

  lemma CleanupStartKeepsRest(s: Server, a: Action)
    requires Inv(s) && Enabled(s, a) && a.CleanupStarts?
    ensures Remembered(After(s, a)) && Burying(After(s, a)) && Sealing(After(s, a))
  {
  }

  lemma CleanupEndsKeeps(s: Server, a: Action)
    requires Inv(s) && Enabled(s, a) && (a.CleanupSucceeds? || a.CleanupFails?)
    ensures Inv(After(s, a))
  {
  }

  lemma LapseKeeps(s: Server, a: Action)
    requires Inv(s) && Enabled(s, a) && a.TombstoneLapses? && TimelyStep(s, a)
    ensures Inv(After(s, a))
  {
  }

  predicate OfRequest(a: Action) {
    a.Admit? || a.Acquire? || a.CallerGivesUp? || a.RequestEnds?
  }

  lemma RequestStepKeeps(s: Server, a: Action)
    requires Inv(s) && Enabled(s, a) && OfRequest(a)
    ensures Inv(After(s, a))
  {
    if a.Admit? {
      AdmitKeepsTracking(s, a);
      AdmitKeepsLocking(s, a);
      AdmitKeepsRest(s, a);
    } else if a.Acquire? {
      AcquireKeepsTracking(s, a);
      AcquireKeepsLocking(s, a);
      AcquireKeepsRest(s, a);
    } else if a.CallerGivesUp? {
      GivingUpKeepsTasks(s, a);
      GivingUpKeepsRest(s, a);
    } else {
      RequestEndKeepsTasks(s, a);
      RequestEndKeepsRest(s, a);
    }
  }

  predicate OfWorker(a: Action) {
    a.ResolveRuns? || a.Commits? || a.RecordRuns? || a.MarkRuns?
  }

  lemma WorkerKeeps(s: Server, a: Action)
    requires Inv(s) && Enabled(s, a) && OfWorker(a)
    ensures Inv(After(s, a))
  {
    if a.ResolveRuns? {
      ResolveKeeps(s, a);
    } else if a.Commits? {
      CommitKeeps(s, a);
    } else if a.RecordRuns? {
      RecordRunsKeeps(s, a);
    } else {
      MarkRunsKeeps(s, a);
    }
  }

  lemma CallbackKeeps(s: Server, a: Action)
    requires Inv(s) && Enabled(s, a) && a.TurnCallback?
    ensures Inv(After(s, a))
  {
    CallbackKeepsTracking(s, a);
    CallbackKeepsLocking(s, a);
    CallbackKeepsRemembered(s, a);
    CallbackKeepsBurying(s, a);
  }

  predicate OfTurn(a: Action) {
    OnlyMoves(a) || OfWorker(a) || a.TurnStarts? || a.TurnUnwinds? || a.TurnCallback?
  }

  lemma TurnStepKeeps(s: Server, a: Action)
    requires Inv(s) && Enabled(s, a) && OfTurn(a)
    ensures Inv(After(s, a))
  {
    if OnlyMoves(a) {
      MoveKeeps(s, a);
    } else if OfWorker(a) {
      WorkerKeeps(s, a);
    } else if a.TurnStarts? {
      StartKeeps(s, a);
    } else if a.TurnUnwinds? {
      UnwindKeeps(s, a);
    } else {
      CallbackKeeps(s, a);
    }
  }

  lemma EvictKeeps(s: Server, a: Action)
    requires Inv(s) && Enabled(s, a) && a.Evicts?
    ensures Inv(After(s, a))
  {
    ResidueKeeps(s, s.providerLocks, s.pins, s.held - {a.stream});
  }

  predicate OfBarrier(a: Action) {
    a.AskFinalize? || a.BarrierChecks? || a.FinalizeRuns? || a.BarrierEnds? || a.BarrierUnwinds?
  }

  lemma BarrierStepKeeps(s: Server, a: Action)
    requires Inv(s) && Enabled(s, a) && OfBarrier(a)
    ensures Inv(After(s, a))
  {
    if a.AskFinalize? {
      AskFinalizeKeeps(s, a);
    } else if a.BarrierChecks? {
      BarrierChecksKeeps(s, a);
    } else if a.FinalizeRuns? {
      FinalizeRunsKeeps(s, a);
    } else if a.BarrierEnds? {
      BarrierEndsKeeps(s, a);
    } else {
      BarrierUnwindsKeeps(s, a);
    }
  }

  lemma DeletionStepKeeps(s: Server, a: Action)
    requires Inv(s) && Enabled(s, a) && TimelyStep(s, a)
    requires !OfRequest(a) && !OfTurn(a) && !OfBarrier(a)
    ensures Inv(After(s, a))
  {
    if a.LeftoverRuns? {
      LeftoverKeeps(s, a);
    } else if a.Delete? {
      DeleteKeeps(s, a);
    } else if a.CleanupStarts? {
      CleanupStartKeepsTasks(s, a);
      CleanupStartKeepsRest(s, a);
    } else if a.Evicts? {
      EvictKeeps(s, a);
    } else if a.TombstoneLapses? {
      LapseKeeps(s, a);
    } else {
      CleanupEndsKeeps(s, a);
    }
  }

  /** No step of the server breaks the invariant. */
  lemma StepKeeps(s: Server, a: Action)
    requires Inv(s) && Enabled(s, a) && TimelyStep(s, a)
    ensures Inv(After(s, a))
  {
    if OfRequest(a) {
      RequestStepKeeps(s, a);
    } else if OfTurn(a) {
      TurnStepKeeps(s, a);
    } else if OfBarrier(a) {
      BarrierStepKeeps(s, a);
    } else {
      DeletionStepKeeps(s, a);
    }
  }

  lemma {:induction false} RunKeeps(s: Server, actions: seq<Action>)
    requires Inv(s) && Run(s, actions).Some? && Timely(s, actions)
    ensures Inv(Run(s, actions).value)
    decreases |actions|
  {
    if actions != [] {
      StepKeeps(s, actions[0]);
      RunKeeps(After(s, actions[0]), actions[1..]);
    }
  }

  lemma ReachableKeeps(actions: seq<Action>)
    requires Run(START, actions).Some? && Timely(START, actions)
    ensures Inv(Run(START, actions).value)
  {
    RunKeeps(START, actions);
  }

  // ---- One turn at a time ---------------------------------------------------------------

  /** Turns of one stream never overlap, whoever gives up on them and whatever is retried. */
  lemma TurnsOfAStreamAreSerialized(actions: seq<Action>, t: Id, u: Id)
    requires Run(START, actions).Some? && Timely(START, actions)
    requires var s := Run(START, actions).value; Live(s, t) && Live(s, u) && s.turns[t].stream == s.turns[u].stream
    ensures t == u
  {
    ReachableKeeps(actions);
    var s := Run(START, actions).value;
    assert TurnLocked(s, t) && TurnLocked(s, u);
  }

  // ---- The finalization barrier -----------------------------------------------------------

  /** Whatever ends a tracked task notifies the barrier. */
  lemma EndingNotifies(s: Server, a: Action)
    requires Enabled(s, a) && s.changed.Some? && (a.RequestEnds? || a.TurnCallback?)
    ensures After(s, a).changed == Some(true)
  {
  }

  lemma OthersKeepTracked(s: Server, a: Action)
    requires Enabled(s, a) && !a.RequestEnds? && !a.TurnCallback?
    ensures s.tracked <= After(s, a).tracked
  {
  }

  lemma WaitingHasTask(s: Server)
    requires Inv(s) && s.barrier.Some? && s.barrier.value.pc.Waiting? && s.changed == Some(false)
    ensures s.tracked != {}
  {
  }

  /**
   No wake-up is lost: a barrier that waits with its event clear has a tracked task left, and whichever step
   ends a tracked task sets the event.
   */
  lemma NoWakeupIsLost(actions: seq<Action>, a: Action)
    requires Run(START, actions).Some? && Timely(START, actions)
    requires var s := Run(START, actions).value;
             && s.barrier.Some? && s.barrier.value.pc.Waiting? && s.changed == Some(false)
             && Enabled(s, a)
    ensures var s := Run(START, actions).value;
            && s.tracked != {}
            && (!(s.tracked <= After(s, a).tracked) ==> After(s, a).changed == Some(true))
  {
    ReachableKeeps(actions);
    var s := Run(START, actions).value;
    WaitingHasTask(s);
    if a.RequestEnds? || a.TurnCallback? {
      EndingNotifies(s, a);
    } else {
      OthersKeepTracked(s, a);
    }
  }

  predicate NoDelete(actions: seq<Action>) {
    forall i :: 0 <= i < |actions| ==> !actions[i].Delete?
  }

  lemma FrozenStep(s: Server, a: Action)
    requires Inv(s) && Finalized(s) && Enabled(s, a) && !a.Delete?
    ensures After(s, a).record == s.record
  {
    assert forall t :: !Live(s, t);
  }

  lemma {:induction false} FrozenRun(s: Server, actions: seq<Action>)
    requires Inv(s) && Finalized(s) && Run(s, actions).Some? && Timely(s, actions) && NoDelete(actions)
    ensures Run(s, actions).value.record == s.record && NoWork(Run(s, actions).value)
    decreases |actions|
  {
    if actions != [] {
      var a := actions[0];
      FrozenStep(s, a);
      StepKeeps(s, a);
      assert NoDelete(actions[1..]) by {
        assert forall i :: 0 <= i < |actions[1..]| ==> actions[1..][i] == actions[i + 1];
      }
      FrozenRun(After(s, a), actions[1..]);
    }
  }

  /**
   Once finalization has succeeded no accepted request or turn is running, and the recorded turns never change
   before the session is deleted, whatever clients, retries and detached turns do.
   */
  lemma FinalizedRecordIsFrozen(actions: seq<Action>, more: seq<Action>)
    requires Run(START, actions).Some? && Timely(START, actions)
    requires Finalized(Run(START, actions).value)
    requires Run(Run(START, actions).value, more).Some? && Timely(Run(START, actions).value, more) && NoDelete(more)
    ensures NoWork(Run(START, actions).value)
    ensures Run(Run(START, actions).value, more).value.record == Run(START, actions).value.record
    ensures NoWork(Run(Run(START, actions).value, more).value)
  {
    ReachableKeeps(actions);
    FrozenRun(Run(START, actions).value, more);
  }

  /** A finalized record has no recording failure behind it. */
  predicate Clean(s: Server) {
    Finalized(s) ==> s.failed == {}
  }

  lemma WorkerKeepsClean(s: Server, a: Action)
    requires Inv(s) && Clean(s) && Enabled(s, a) && OfWorker(a)
    ensures Clean(After(s, a))
  {
  }

  lemma TurnKeepsClean(s: Server, a: Action)
    requires Inv(s) && Clean(s) && Enabled(s, a) && OfTurn(a) && !OfWorker(a)
    ensures Clean(After(s, a))
  {
  }

  lemma RequestKeepsClean(s: Server, a: Action)
    requires Inv(s) && Clean(s) && Enabled(s, a) && OfRequest(a)
    ensures Clean(After(s, a))
  {
  }

  lemma StepKeepsClean(s: Server, a: Action)
    requires Inv(s) && Clean(s) && Enabled(s, a) && TimelyStep(s, a)
    ensures Clean(After(s, a))
  {
    if OfWorker(a) {
      WorkerKeepsClean(s, a);
    } else if OfTurn(a) {
      TurnKeepsClean(s, a);
    } else if OfRequest(a) {
      RequestKeepsClean(s, a);
    } else if a.LeftoverRuns? {
      LeftoverRecordsNothing(s, a);
    }
  }

  lemma {:induction false} RunKeepsClean(s: Server, actions: seq<Action>)
    requires Inv(s) && Clean(s) && Run(s, actions).Some? && Timely(s, actions)
    ensures Clean(Run(s, actions).value)
    decreases |actions|
  {
    if actions != [] {
      StepKeepsClean(s, actions[0]);
      StepKeeps(s, actions[0]);
      RunKeepsClean(After(s, actions[0]), actions[1..]);
    }
  }

  /** A session with an unresolved recording failure is never finalized, and a finalization that runs then reports failure. */
  lemma FailureBlocksFinalization(actions: seq<Action>)
    requires Run(START, actions).Some? && Timely(START, actions) && Run(START, actions).value.failed != {}
    ensures !Finalized(Run(START, actions).value)
    ensures Enabled(Run(START, actions).value, FinalizeRuns) ==>
              var after := After(Run(START, actions).value, FinalizeRuns);
              !Finalized(after) && after.barrier.value.pc == Finalizing(Some(false))
  {
    RunKeepsClean(START, actions);
  }

  // ---- Deletion ---------------------------------------------------------------------------

  /** Nothing of the session is left, and its tombstone stands. */
  predicate Gone(s: Server) {
    && s.tombstone && s.record.None? && s.failed == {}
    && s.turnLocks == map[] && s.providerLocks == {} && s.pins == {} && s.held == {}
    && NoWork(s) && s.streams == {}
  }

  lemma CleanupLeavesNothing(s: Server)
    requires Inv(s) && Enabled(s, CleanupSucceeds)
    ensures Gone(After(s, CleanupSucceeds))
  {
  }

  lemma GoneHasNoTurn(s: Server, a: Action)
    requires Inv(s) && Gone(s) && Enabled(s, a)
    ensures !OfWorker(a) && !OnlyMoves(a) && !a.TurnStarts? && !a.TurnUnwinds?
    ensures OfRequest(a) ==> a.Admit?
  {
    assert forall t :: t in s.turns ==> s.turns[t].pc.Finished?;
    assert s.requests == map[];
  }

  lemma GoneLeftover(s: Server, a: Action)
    requires Inv(s) && Gone(s) && Enabled(s, a) && a.LeftoverRuns?
    ensures Gone(After(s, a))
  {
  }

  lemma GoneBarrier(s: Server, a: Action)
    requires Inv(s) && Gone(s) && Enabled(s, a) && OfBarrier(a)
    ensures Gone(After(s, a))
  {
  }

  lemma GoneDeletion(s: Server, a: Action)
    requires Inv(s) && Gone(s) && Enabled(s, a)
    requires a.Delete? || a.CleanupStarts? || a.CleanupSucceeds? || a.CleanupFails?
    ensures Gone(After(s, a))
  {
  }

  lemma GoneRest(s: Server, a: Action)
    requires Inv(s) && Gone(s) && Enabled(s, a) && (a.Admit? || a.TurnCallback? || a.Evicts?)
    ensures Gone(After(s, a))
  {
  }

  lemma GoneStays(s: Server, a: Action)
    requires Inv(s) && Gone(s) && Enabled(s, a) && !a.TombstoneLapses?
    ensures Gone(After(s, a))
  {
    GoneHasNoTurn(s, a);
    if a.LeftoverRuns? {
      GoneLeftover(s, a);
    } else if OfBarrier(a) {
      GoneBarrier(s, a);
    } else if a.Admit? || a.TurnCallback? || a.Evicts? {
      GoneRest(s, a);
    } else {
      GoneDeletion(s, a);
    }
  }

  lemma {:induction false} GoneRun(s: Server, actions: seq<Action>)
    requires Inv(s) && Gone(s) && Run(s, actions).Some?
    requires forall i :: 0 <= i < |actions| ==> !actions[i].TombstoneLapses?
    ensures Gone(Run(s, actions).value)
    decreases |actions|
  {
    if actions != [] {
      GoneStays(s, actions[0]);
      StepKeeps(s, actions[0]);
      assert forall i :: 0 <= i < |actions[1..]| ==> actions[1..][i] == actions[i + 1];
      GoneRun(After(s, actions[0]), actions[1..]);
    }
  }

  /**
   After a cleanup that finished without error, and while the tombstone stands, none of the session's streams has a
   token stream, model pin, turn lock or record, and nothing admitted earlier, queued, detached or still in a worker
   thread brings one back.
   */
  lemma DeletedSessionStaysGone(actions: seq<Action>, more: seq<Action>)
    requires Run(START, actions).Some? && Timely(START, actions) && Enabled(Run(START, actions).value, CleanupSucceeds)
    requires Run(After(Run(START, actions).value, CleanupSucceeds), more).Some?
    requires forall i :: 0 <= i < |more| ==> !more[i].TombstoneLapses?
    ensures Gone(Run(After(Run(START, actions).value, CleanupSucceeds), more).value)
  {
    ReachableKeeps(actions);
    var s := Run(START, actions).value;
    CleanupLeavesNothing(s);
    StepKeeps(s, CleanupSucceeds);
    GoneRun(After(s, CleanupSucceeds), more);
  }

  /** A cleanup that failed keeps the names of all streams that still hold anything, so a repeated DELETE releases them. */
  lemma FailedCleanupCanBeRetried(actions: seq<Action>, a: Action)
    requires Run(START, actions).Some? && Timely(START, actions)
    requires a.CleanupFails? && Enabled(Run(START, actions).value, a)
    ensures var s := After(Run(START, actions).value, a);
            && s.providerLocks <= s.streams && s.pins <= s.streams && s.held <= s.streams && s.turnLocks.Keys <= s.streams
            && Run(s, [Delete, CleanupStarts, CleanupSucceeds]).Some?
            && Gone(Run(s, [Delete, CleanupStarts, CleanupSucceeds]).value)
  {
    ReachableKeeps(actions);
    var s0 := Run(START, actions).value;
    StepKeeps(s0, a);
    var s := After(s0, a);
    RetryRun(s);
  }

  lemma RetryDrains(s: Server)
    requires Inv(s) && s.tombstone && s.cleanup.NoCleanup?
    ensures Enabled(After(s, Delete), CleanupStarts)
    ensures var s' := After(After(s, Delete), CleanupStarts); Inv(s') && Drained(s')
  {
    var s1 := After(s, Delete);
    DeletionStepKeeps(s, Delete);
    DeletionStepKeeps(s1, CleanupStarts);
  }

  lemma RetryRun(s: Server)
    requires Inv(s) && s.tombstone && s.cleanup.NoCleanup?
    ensures Run(s, [Delete, CleanupStarts, CleanupSucceeds]).Some?
    ensures Gone(Run(s, [Delete, CleanupStarts, CleanupSucceeds]).value)
  {
    RetryDrains(s);
    var s1 := After(s, Delete);
    var s2 := After(s1, CleanupStarts);
    CleanupLeavesNothing(s2);
    RunStep(s, Delete, [CleanupStarts, CleanupSucceeds]);
    RunStep(s1, CleanupStarts, [CleanupSucceeds]);
    RunStep(s2, CleanupSucceeds, []);
  }
}
