/**
 One session's life in the server (proxyserver/service.py, proxyserver/rollout_base.py, proxyserver/recorder.py):
 admission, one turn at a time per stream, turns that outlive their callers, the finalization barrier, and
 deletion with its tombstone. Each action is the code between two awaits, or one critical section of a worker
 thread, and actions interleave freely.
 */
module Lifecycle {
  import opened Wrappers

  type Stream = string
  type Id = nat

  // ---- Tasks -----------------------------------------------------------------

  /** An accepted request: queued on its stream's turn lock, or waiting for the turn it started. */
  datatype Request = Request(stream: Stream, lock: Id, turn: Option<Id>, cancelled: bool)

  /** Where a turn task is; `Recording` and `Marking` hold the result of their worker thread once it ran. */
  datatype Pc =
    | Created
    | Resolving
    | Resolved(served: bool)
    | Generating
    | Parsing
    | Recording(recorded: Option<bool>)
    | Marking(marked: bool)
    | Finished

  datatype Turn = Turn(stream: Stream, lock: Id, pc: Pc, cancelled: bool)

  /** A worker thread whose cancelled task no longer waits for it. */
  datatype Job = RecordJob(turn: Id, stream: Stream) | MarkJob(stream: Stream) | FinalizeJob

  datatype BarrierPc = Starting | Waiting | Finalizing(finalized: Option<bool>) | Ended(ok: bool)

  /** The session's finalization task. */
  datatype Barrier = Barrier(pc: BarrierPc, cancelled: bool)

  /** The session's cleanup task; `Draining` waits for the tasks it found and cancelled. */
  datatype Cleanup = NoCleanup | Scheduled | Draining(tasks: set<Id>)

  /** The recorder's view of the session. */
  datatype Record = Record(turns: seq<Id>, completed: bool)

  datatype Server = Server(
    next: Id,
    requests: map<Id, Request>,
    turns: map<Id, Turn>,
    tracked: set<Id>,
    turnLocks: map<Stream, Id>,
    heldLocks: set<Id>,
    barrier: Option<Barrier>,
    changed: Option<bool>,
    cleanup: Cleanup,
    streams: set<Stream>,
    tombstone: bool,
    record: Option<Record>,
    failed: set<Stream>,
    providerLocks: set<Stream>,
    pins: set<Stream>,
    held: set<Stream>,
    leftover: map<Id, Job>)

  const START := Server(0, map[], map[], {}, map[], {}, None, None, NoCleanup, {}, false, None, {}, {}, {}, {}, map[])

  /** What recording a turn does: it appends, recognizes a duplicate, or raises before or after appending. */
  datatype Recording = Appends(repairs: bool) | Skips(repairs: bool) | RaisesBefore | RaisesAfter

  datatype Action =
    | Admit(stream: Stream)
    | Acquire(r: Id)
    | CallerGivesUp(r: Id)
    | RequestEnds(r: Id)
    | TurnStarts(t: Id, valid: bool)
    | ResolveRuns(t: Id, served: bool)
    | TurnResolved(t: Id)
    | GenerationFails(t: Id)
    | Replays(t: Id)
    | Commits(t: Id)
    | Parsed(t: Id, ok: bool)
    | RecordRuns(t: Id, outcome: Recording)
    | MarkRuns(t: Id)
    | RecordReturns(t: Id)
    | TurnUnwinds(t: Id)
    | TurnCallback(t: Id)
    | LeftoverRuns(j: Id, outcome: Recording)
    | AskFinalize
    | BarrierChecks
    | FinalizeRuns
    | BarrierEnds
    | BarrierUnwinds
    | Delete
    | CleanupStarts
    | CleanupSucceeds
    | CleanupFails(failing: set<Stream>, providerLocks: set<Stream>, pins: set<Stream>, held: set<Stream>)
    | Evicts(stream: Stream)
    | TombstoneLapses

  // ---- Pieces of the steps ------------------------------------------------------

  predicate Live(s: Server, t: Id) {
    t in s.turns && !s.turns[t].pc.Finished?
  }

  function At(s: Server, t: Id): Option<Pc> {
    if t in s.turns then Some(s.turns[t].pc) else None
  }

  function Goto(s: Server, t: Id, pc: Pc): Server
    requires t in s.turns
  {
    s.(turns := s.turns[t := s.turns[t].(pc := pc)])
  }

  /** Every change of the tracked tasks wakes a waiting barrier. */
  function Notified(s: Server): Server {
    if s.changed.Some? then s.(changed := Some(true)) else s
  }

  function Untracked(s: Server, task: Id): Server {
    Notified(s.(tracked := s.tracked - {task}))
  }

  /** One pass through the recorder for a turn; a tombstoned session records nothing. */
  function Recorded(s: Server, t: Id, stream: Stream, outcome: Recording): Server {
    if s.tombstone then s
    else
      var before := if s.record.Some? then s.record.value else Record([], false);
      var after := if outcome.Appends? || outcome.RaisesAfter? then before.(turns := before.turns + [t]) else before;
      var repairs := (outcome.Appends? || outcome.Skips?) && outcome.repairs;
      s.(record := Some(after), failed := if repairs then s.failed - {stream} else s.failed)
  }

  function RecordOk(s: Server, outcome: Recording): bool {
    s.tombstone || outcome.Appends? || outcome.Skips?
  }

  function Marked(s: Server, stream: Stream): Server {
    if s.tombstone then s else s.(failed := s.failed + {stream})
  }

  predicate Finalizable(s: Server) {
    s.record.Some? && s.failed == {}
  }

  function FinalizedRecord(s: Server): Server {
    if Finalizable(s) then s.(record := Some(s.record.value.(completed := true))) else s
  }

  function JobDone(s: Server, j: Id, outcome: Recording): Server
    requires j in s.leftover
  {
    var s' := s.(leftover := s.leftover - {j});
    match s.leftover[j]
    case RecordJob(t, stream) => Recorded(s', t, stream, outcome)
    case MarkJob(stream) => Marked(s', stream)
    case FinalizeJob => FinalizedRecord(s')
  }

  predicate AnyRunning(s: Server) {
    exists task :: task in s.tracked && (task in s.requests || Live(s, task))
  }

  function CancelRequests(s: Server, tasks: set<Id>): map<Id, Request> {
    map r | r in s.requests :: if r in tasks then s.requests[r].(cancelled := true) else s.requests[r]
  }

  function CancelTurns(s: Server, tasks: set<Id>): map<Id, Turn> {
    map t | t in s.turns :: if t in tasks && Live(s, t) then s.turns[t].(cancelled := true) else s.turns[t]
  }

  predicate Drained(s: Server) {
    && s.cleanup.Draining?
    && (forall task :: task in s.cleanup.tasks ==> task !in s.requests && !Live(s, task))
    && (s.barrier.Some? ==> s.barrier.value.pc.Ended?)
  }

  // ---- The actions ------------------------------------------------------------------

  predicate Enabled(s: Server, a: Action) {
    match a
    case Admit(_) => true
    case Acquire(r) => r in s.requests && s.requests[r].turn.None? && !s.requests[r].cancelled && s.requests[r].lock !in s.heldLocks
    case CallerGivesUp(r) => r in s.requests
    case RequestEnds(r) =>
      r in s.requests && (s.requests[r].cancelled || (s.requests[r].turn.Some? && !Live(s, s.requests[r].turn.value)))
    case TurnStarts(t, _) => At(s, t) == Some(Created) && !s.turns[t].cancelled
    case ResolveRuns(t, _) => At(s, t) == Some(Resolving)
    case TurnResolved(t) => At(s, t).Some? && s.turns[t].pc.Resolved? && !s.turns[t].cancelled
    case GenerationFails(t) => At(s, t) == Some(Generating)
    case Replays(t) => At(s, t) == Some(Generating) && !s.turns[t].cancelled
    case Commits(t) => At(s, t) == Some(Generating) && !s.turns[t].cancelled
    case Parsed(t, _) => At(s, t) == Some(Parsing) && !s.turns[t].cancelled
    case RecordRuns(t, _) => At(s, t) == Some(Recording(None))
    case MarkRuns(t) => At(s, t) == Some(Marking(false))
    case RecordReturns(t) =>
      && !(t in s.turns && s.turns[t].cancelled)
      && (At(s, t) == Some(Recording(Some(true))) || At(s, t) == Some(Recording(Some(false))) || At(s, t) == Some(Marking(true)))
    case TurnUnwinds(t) => Live(s, t) && s.turns[t].cancelled && !s.turns[t].pc.Resolving?
    case TurnCallback(t) => At(s, t) == Some(Finished)
    case LeftoverRuns(j, _) => j in s.leftover
    case AskFinalize => true
    case BarrierChecks =>
      && s.barrier.Some? && !s.barrier.value.cancelled
      && (s.barrier.value.pc.Starting? || (s.barrier.value.pc.Waiting? && s.changed == Some(true)))
    case FinalizeRuns => s.barrier.Some? && s.barrier.value.pc == Finalizing(None)
    case BarrierEnds =>
      s.barrier.Some? && !s.barrier.value.cancelled && s.barrier.value.pc.Finalizing? && s.barrier.value.pc.finalized.Some?
    case BarrierUnwinds => s.barrier.Some? && s.barrier.value.cancelled && !s.barrier.value.pc.Ended?
    case Delete => true
    case CleanupStarts => s.cleanup.Scheduled?
    case CleanupSucceeds => Drained(s)
    case CleanupFails(failing, providerLocks, pins, held) =>
      && Drained(s) && failing != {}
      && providerLocks <= s.providerLocks && pins <= s.pins && held <= s.held
      && (forall x :: x in providerLocks || x in pins || x in held ==> x in failing || x !in s.streams)
    case Evicts(_) => true
    case TombstoneLapses => s.tombstone
  }

  /** Admission checks the tombstone and the barrier, and registers the request, without an await in between. */
  function Admitted(s: Server, stream: Stream): Server {
    if s.tombstone || s.barrier.Some? then s
    else
      var known := stream in s.turnLocks;
      var lock := if known then s.turnLocks[stream] else s.next;
      var r := s.next + 1;
      Notified(s.(
        next := s.next + 2,
        record := if s.record.Some? then s.record else Some(Record([], false)),
        streams := s.streams + {stream},
        tracked := s.tracked + {r},
        turnLocks := s.turnLocks[stream := lock],
        requests := s.requests[r := Request(stream, lock, None, false)]))
  }

  function Acquired(s: Server, r: Id): Server
    requires r in s.requests
  {
    var request := s.requests[r];
    Notified(s.(
      next := s.next + 1,
      heldLocks := s.heldLocks + {request.lock},
      tracked := s.tracked + {s.next},
      turns := s.turns[s.next := Turn(request.stream, request.lock, Created, false)],
      requests := s.requests[r := request.(turn := Some(s.next))]))
  }

  function Unwound(s: Server, t: Id): Server
    requires t in s.turns
  {
    var turn := s.turns[t];
    var s' := Goto(s, t, Finished);
    if turn.pc == Recording(None) then s'.(leftover := s.leftover[t := RecordJob(t, turn.stream)])
    else if turn.pc == Marking(false) then s'.(leftover := s.leftover[t := MarkJob(turn.stream)])
    else s'
  }

  function WithBarrier(s: Server, pc: BarrierPc): Server
    requires s.barrier.Some?
  {
    s.(barrier := Some(s.barrier.value.(pc := pc)))
  }

  function After(s: Server, a: Action): Server
    requires Enabled(s, a)
  {
    match a
    case Admit(stream) => Admitted(s, stream)
    case Acquire(r) => Acquired(s, r)
    case CallerGivesUp(r) => s.(requests := s.requests[r := s.requests[r].(cancelled := true)])
    case RequestEnds(r) => Untracked(s.(requests := s.requests - {r}), r)
    case TurnStarts(t, valid) =>
      if s.tombstone || !valid then Goto(s, t, Finished)
      else Goto(s, t, Resolving).(providerLocks := s.providerLocks + {s.turns[t].stream})
    case ResolveRuns(t, served) =>
      Goto(s, t, Resolved(served)).(pins := if served then s.pins + {s.turns[t].stream} else s.pins)
    case TurnResolved(t) => Goto(s, t, if s.turns[t].pc.served then Generating else Finished)
    case GenerationFails(t) => Goto(s, t, Finished)
    case Replays(t) => Goto(s, t, Parsing)
    case Commits(t) =>
      Goto(s, t, Parsing).(held := if s.turns[t].stream in s.pins then s.held + {s.turns[t].stream} else s.held)
    case Parsed(t, ok) => Goto(s, t, if ok then Recording(None) else Marking(false))
    case RecordRuns(t, outcome) =>
      Recorded(Goto(s, t, Recording(Some(RecordOk(s, outcome)))), t, s.turns[t].stream, outcome)
    case MarkRuns(t) => Marked(Goto(s, t, Marking(true)), s.turns[t].stream)
    case RecordReturns(t) => Goto(s, t, if s.turns[t].pc == Recording(Some(false)) then Marking(false) else Finished)
    case TurnUnwinds(t) => Unwound(s, t)
    case TurnCallback(t) =>
      Untracked(s.(turns := s.turns - {t}, heldLocks := s.heldLocks - {s.turns[t].lock}), t)
    case LeftoverRuns(j, outcome) => JobDone(s, j, outcome)
    case AskFinalize =>
      if s.tombstone || s.barrier.Some? || s.record.None? then s else s.(barrier := Some(Barrier(Starting, false)))
    case BarrierChecks => WithBarrier(s, if AnyRunning(s) then Waiting else Finalizing(None)).(changed := Some(false))
    case FinalizeRuns => FinalizedRecord(WithBarrier(s, Finalizing(Some(Finalizable(s)))))
    case BarrierEnds => WithBarrier(s, Ended(s.barrier.value.pc.finalized.value)).(changed := None)
    case BarrierUnwinds =>
      var s' := WithBarrier(s, Ended(false)).(changed := None);
      if s.barrier.value.pc == Finalizing(None) then s'.(next := s.next + 1, leftover := s.leftover[s.next := FinalizeJob]) else s'
    case Delete =>
      if !s.cleanup.NoCleanup? then s else s.(tombstone := true, record := None, failed := {}, cleanup := Scheduled)
    case CleanupStarts =>
      s.(cleanup := Draining(s.tracked),
         requests := CancelRequests(s, s.tracked),
         turns := CancelTurns(s, s.tracked),
         barrier := if s.barrier.Some? && !s.barrier.value.pc.Ended? then Some(s.barrier.value.(cancelled := true)) else s.barrier)
    case CleanupSucceeds =>
      s.(cleanup := NoCleanup, streams := {}, barrier := None,
         turnLocks := s.turnLocks - s.streams,
         providerLocks := s.providerLocks - s.streams, pins := s.pins - s.streams, held := s.held - s.streams)
    case CleanupFails(failing, providerLocks, pins, held) =>
      s.(cleanup := NoCleanup, turnLocks := map x | x in s.turnLocks && (x in failing || x !in s.streams) :: s.turnLocks[x],
         providerLocks := providerLocks, pins := pins, held := held)
    case Evicts(stream) => s.(held := s.held - {stream})
    case TombstoneLapses => s.(tombstone := false)
  }

  function Run(s: Server, actions: seq<Action>): Option<Server>
    decreases |actions|
  {
    if actions == [] then Some(s)
    else if !Enabled(s, actions[0]) then None
    else Run(After(s, actions[0]), actions[1..])
  }

  /** A tombstone outlives the cleanup it stands for and the worker threads that cleanup abandoned. */
  predicate TimelyStep(s: Server, a: Action) {
    a.TombstoneLapses? ==> s.cleanup.NoCleanup? && s.leftover == map[]
  }

  predicate Timely(s: Server, actions: seq<Action>)
    decreases |actions|
  {
    actions != [] && Enabled(s, actions[0]) ==> TimelyStep(s, actions[0]) && Timely(After(s, actions[0]), actions[1..])
  }

  lemma RunStep(s: Server, a: Action, rest: seq<Action>)
    requires Enabled(s, a)
    ensures Run(s, [a] + rest) == Run(After(s, a), rest)
    ensures Timely(s, [a] + rest) <==> TimelyStep(s, a) && Timely(After(s, a), rest)
  {
    assert ([a] + rest)[1..] == rest;
  }
}
