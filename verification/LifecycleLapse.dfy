/**
 Why a tombstone must outlive the cleanup it stands for: a concrete run in which it lapses too early
 (proxyserver/service.py, proxyserver/recorder.py).
 */
module LifecycleLapse {
  import opened Wrappers
  import opened Lifecycle

  /** The session of one stream "a", with the given requests, turns and locks. */
  function Scene(next: Id, requests: map<Id, Request>, turns: map<Id, Turn>, turnLocks: map<Stream, Id>, heldLocks: set<Id>,
                 cleanup: Cleanup, streams: set<Stream>, tombstone: bool, record: Option<Record>): Server
  {
    Server(next, requests, turns, requests.Keys + turns.Keys, turnLocks, heldLocks, None, None, cleanup, streams, tombstone, record,
           {}, {}, {}, {}, map[])
  }

  const QUEUED := Request("a", 0, None, false)
  const FIRST := QUEUED.(cancelled := true)
  const EMPTY := Some(Record([], false))

  /** One queued request, and a cleanup that has cancelled it, behind a tombstone that then lapses. */
  const DRAINING := Scene(2, map[1 := FIRST], map[], map["a" := 0], {}, Draining({1}), {"a"}, true, None)

  /** A second request was admitted and runs its turn 4 on the old lock. */
  const READMITTED := Scene(5, map[1 := FIRST, 3 := QUEUED.(turn := Some(4))], map[4 := Turn("a", 0, Created, false)],
                            map["a" := 0], {0}, Draining({1}), {"a"}, false, EMPTY)

  /** The cleanup removed the lock that turn 4 still holds. */
  const CLEANED := Scene(5, map[3 := QUEUED.(turn := Some(4))], map[4 := Turn("a", 0, Created, false)],
                         map[], {0}, NoCleanup, {}, false, EMPTY)

  lemma ToDraining()
    ensures Enabled(After(After(START, Admit("a")), Delete), CleanupStarts)
    ensures After(After(After(START, Admit("a")), Delete), CleanupStarts) == DRAINING
  {
    var s1 := After(START, Admit("a"));
    assert s1 == Scene(2, map[1 := QUEUED], map[], map["a" := 0], {}, NoCleanup, {"a"}, false, EMPTY);
    assert s1.tracked == {1};
    var s3 := After(After(s1, Delete), CleanupStarts);
    assert s3.requests == map[1 := FIRST];
  }

  lemma ToReadmitted()
    ensures Enabled(After(After(DRAINING, TombstoneLapses), Admit("a")), Acquire(3))
    ensures After(After(After(DRAINING, TombstoneLapses), Admit("a")), Acquire(3)) == READMITTED
  {
    var s := After(After(DRAINING, TombstoneLapses), Admit("a"));
    assert s == Scene(4, map[1 := FIRST, 3 := QUEUED], map[], map["a" := 0], {}, Draining({1}), {"a"}, false, EMPTY);
    assert After(s, Acquire(3)).turns == READMITTED.turns;
    assert After(s, Acquire(3)).requests == READMITTED.requests;
  }

  lemma ToCleaned()
    ensures Enabled(READMITTED, RequestEnds(1)) && Enabled(After(READMITTED, RequestEnds(1)), CleanupSucceeds)
    ensures After(After(READMITTED, RequestEnds(1)), CleanupSucceeds) == CLEANED
  {
    var s := After(READMITTED, RequestEnds(1));
    assert s.requests == CLEANED.requests;
    assert s.tracked == CLEANED.tracked;
    assert s.turnLocks - s.streams == map[];
  }

  lemma ToSecondTurn()
    ensures Enabled(After(CLEANED, Admit("a")), Acquire(6))
    ensures var s := After(After(CLEANED, Admit("a")), Acquire(6)); Live(s, 4) && Live(s, 7) && s.turns[4].stream == s.turns[7].stream
  {
  }

  lemma RunThree(s: Server, a: Action, b: Action, c: Action, rest: seq<Action>)
    requires Enabled(s, a) && Enabled(After(s, a), b) && Enabled(After(After(s, a), b), c)
    ensures Run(s, [a, b, c] + rest) == Run(After(After(After(s, a), b), c), rest)
    ensures Timely(s, [a, b, c] + rest) ==> TimelyStep(s, a) && Timely(After(After(After(s, a), b), c), rest)
  {
    RunStep(s, a, [b, c] + rest);
    RunStep(After(s, a), b, [c] + rest);
    RunStep(After(After(s, a), b), c, rest);
    assert [a, b, c] + rest == [a] + ([b, c] + rest);
    assert [b, c] + rest == [b] + ([c] + rest);
  }

  lemma RunTwo(s: Server, a: Action, b: Action, rest: seq<Action>)
    requires Enabled(s, a) && Enabled(After(s, a), b)
    ensures Run(s, [a, b] + rest) == Run(After(After(s, a), b), rest)
  {
    RunStep(s, a, [b] + rest);
    RunStep(After(s, a), b, rest);
    assert [a, b] + rest == [a] + ([b] + rest);
  }

  const TAIL := [RequestEnds(1), CleanupSucceeds] + ([Admit("a"), Acquire(6)] + [])

  lemma TailRuns()
    ensures Run(READMITTED, TAIL) == Some(After(After(CLEANED, Admit("a")), Acquire(6)))
  {
    ToCleaned();
    ToSecondTurn();
    RunTwo(READMITTED, RequestEnds(1), CleanupSucceeds, [Admit("a"), Acquire(6)] + []);
    RunTwo(CLEANED, Admit("a"), Acquire(6), []);
  }

  lemma LapseIsUntimely(rest: seq<Action>)
    ensures Run(DRAINING, [TombstoneLapses, Admit("a"), Acquire(3)] + rest) == Run(READMITTED, rest)
    ensures !Timely(DRAINING, [TombstoneLapses, Admit("a"), Acquire(3)] + rest)
  {
    ToReadmitted();
    RunThree(DRAINING, TombstoneLapses, Admit("a"), Acquire(3), rest);
  }

  /** A tombstone that lapses while its cleanup still waits lets two turns of one stream run at once. */
  lemma LapseDuringCleanupBreaksSerialization() returns (actions: seq<Action>)
    ensures Run(START, actions).Some? && !Timely(START, actions)
    ensures var s := Run(START, actions).value; Live(s, 4) && Live(s, 7) && s.turns[4].stream == s.turns[7].stream
  {
    ToDraining();
    ToSecondTurn();
    var lapsing := [TombstoneLapses, Admit("a"), Acquire(3)] + TAIL;
    actions := [Admit("a"), Delete, CleanupStarts] + lapsing;
    RunThree(START, Admit("a"), Delete, CleanupStarts, lapsing);
    LapseIsUntimely(TAIL);
    TailRuns();
  }
}
