/**
 What a deletion leaves in the recorder (proxyserver/recorder.py): a tombstone that turns away everything that still
 arrives for the session, for how long it stands, and which tombstones a later deletion can cost.
 */
module Deletions {
  import opened Wrappers
  import opened Messages
  import opened Recorder
  import opened RecordingFailure
  import Recording
  import Retention

  // ---- The deletion order -------------------------------------------------------

  predicate OneEach(deleted: seq<Tombstone>) {
    forall i, j :: 0 <= i < j < |deleted| ==> deleted[i].id != deleted[j].id
  }

  /** This tombstone, no older than `at`, with only these ids deleted after it. */
  predicate StandsAt(deleted: seq<Tombstone>, i: nat, id: string, at: nat, others: set<string>) {
    && i < |deleted| && deleted[i].id == id && deleted[i].at >= at
    && forall j :: i < j < |deleted| ==> deleted[j].id in others
  }

  ghost predicate Stands(deleted: seq<Tombstone>, id: string, at: nat, others: set<string>) {
    exists i: nat :: StandsAt(deleted, i, id, at, others)
  }

  lemma WithoutFirst(deleted: seq<Tombstone>, id: string)
    requires deleted != []
    ensures WithoutId(deleted, id) == if deleted[0].id == id then WithoutId(deleted[1..], id) else [deleted[0]] + WithoutId(deleted[1..], id)
  {
    EmptyConcat(WithoutId(deleted[1..], id));
  }

  lemma {:induction false} WithoutNames(deleted: seq<Tombstone>, id: string)
    ensures forall t :: t in WithoutId(deleted, id) ==> t in deleted && t.id != id
    decreases |deleted|
  {
    if deleted != [] {
      WithoutNames(deleted[1..], id);
      WithoutFirst(deleted, id);
    }
  }

  lemma OneEachFirst(first: Tombstone, rest: seq<Tombstone>)
    requires OneEach(rest) && forall t :: t in rest ==> t.id != first.id
    ensures OneEach([first] + rest)
  {
    forall i, j | 0 <= i < j < |[first] + rest| ensures ([first] + rest)[i].id != ([first] + rest)[j].id {
      assert ([first] + rest)[j] == rest[j - 1];
      if i > 0 {
        assert ([first] + rest)[i] == rest[i - 1];
      }
    }
  }

  lemma OneEachLast(deleted: seq<Tombstone>, last: Tombstone)
    requires OneEach(deleted) && forall t :: t in deleted ==> t.id != last.id
    ensures OneEach(deleted + [last])
  {
  }

  lemma OneEachRest(deleted: seq<Tombstone>)
    requires OneEach(deleted) && deleted != []
    ensures OneEach(deleted[1..]) && forall t :: t in deleted[1..] ==> t.id != deleted[0].id
  {
    DropOneEach(deleted, 1);
    forall t | t in deleted[1..] ensures t.id != deleted[0].id {
      var j :| 0 <= j < |deleted[1..]| && deleted[1..][j] == t;
      assert deleted[j + 1] == t;
    }
  }

  lemma {:induction false} WithoutOneEach(deleted: seq<Tombstone>, id: string)
    requires OneEach(deleted)
    ensures OneEach(WithoutId(deleted, id)) && forall t :: t in WithoutId(deleted, id) ==> t in deleted && t.id != id
    decreases |deleted|
  {
    WithoutNames(deleted, id);
    if deleted != [] {
      OneEachRest(deleted);
      WithoutOneEach(deleted[1..], id);
      WithoutFirst(deleted, id);
      if deleted[0].id != id {
        OneEachFirst(deleted[0], WithoutId(deleted[1..], id));
      }
    }
  }

  /** Another id's entry keeps its place among those that stay. */
  lemma {:induction false} WithoutKeeps(deleted: seq<Tombstone>, x: string, i: nat) returns (k: nat)
    requires i < |deleted| && deleted[i].id != x
    ensures k < |WithoutId(deleted, x)| && k <= i && WithoutId(deleted, x)[k] == deleted[i]
    ensures forall j :: k < j < |WithoutId(deleted, x)| ==> WithoutId(deleted, x)[j] in deleted[i + 1..]
    decreases |deleted|
  {
    var rest := WithoutId(deleted[1..], x);
    if i == 0 {
      k := 0;
      Recording.WithoutIdTombstones(deleted[1..], x);
      assert WithoutId(deleted, x) == [deleted[0]] + rest;
    } else {
      k := WithoutKeeps(deleted[1..], x, i - 1);
      assert deleted[1..][i..] == deleted[i + 1..];
      if deleted[0].id == x {
        assert WithoutId(deleted, x) == [] + rest;
      } else {
        assert WithoutId(deleted, x) == [deleted[0]] + rest;
        k := k + 1;
      }
    }
  }

  lemma {:induction false} NothingAged(deleted: seq<Tombstone>, i: nat, now: nat)
    requires i < |deleted| && deleted[i].at + TOMBSTONE_TTL >= now
    ensures |deleted| - |DropExpired(deleted, now)| <= i
    decreases |deleted|
  {
    if !(deleted[0].at + TOMBSTONE_TTL >= now) {
      NothingAged(deleted[1..], i - 1, now);
    }
  }

  lemma DropStands(deleted: seq<Tombstone>, n: nat, i: nat, id: string, at: nat, others: set<string>)
    requires StandsAt(deleted, i, id, at, others) && n <= i
    ensures StandsAt(deleted[n..], i - n, id, at, others)
  {
    forall j | i - n < j < |deleted[n..]| ensures deleted[n..][j].id in others {
      assert deleted[n..][j] == deleted[n + j];
    }
  }

  lemma DropOneEach(deleted: seq<Tombstone>, n: nat)
    requires OneEach(deleted) && n <= |deleted|
    ensures OneEach(deleted[n..])
  {
  }

  function Ids(deleted: seq<Tombstone>): set<string> {
    set t | t in deleted :: t.id
  }

  lemma {:induction false} OneEachCounts(deleted: seq<Tombstone>)
    requires OneEach(deleted)
    ensures |Ids(deleted)| == |deleted|
  {
    if deleted != [] {
      var rest := deleted[1..];
      OneEachCounts(rest);
      assert deleted == [deleted[0]] + rest;
      assert Ids(deleted) == {deleted[0].id} + Ids(rest);
      assert deleted[0].id !in Ids(rest);
    }
  }

  /** Fewer than the bound were deleted since, so fewer than the bound stand behind. */
  lemma FewBehind(deleted: seq<Tombstone>, i: nat, id: string, at: nat, others: set<string>)
    requires OneEach(deleted) && StandsAt(deleted, i, id, at, others)
    ensures |deleted| - i - 1 <= |others|
  {
    var behind := deleted[i + 1..];
    DropOneEach(deleted, i + 1);
    OneEachCounts(behind);
    forall x | x in Ids(behind) ensures x in others {
      var t :| t in behind && t.id == x;
      var j :| 0 <= j < |behind| && behind[j] == t;
      assert deleted[i + 1 + j] == t;
    }
    Retention.SubsetCardinality(Ids(behind), others);
  }

  // ---- One more deletion ---------------------------------------------------------

  lemma BoundOneEach(deleted: seq<Tombstone>)
    requires OneEach(deleted)
    ensures OneEach(Bound(deleted)) && |Bound(deleted)| <= MAX_TOMBSTONES
  {
    if |deleted| > MAX_TOMBSTONES {
      DropOneEach(deleted, |deleted| - MAX_TOMBSTONES);
    }
  }

  lemma BuriedOneEach(deleted: seq<Tombstone>, now: nat, x: string)
    requires OneEach(deleted)
    ensures OneEach(Buried(deleted, now, x)) && |Buried(deleted, now, x)| <= MAX_TOMBSTONES
  {
    WithoutOneEach(deleted, x);
    var kept := WithoutId(deleted, x) + [Tombstone(x, now)];
    OneEachLast(WithoutId(deleted, x), Tombstone(x, now));
    var young := DropExpired(kept, now);
    DropOneEach(kept, |kept| - |young|);
    BoundOneEach(young);
  }

  /** Ageing out and the bound take entries from the front only. */
  lemma PrunedStands(deleted: seq<Tombstone>, i: nat, now: nat, id: string, at: nat, others: set<string>)
    requires OneEach(deleted) && StandsAt(deleted, i, id, at, others) && now <= at + TOMBSTONE_TTL
    requires |others| < MAX_TOMBSTONES
    ensures Stands(Bound(DropExpired(deleted, now)), id, at, others)
  {
    var young := DropExpired(deleted, now);
    var n := |deleted| - |young|;
    NothingAged(deleted, i, now);
    DropStands(deleted, n, i, id, at, others);
    DropOneEach(deleted, n);
    BoundStands(young, i - n, id, at, others);
  }

  lemma BoundStands(deleted: seq<Tombstone>, i: nat, id: string, at: nat, others: set<string>)
    requires OneEach(deleted) && StandsAt(deleted, i, id, at, others) && |others| < MAX_TOMBSTONES
    ensures Stands(Bound(deleted), id, at, others)
  {
    FewBehind(deleted, i, id, at, others);
    if |deleted| > MAX_TOMBSTONES {
      DropStands(deleted, |deleted| - MAX_TOMBSTONES, i, id, at, others);
    }
  }

  lemma BuriesItself(deleted: seq<Tombstone>, now: nat, id: string, at: nat, others: set<string>)
    requires OneEach(deleted) && at <= now && now <= at + TOMBSTONE_TTL && |others| < MAX_TOMBSTONES
    ensures Stands(Buried(deleted, now, id), id, at, others)
  {
    WithoutOneEach(deleted, id);
    var kept := WithoutId(deleted, id) + [Tombstone(id, now)];
    assert StandsAt(kept, |kept| - 1, id, at, others);
    OneEachLast(WithoutId(deleted, id), Tombstone(id, now));
    PrunedStands(kept, |kept| - 1, now, id, at, others);
  }

  /** The deletion of another session leaves the tombstone standing, as long as the bound is not reached. */
  lemma OtherBurialKeeps(deleted: seq<Tombstone>, now: nat, x: string, id: string, at: nat, others: set<string>)
    requires OneEach(deleted) && Stands(deleted, id, at, others) && x != id && x in others
    requires now <= at + TOMBSTONE_TTL && |others| < MAX_TOMBSTONES
    ensures Stands(Buried(deleted, now, x), id, at, others)
  {
    var i: nat :| StandsAt(deleted, i, id, at, others);
    WithoutOneEach(deleted, x);
    var k := WithoutKeeps(deleted, x, i);
    var without := WithoutId(deleted, x);
    var kept := without + [Tombstone(x, now)];
    OneEachLast(WithoutId(deleted, x), Tombstone(x, now));
    forall j | k < j < |kept| ensures kept[j].id in others {
      if j < |without| {
        assert without[j] in deleted[i + 1..];
      }
    }
    assert StandsAt(kept, k, id, at, others);
    PrunedStands(kept, k, now, id, at, others);
  }

  // ---- Runs ------------------------------------------------------------------------

  function DeletedIn(ops: seq<Op>): set<string> {
    set op | op in ops && op.DeleteOp? :: op.id
  }

  /** The time a run takes. */
  function Elapsed(ops: seq<Op>): nat {
    if ops == [] then 0 else (if ops[0].WaitOp? then ops[0].seconds else 0) + Elapsed(ops[1..])
  }

  predicate Absent(s: State, id: string) {
    id !in s.sessions && id !in s.failed
  }

  /** The session is gone and its tombstone stands. */
  ghost predicate Dead(c: Clocked, id: string, at: nat, others: set<string>) {
    Absent(c.state, id) && OneEach(c.state.deleted) && Stands(c.state.deleted, id, at, others)
  }

  lemma StandingIsLive(deleted: seq<Tombstone>, id: string, at: nat, others: set<string>, now: nat)
    requires Stands(deleted, id, at, others) && now < at + TOMBSTONE_TTL
    ensures Tombstoned(deleted, id, now)
  {
    var i: nat :| StandsAt(deleted, i, id, at, others);
    assert deleted[i].id == id && now - deleted[i].at < TOMBSTONE_TTL;
  }

  lemma DeletionKeepsDead(c: Clocked, op: Op, id: string, at: nat, others: set<string>)
    requires Dead(c, id, at, others) && op.DeleteOp? && (op.id != id ==> op.id in others) && |others| < MAX_TOMBSTONES
    requires at <= c.now < at + TOMBSTONE_TTL
    ensures Dead(Apply(c, op), id, at, others)
  {
    BuriedOneEach(c.state.deleted, c.now, op.id);
    if op.id == id {
      BuriesItself(c.state.deleted, c.now, id, at, others);
    } else {
      OtherBurialKeeps(c.state.deleted, c.now, op.id, id, at, others);
    }
  }

  lemma StepKeepsDead(c: Clocked, op: Op, id: string, at: nat, others: set<string>)
    requires Dead(c, id, at, others) && (op.DeleteOp? && op.id != id ==> op.id in others) && |others| < MAX_TOMBSTONES
    requires at <= c.now < at + TOMBSTONE_TTL
    ensures Dead(Apply(c, op), id, at, others)
  {
    StandingIsLive(c.state.deleted, id, at, others, c.now);
    match op
    case DeleteOp(_) => DeletionKeepsDead(c, op, id, at, others);
    case RecordOp(x, d) => Recording.RecordTouchesOwnSession(c.state, c.now, x, d);
    case _ =>
  }

  lemma {:induction false} RunKeepsDead(c: Clocked, ops: seq<Op>, id: string, at: nat, others: set<string>)
    requires Dead(c, id, at, others) && DeletedIn(ops) - {id} <= others && |others| < MAX_TOMBSTONES
    requires at <= c.now && c.now + Elapsed(ops) < at + TOMBSTONE_TTL
    ensures Dead(ApplyAll(c, ops), id, at, others) && ApplyAll(c, ops).now == c.now + Elapsed(ops)
    decreases |ops|
  {
    if ops != [] {
      assert ops[0] in ops;
      StepKeepsDead(c, ops[0], id, at, others);
      assert DeletedIn(ops[1..]) <= DeletedIn(ops);
      RunKeepsDead(Apply(c, ops[0]), ops[1..], id, at, others);
    }
  }

  lemma {:induction false} RunOneEach(c: Clocked, ops: seq<Op>)
    requires OneEach(c.state.deleted) && |c.state.deleted| <= MAX_TOMBSTONES
    ensures OneEach(ApplyAll(c, ops).state.deleted) && |ApplyAll(c, ops).state.deleted| <= MAX_TOMBSTONES
    decreases |ops|
  {
    if ops != [] {
      if ops[0].DeleteOp? {
        BuriedOneEach(c.state.deleted, c.now, ops[0].id);
      } else if ops[0].RecordOp? {
        Recording.RecordTouchesOwnSession(c.state, c.now, ops[0].id, ops[0].delivery);
      }
      RunOneEach(Apply(c, ops[0]), ops[1..]);
    }
  }

  /** Nothing that still arrives for the session has any effect. */
  ghost predicate TurnsAway(c: Clocked, id: string) {
    && (forall d :: Record(c.state, c.now, id, d) == (c.state, DroppedDeleted))
    && (forall model :: Ensure(c.state, c.now, id, model) == c.state)
    && (forall agent, ms, prompt, completion :: MarkFailed(c.state, c.now, id, agent, ms, prompt, completion) == c.state)
  }

  lemma TombstoneTurnsAway(c: Clocked, id: string)
    requires Tombstoned(c.state.deleted, id, c.now)
    ensures TurnsAway(c, id)
  {
  }

  lemma DeletionIsDead(c: Clocked, id: string, others: set<string>)
    requires OneEach(c.state.deleted) && |others| < MAX_TOMBSTONES
    ensures Dead(Apply(c, DeleteOp(id)), id, c.now, others)
  {
    BuriedOneEach(c.state.deleted, c.now, id);
    BuriesItself(c.state.deleted, c.now, id, c.now, others);
  }

  lemma StaysDead(c: Clocked, at: nat, id: string, ops: seq<Op>, others: set<string>, after: Clocked)
    requires Dead(c, id, at, others) && c.now == at && others == DeletedIn(ops) - {id} && |others| < MAX_TOMBSTONES
    requires Elapsed(ops) < TOMBSTONE_TTL && after == ApplyAll(c, ops)
    ensures Absent(after.state, id) && Tombstoned(after.state.deleted, id, after.now)
  {
    RunKeepsDead(c, ops, id, at, others);
    StandingIsLive(after.state.deleted, id, at, others, after.now);
  }

  lemma DeletionStands(c: Clocked, id: string, ops: seq<Op>, others: set<string>, deleted: Clocked, after: Clocked)
    requires OneEach(c.state.deleted) && deleted == Apply(c, DeleteOp(id)) && after == ApplyAll(deleted, ops)
    requires others == DeletedIn(ops) - {id} && |others| < MAX_TOMBSTONES && Elapsed(ops) < TOMBSTONE_TTL
    ensures Absent(after.state, id) && Tombstoned(after.state.deleted, id, after.now) && TurnsAway(after, id)
  {
    DeletionIsDead(c, id, others);
    StaysDead(deleted, c.now, id, ops, others, after);
    TombstoneTurnsAway(after, id);
  }

  /**
   After any calls, a deleted session stays deleted: while less time passes than a tombstone lives and fewer other
   sessions are deleted than the table holds, no later call brings back its record or a failure of it, and every
   delivery, request or failure mark for it is turned away.
   */
  lemma DeletedStaysDeleted(history: seq<Op>, id: string, ops: seq<Op>)
    requires |DeletedIn(ops) - {id}| < MAX_TOMBSTONES && Elapsed(ops) < TOMBSTONE_TTL
    ensures var after := ApplyAll(Apply(ApplyAll(NOTHING, history), DeleteOp(id)), ops);
            Absent(after.state, id) && Tombstoned(after.state.deleted, id, after.now) && TurnsAway(after, id)
  {
    RunOneEach(NOTHING, history);
    var c := ApplyAll(NOTHING, history);
    var deleted := Apply(c, DeleteOp(id));
    DeletionStands(c, id, ops, DeletedIn(ops) - {id}, deleted, ApplyAll(deleted, ops));
  }

  // ---- Which tombstones a deletion can cost ------------------------------------------

  lemma {:induction false} LiveEntry(deleted: seq<Tombstone>, id: string, now: nat) returns (i: nat)
    requires Tombstoned(deleted, id, now)
    ensures i < |deleted| && deleted[i].id == id && now - deleted[i].at < TOMBSTONE_TTL
  {
    i :| 0 <= i < |deleted| && deleted[i].id == id && now - deleted[i].at < TOMBSTONE_TTL;
  }

  lemma EntryIsLive(deleted: seq<Tombstone>, i: nat, t: Tombstone, now: nat)
    requires i < |deleted| && deleted[i] == t && now - t.at < TOMBSTONE_TTL
    ensures Tombstoned(deleted, t.id, now)
  {
  }

  lemma BoundKeepsEntry(deleted: seq<Tombstone>, k: nat, t: Tombstone, now: nat)
    requires k < |deleted| && deleted[k] == t && now - t.at < TOMBSTONE_TTL && |deleted| <= MAX_TOMBSTONES + k
    ensures Tombstoned(Bound(deleted), t.id, now)
  {
    var n := if |deleted| > MAX_TOMBSTONES then |deleted| - MAX_TOMBSTONES else 0;
    assert Bound(deleted)[k - n] == deleted[k];
    EntryIsLive(Bound(deleted), k - n, t, now);
  }

  /** Only the first entry can be forced out, and only from a full table that gains one. */
  lemma KeptBehindFirst(deleted: seq<Tombstone>, now: nat, x: string, i: nat)
    requires OneEach(deleted) && |deleted| <= MAX_TOMBSTONES && i < |deleted| && deleted[i].id != x
    requires now - deleted[i].at < TOMBSTONE_TTL
    requires i > 0 || |deleted| < MAX_TOMBSTONES || WithoutId(deleted, x) != deleted
    ensures Tombstoned(Buried(deleted, now, x), deleted[i].id, now)
  {
    Shortens(deleted, x);
    var k := WithoutKeeps(deleted, x, i);
    var without := WithoutId(deleted, x);
    if without == deleted {
      SamePlace(deleted, k, i);
    }
    KeptWithBound(without, now, x, k, deleted[i]);
  }

  lemma SamePlace(deleted: seq<Tombstone>, k: nat, i: nat)
    requires OneEach(deleted) && k <= i < |deleted| && deleted[k] == deleted[i]
    ensures k == i
  {
  }

  lemma KeptWithBound(without: seq<Tombstone>, now: nat, x: string, k: nat, t: Tombstone)
    requires k < |without| && without[k] == t && now - t.at < TOMBSTONE_TTL && |without| < MAX_TOMBSTONES + k
    ensures Tombstoned(Bound(DropExpired(without + [Tombstone(x, now)], now)), t.id, now)
  {
    var kept := without + [Tombstone(x, now)];
    var young := DropExpired(kept, now);
    NothingAged(kept, k, now);
    var n := |kept| - |young|;
    assert young[k - n] == kept[k];
    BoundKeepsEntry(young, k - n, t, now);
  }

  lemma {:induction false} Shortens(deleted: seq<Tombstone>, x: string)
    ensures WithoutId(deleted, x) != deleted ==> |WithoutId(deleted, x)| < |deleted|
    ensures WithoutId(deleted, x) == deleted <==> forall j :: 0 <= j < |deleted| ==> deleted[j].id != x
    decreases |deleted|
  {
    if deleted != [] {
      Shortens(deleted[1..], x);
      assert deleted == [deleted[0]] + deleted[1..];
      if deleted[0].id != x {
        assert WithoutId(deleted, x)[1..] == WithoutId(deleted[1..], x);
        forall j | 0 < j < |deleted| ensures deleted[j] == deleted[1..][j - 1] {
        }
      } else {
        assert WithoutId(deleted, x) == WithoutId(deleted[1..], x);
      }
    }
  }

  lemma ForcedOut(deleted: seq<Tombstone>, now: nat, x: string)
    requires OneEach(deleted) && |deleted| == MAX_TOMBSTONES && WithoutId(deleted, x) == deleted && deleted[0].id != x
    requires now - deleted[0].at < TOMBSTONE_TTL
    ensures !Tombstoned(Buried(deleted, now, x), deleted[0].id, now)
  {
    var kept := deleted + [Tombstone(x, now)];
    assert DropExpired(kept, now) == kept;
    var after := Buried(deleted, now, x);
    assert after == kept[1..];
    forall j | 0 <= j < |after| ensures after[j].id != deleted[0].id {
      assert after[j] == kept[j + 1];
    }
  }

  lemma ForgottenExactly(deleted: seq<Tombstone>, now: nat, id: string, other: string)
    requires OneEach(deleted) && |deleted| <= MAX_TOMBSTONES && other != id && Tombstoned(deleted, other, now)
    ensures !Tombstoned(Buried(deleted, now, id), other, now)
            <==> |deleted| == MAX_TOMBSTONES && deleted[0].id == other && forall j :: 0 <= j < |deleted| ==> deleted[j].id != id
  {
    var i := LiveEntry(deleted, other, now);
    Shortens(deleted, id);
    if |deleted| == MAX_TOMBSTONES && deleted[0].id == other && WithoutId(deleted, id) == deleted {
      SameEntry(deleted, 0, i);
      ForcedOut(deleted, now, id);
    } else {
      KeptBehindFirst(deleted, now, id, i);
    }
  }

  lemma SameEntry(deleted: seq<Tombstone>, i: nat, j: nat)
    requires OneEach(deleted) && i < |deleted| && j < |deleted| && deleted[i].id == deleted[j].id
    ensures i == j
  {
  }

  /**
   A deletion costs another session its live tombstone exactly when the table is full, the deleted session has none yet
   and that tombstone is the oldest.
   */
  lemma OnlyTheOldestIsForgotten(history: seq<Op>, id: string, other: string)
    requires other != id
    requires var c := ApplyAll(NOTHING, history); Tombstoned(c.state.deleted, other, c.now)
    ensures var c := ApplyAll(NOTHING, history); var deleted := c.state.deleted;
            !Tombstoned(Apply(c, DeleteOp(id)).state.deleted, other, c.now)
            <==> (&& |deleted| == MAX_TOMBSTONES && deleted[0].id == other
                  && forall j :: 0 <= j < |deleted| ==> deleted[j].id != id)
  {
    RunOneEach(NOTHING, history);
    var c := ApplyAll(NOTHING, history);
    ForgottenExactly(c.state.deleted, c.now, id, other);
  }
}
