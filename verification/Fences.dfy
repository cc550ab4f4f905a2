/**
 Code fences (proxyserver/tokenization/base.py, _quoted_span_ends): one pass with a queue per kind gives every fence
 the end a search for the first later fence that can close it would give.
 */
module Fences {
  import opened Pairing

  /** A code fence line: where its run starts, its kind and length, its info text, and where that text ends. */
  datatype Fence = Fence(start: nat, kind: char, length: nat, blankInfo: bool, backtickInfo: bool, end: nat)

  /** A backtick fence with a backtick in its info text is no fence. */
  predicate Skipped(f: Fence) {
    f.kind == '`' && f.backtickInfo
  }

  /** Section 4.5 of CommonMark: the same character, at least as long, and no info text. */
  predicate Closer(opener: Fence, closer: Fence) {
    !Skipped(opener) && !Skipped(closer) && closer.blankInfo && closer.kind == opener.kind && closer.length >= opener.length
  }

  function FenceCloses(fences: seq<Fence>): Closes {
    (i: nat, j: nat) => i < |fences| && j < |fences| && Closer(fences[i], fences[j])
  }

  function FenceStarts(fences: seq<Fence>): (r: seq<nat>)
    ensures |r| == |fences| && forall i :: 0 <= i < |r| ==> r[i] == fences[i].start
  {
    seq(|fences|, i requires 0 <= i < |fences| => fences[i].start)
  }

  function FenceEnds(fences: seq<Fence>): (r: seq<nat>)
    ensures |r| == |fences| && forall i :: 0 <= i < |r| ==> r[i] == fences[i].end
  {
    seq(|fences|, i requires 0 <= i < |fences| => fences[i].end)
  }

  /** An unclosed fence waiting in the queue of its kind, shortest first. */
  datatype Candidate = Candidate(length: nat, start: nat)

  predicate Waits(fences: seq<Fence>, i: nat, n: nat, kind: char)
    requires i < n <= |fences|
  {
    !Skipped(fences[i]) && fences[i].kind == kind && FirstCloser(FenceCloses(fences), i, n).None?
  }

  predicate QueuedAs(fences: seq<Fence>, n: nat, kind: char, c: Candidate, i: nat)
    requires n <= |fences|
  {
    i < n && Waits(fences, i, n, kind) && c == Candidate(fences[i].length, fences[i].start)
  }

  predicate Shortest(queue: seq<Candidate>) {
    forall i, j :: 0 <= i < j < |queue| ==> queue[i].length <= queue[j].length
  }

  /** The queue holds exactly the waiting fences of a kind; `ids` says which. */
  ghost predicate Queued(fences: seq<Fence>, n: nat, kind: char, queue: seq<Candidate>, ids: seq<nat>)
    requires n <= |fences|
  {
    && |queue| == |ids| && Shortest(queue)
    && (forall k :: 0 <= k < |queue| ==> QueuedAs(fences, n, kind, queue[k], ids[k]))
    && (forall i :: 0 <= i < n && Waits(fences, i, n, kind) ==> i in ids)
  }

  /** The first k candidates get this end. */
  function Assign(ends: map<nat, nat>, queue: seq<Candidate>, k: nat, end: nat): map<nat, nat>
    requires k <= |queue|
  {
    if k == 0 then ends else Assign(ends, queue, k - 1, end)[queue[k - 1].start := end]
  }

  lemma {:induction false} AssignOver(before: map<nat, nat>, found: map<nat, nat>, queue: seq<Candidate>, k: nat, end: nat)
    requires k <= |queue|
    ensures Assign(before + found, queue, k, end) == before + Assign(found, queue, k, end)
  {
    if k > 0 {
      AssignOver(before, found, queue, k - 1, end);
    }
  }

  predicate OneOf(queue: seq<Candidate>, k: nat, p: nat)
    requires k <= |queue|
  {
    exists i :: 0 <= i < k && queue[i].start == p
  }

  lemma {:induction false} AssignIs(ends: map<nat, nat>, queue: seq<Candidate>, k: nat, end: nat)
    requires k <= |queue|
    ensures forall i :: 0 <= i < k ==> queue[i].start in Assign(ends, queue, k, end) && Assign(ends, queue, k, end)[queue[i].start] == end
    ensures forall p :: p in ends && !OneOf(queue, k, p) ==> p in Assign(ends, queue, k, end) && Assign(ends, queue, k, end)[p] == ends[p]
    ensures forall p :: p in Assign(ends, queue, k, end) ==> p in ends || OneOf(queue, k, p)
  {
    if k > 0 {
      AssignIs(ends, queue, k - 1, end);
      forall p ensures OneOf(queue, k, p) <==> OneOf(queue, k - 1, p) || queue[k - 1].start == p {
      }
    }
  }

  /** Takes the candidates off the queue that a fence of this length closes. */
  method CloseCandidates(queue: seq<Candidate>, length: nat, end: nat, ends: map<nat, nat>)
    returns (rest: seq<Candidate>, ends': map<nat, nat>, ghost k: nat)
    ensures k <= |queue| && rest == queue[k..] && ends' == Assign(ends, queue, k, end)
    ensures (forall i :: 0 <= i < k ==> queue[i].length <= length) && (k < |queue| ==> queue[k].length > length)
  {
    rest, ends', k := queue, ends, 0;
    while rest != [] && rest[0].length <= length
      invariant k <= |queue| && rest == queue[k..] && ends' == Assign(ends, queue, k, end)
      invariant forall i :: 0 <= i < k ==> queue[i].length <= length
      decreases |rest|
    {
      assert rest[0] == queue[k];
      ends' := ends'[rest[0].start := end];
      rest := rest[1..];
      k := k + 1;
    }
  }

  /** The queue's insertion: before the first longer candidate. */
  method Push(queue: seq<Candidate>, c: Candidate) returns (k: nat, longer: seq<Candidate>)
    requires Shortest(queue)
    ensures k <= |queue| && longer == queue[..k] + [c] + queue[k..] && Shortest(longer)
  {
    k := 0;
    while k < |queue| && queue[k].length <= c.length
      invariant k <= |queue| && forall i :: 0 <= i < k ==> queue[i].length <= c.length
    {
      k := k + 1;
    }
    longer := queue[..k] + [c] + queue[k..];
  }

  // ---- What one fence does -------------------------------------------------------------

  predicate ClosesSome(f: Fence) {
    !Skipped(f) && f.blankInfo
  }

  /** A candidate within reach is an opener the fence closes, with no end yet. */
  lemma ReachIsClosed(fences: seq<Fence>, n: nat, queue: seq<Candidate>, ids: seq<nat>, j: nat, ends: map<nat, nat>)
    requires n < |fences| && Queued(fences, n, fences[n].kind, queue, ids) && ClosesSome(fences[n])
    requires Paired(FenceCloses(fences), FenceStarts(fences), FenceEnds(fences), n, ends)
    requires j < |queue| && queue[j].length <= fences[n].length
    ensures ids[j] < n && ClosedBy(FenceCloses(fences), ids[j], n)
    ensures queue[j].start == FenceStarts(fences)[ids[j]] && queue[j].start !in ends
  {
    assert QueuedAs(fences, n, fences[n].kind, queue[j], ids[j]);
    assert Entry(FenceCloses(fences), FenceStarts(fences), FenceEnds(fences), ids[j], n, ends);
  }

  /** An opener the fence closes is a candidate within reach. */
  lemma ClosedIsInReach(fences: seq<Fence>, n: nat, queue: seq<Candidate>, ids: seq<nat>, k: nat, i: nat) returns (j: nat)
    requires n < |fences| && Queued(fences, n, fences[n].kind, queue, ids) && ClosesSome(fences[n])
    requires k <= |queue| && (k < |queue| ==> queue[k].length > fences[n].length)
    requires i < n && ClosedBy(FenceCloses(fences), i, n)
    ensures j < k && queue[j].start == FenceStarts(fences)[i]
  {
    assert Waits(fences, i, n, fences[n].kind);
    j :| 0 <= j < |ids| && ids[j] == i;
    assert QueuedAs(fences, n, fences[n].kind, queue[j], ids[j]);
  }

  /** The candidates taken off are exactly the openers the fence closes. */
  lemma FenceIsClosing(fences: seq<Fence>, n: nat, queue: seq<Candidate>, ids: seq<nat>, k: nat, ends: map<nat, nat>)
    requires n < |fences| && Queued(fences, n, fences[n].kind, queue, ids) && ClosesSome(fences[n])
    requires Increasing(FenceStarts(fences)) && Paired(FenceCloses(fences), FenceStarts(fences), FenceEnds(fences), n, ends)
    requires k <= |queue| && (forall i :: 0 <= i < k ==> queue[i].length <= fences[n].length)
    requires k < |queue| ==> queue[k].length > fences[n].length
    ensures Closing(FenceCloses(fences), FenceStarts(fences), FenceEnds(fences), n, ends, Assign(ends, queue, k, fences[n].end))
  {
    var ends' := Assign(ends, queue, k, fences[n].end);
    AssignIs(ends, queue, k, fences[n].end);
    forall p | p in ends ensures !OneOf(queue, k, p) {
      forall j | 0 <= j < k ensures queue[j].start != p {
        ReachIsClosed(fences, n, queue, ids, j, ends);
      }
    }
    forall i | 0 <= i < n && ClosedBy(FenceCloses(fences), i, n)
      ensures FenceStarts(fences)[i] in ends' && ends'[FenceStarts(fences)[i]] == fences[n].end
    {
      var j := ClosedIsInReach(fences, n, queue, ids, k, i);
    }
    forall p | p in ends' && p !in ends
      ensures exists i :: 0 <= i < n && FenceStarts(fences)[i] == p && ClosedBy(FenceCloses(fences), i, n)
    {
      assert OneOf(queue, k, p);
      var j :| 0 <= j < k && queue[j].start == p;
      ReachIsClosed(fences, n, queue, ids, j, ends);
    }
  }

  lemma NothingCloses(fences: seq<Fence>, n: nat, ends: map<nat, nat>)
    requires n < |fences| && !ClosesSome(fences[n])
    ensures Closing(FenceCloses(fences), FenceStarts(fences), FenceEnds(fences), n, ends, ends)
  {
  }

  lemma WaitsNext(fences: seq<Fence>, i: nat, n: nat, m: nat, kind: char)
    requires i < n < |fences| && m == n + 1
    ensures Waits(fences, i, m, kind) <==> Waits(fences, i, n, kind) && !Closer(fences[i], fences[n])
  {
    FirstCloserNext(FenceCloses(fences), i, n, m);
  }

  /** A queue of another kind, or behind a line that is no fence, stays as it is. */
  lemma QueueStays(fences: seq<Fence>, n: nat, m: nat, kind: char, queue: seq<Candidate>, ids: seq<nat>)
    requires n < |fences| && m == n + 1 && Queued(fences, n, kind, queue, ids)
    requires Skipped(fences[n]) || fences[n].kind != kind
    ensures Queued(fences, m, kind, queue, ids)
  {
    forall k | 0 <= k < |queue| ensures QueuedAs(fences, m, kind, queue[k], ids[k]) {
      assert QueuedAs(fences, n, kind, queue[k], ids[k]);
      WaitsNext(fences, ids[k], n, m, kind);
    }
    forall i | 0 <= i < m && Waits(fences, i, m, kind) ensures i in ids {
      if i < n {
        WaitsNext(fences, i, n, m, kind);
      }
    }
  }

  /** What the fence closes is taken off its queue. */
  lemma QueueShrinks(fences: seq<Fence>, n: nat, m: nat, queue: seq<Candidate>, ids: seq<nat>, k: nat)
    requires n < |fences| && m == n + 1 && Queued(fences, n, fences[n].kind, queue, ids) && k <= |queue| && !Skipped(fences[n])
    requires if ClosesSome(fences[n]) then
               (forall i :: 0 <= i < k ==> queue[i].length <= fences[n].length) && (k < |queue| ==> queue[k].length > fences[n].length)
             else k == 0
    ensures forall j :: k <= j < |queue| ==> QueuedAs(fences, m, fences[n].kind, queue[j], ids[j])
    ensures forall i :: 0 <= i < n && Waits(fences, i, m, fences[n].kind) ==> i in ids[k..]
    ensures Shortest(queue[k..])
  {
    var kind := fences[n].kind;
    forall j | k <= j < |queue| ensures QueuedAs(fences, m, kind, queue[j], ids[j]) {
      assert QueuedAs(fences, n, kind, queue[j], ids[j]);
      WaitsNext(fences, ids[j], n, m, kind);
    }
    forall i | 0 <= i < n && Waits(fences, i, m, kind) ensures i in ids[k..] {
      WaitsNext(fences, i, n, m, kind);
      var j :| 0 <= j < |ids| && ids[j] == i;
      assert QueuedAs(fences, n, kind, queue[j], ids[j]);
      assert j >= k;
      assert ids[k..][j - k] == i;
    }
  }

  /** The fence itself joins its queue. */
  lemma QueueGrows(fences: seq<Fence>, n: nat, m: nat, queue: seq<Candidate>, ids: seq<nat>, p: nat, longer: seq<Candidate>)
    requires n < |fences| && m == n + 1 && |queue| == |ids| && p <= |queue| && !Skipped(fences[n])
    requires forall j :: 0 <= j < |queue| ==> QueuedAs(fences, m, fences[n].kind, queue[j], ids[j])
    requires forall i :: 0 <= i < n && Waits(fences, i, m, fences[n].kind) ==> i in ids
    requires longer == queue[..p] + [Candidate(fences[n].length, fences[n].start)] + queue[p..] && Shortest(longer)
    ensures Queued(fences, m, fences[n].kind, longer, ids[..p] + [n] + ids[p..])
  {
    var ids' := ids[..p] + [n] + ids[p..];
    forall k | 0 <= k < |longer| ensures QueuedAs(fences, m, fences[n].kind, longer[k], ids'[k]) {
      if k < p {
        assert longer[k] == queue[k] && ids'[k] == ids[k];
      } else if k > p {
        assert longer[k] == queue[k - 1] && ids'[k] == ids[k - 1];
      }
    }
    forall i | 0 <= i < m && Waits(fences, i, m, fences[n].kind) ensures i in ids' {
      if i < n {
        var j :| 0 <= j < |ids| && ids[j] == i;
        assert ids'[if j < p then j else j + 1] == i;
      } else {
        assert ids'[p] == i;
      }
    }
  }

  /** One fence line: what it closes, and its own place in its queue. */
  method TakeFence(fences: seq<Fence>, n: nat, queue: seq<Candidate>, ghost ids: seq<nat>, ends: map<nat, nat>,
                   ghost before: map<nat, nat>, ghost found: map<nat, nat>)
    returns (queue': seq<Candidate>, ghost ids': seq<nat>, ends': map<nat, nat>, ghost found': map<nat, nat>)
    requires n < |fences| && Queued(fences, n, fences[n].kind, queue, ids) && !Skipped(fences[n])
    requires Increasing(FenceStarts(fences)) && Paired(FenceCloses(fences), FenceStarts(fences), FenceEnds(fences), n, found)
    requires ends == before + found
    ensures Closing(FenceCloses(fences), FenceStarts(fences), FenceEnds(fences), n, found, found')
    ensures ends' == before + found'
    ensures Queued(fences, n + 1, fences[n].kind, queue', ids')
  {
    var rest := queue;
    ghost var k := 0;
    ends', found' := ends, found;
    if fences[n].blankInfo {
      rest, ends', k := CloseCandidates(queue, fences[n].length, fences[n].end, ends);
      found' := Assign(found, queue, k, fences[n].end);
      AssignOver(before, found, queue, k, fences[n].end);
      FenceIsClosing(fences, n, queue, ids, k, found);
    } else {
      NothingCloses(fences, n, found);
    }
    QueueShrinks(fences, n, n + 1, queue, ids, k);
    ghost var restIds := ids[k..];
    forall j | 0 <= j < |rest| ensures QueuedAs(fences, n + 1, fences[n].kind, rest[j], restIds[j]) {
      assert rest[j] == queue[k + j] && restIds[j] == ids[k + j];
    }
    var p;
    p, queue' := Push(rest, Candidate(fences[n].length, fences[n].start));
    ids' := restIds[..p] + [n] + restIds[p..];
    QueueGrows(fences, n, n + 1, rest, restIds, p, queue');
  }

  predicate FenceKinds(fences: seq<Fence>) {
    forall i :: 0 <= i < |fences| ==> fences[i].kind == '`' || fences[i].kind == '~'
  }

  ghost predicate QueuesOk(fences: seq<Fence>, n: nat, pending: map<char, seq<Candidate>>, ids: map<char, seq<nat>>)
    requires n <= |fences|
  {
    && pending.Keys == ids.Keys == {'`', '~'}
    && forall kind :: kind in pending ==> Queued(fences, n, kind, pending[kind], ids[kind])
  }

  lemma QueuesSkip(fences: seq<Fence>, n: nat, m: nat, pending: map<char, seq<Candidate>>, ids: map<char, seq<nat>>)
    requires n < |fences| && m == n + 1 && QueuesOk(fences, n, pending, ids) && Skipped(fences[n])
    ensures QueuesOk(fences, m, pending, ids)
  {
    forall kind | kind in pending ensures Queued(fences, m, kind, pending[kind], ids[kind]) {
      QueueStays(fences, n, m, kind, pending[kind], ids[kind]);
    }
  }

  lemma QueuesNext(fences: seq<Fence>, n: nat, m: nat, pending: map<char, seq<Candidate>>, ids: map<char, seq<nat>>,
                   queue: seq<Candidate>, queueIds: seq<nat>)
    requires n < |fences| && m == n + 1 && QueuesOk(fences, n, pending, ids) && fences[n].kind in pending
    requires Queued(fences, m, fences[n].kind, queue, queueIds)
    ensures QueuesOk(fences, m, pending[fences[n].kind := queue], ids[fences[n].kind := queueIds])
  {
    forall kind | kind in pending && kind != fences[n].kind ensures Queued(fences, m, kind, pending[kind], ids[kind]) {
      QueueStays(fences, n, m, kind, pending[kind], ids[kind]);
    }
  }

  /** One fence line, with the queues of both kinds. */
  method NextFence(fences: seq<Fence>, n: nat, pending: map<char, seq<Candidate>>, ghost ids: map<char, seq<nat>>, ends: map<nat, nat>,
                   ghost before: map<nat, nat>, ghost found: map<nat, nat>)
    returns (pending': map<char, seq<Candidate>>, ghost ids': map<char, seq<nat>>, ends': map<nat, nat>, ghost found': map<nat, nat>)
    requires n < |fences| && FenceKinds(fences) && QueuesOk(fences, n, pending, ids) && ends == before + found
    requires Increasing(FenceStarts(fences)) && Paired(FenceCloses(fences), FenceStarts(fences), FenceEnds(fences), n, found)
    ensures Paired(FenceCloses(fences), FenceStarts(fences), FenceEnds(fences), n + 1, found')
    ensures ends' == before + found'
    ensures QueuesOk(fences, n + 1, pending', ids')
  {
    pending', ids', ends', found' := pending, ids, ends, found;
    if Skipped(fences[n]) {
      NothingCloses(fences, n, found);
      QueuesSkip(fences, n, n + 1, pending, ids);
    } else {
      var kind := fences[n].kind;
      var queue: seq<Candidate>;
      ghost var queueIds: seq<nat>;
      queue, queueIds, ends', found' := TakeFence(fences, n, pending[kind], ids[kind], ends, before, found);
      QueuesNext(fences, n, n + 1, pending, ids, queue, queueIds);
      pending', ids' := pending[kind := queue], ids[kind := queueIds];
    }
    PairedNext(FenceCloses(fences), FenceStarts(fences), FenceEnds(fences), n, n + 1, found, found');
  }

  /** Pairs every fence with the first later fence that can close it; its ends override those already found. */
  method PairFences(fences: seq<Fence>, before: map<nat, nat>) returns (ends: map<nat, nat>, ghost found: map<nat, nat>)
    requires Increasing(FenceStarts(fences)) && FenceKinds(fences)
    ensures ends == before + found
    ensures Paired(FenceCloses(fences), FenceStarts(fences), FenceEnds(fences), |fences|, found)
  {
    ends, found := before, map[];
    PairedNone(FenceCloses(fences), FenceStarts(fences), FenceEnds(fences));
    var pending: map<char, seq<Candidate>> := map['`' := [], '~' := []];
    ghost var ids: map<char, seq<nat>> := map['`' := [], '~' := []];
    for n := 0 to |fences|
      invariant ends == before + found
      invariant Paired(FenceCloses(fences), FenceStarts(fences), FenceEnds(fences), n, found)
      invariant QueuesOk(fences, n, pending, ids)
    {
      pending, ids, ends, found := NextFence(fences, n, pending, ids, ends, before, found);
    }
  }
}
