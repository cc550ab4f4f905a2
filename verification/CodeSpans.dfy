/**
 Inline code spans (proxyserver/tokenization/base.py, _quoted_span_ends): one pass over the backtick runs gives every
 run the end a search for the next run of its size would give.
 */
module CodeSpans {
  import opened Pairing

  /** A run of backticks. */
  datatype Run = Run(start: nat, end: nat)

  function Size(r: Run): int {
    r.end - r.start
  }

  /** A code span ends at the next run of the same size. */
  function RunCloses(runs: seq<Run>): Closes {
    (i: nat, j: nat) => i < |runs| && j < |runs| && Size(runs[i]) == Size(runs[j])
  }

  function RunStarts(runs: seq<Run>): (r: seq<nat>)
    ensures |r| == |runs| && forall i :: 0 <= i < |r| ==> r[i] == runs[i].start
  {
    seq(|runs|, i requires 0 <= i < |runs| => runs[i].start)
  }

  function RunEnds(runs: seq<Run>): (r: seq<nat>)
    ensures |r| == |runs| && forall i :: 0 <= i < |r| ==> r[i] == runs[i].end
  {
    seq(|runs|, i requires 0 <= i < |runs| => runs[i].end)
  }

  predicate OpenRun(runs: seq<Run>, i: nat, n: nat)
    requires i < n
  {
    FirstCloser(RunCloses(runs), i, n).None?
  }

  /** The run remembered for a size is the one still open. */
  predicate Remembered(runs: seq<Run>, n: nat, size: int, start: nat, i: nat) {
    i < n <= |runs| && OpenRun(runs, i, n) && Size(runs[i]) == size && runs[i].start == start
  }

  ghost predicate Previous(runs: seq<Run>, n: nat, previous: map<int, nat>, latest: map<int, nat>)
    requires n <= |runs|
  {
    && previous.Keys == latest.Keys
    && (forall size :: size in previous ==> Remembered(runs, n, size, previous[size], latest[size]))
    && (forall i :: 0 <= i < n && OpenRun(runs, i, n) ==> Size(runs[i]) in latest && latest[Size(runs[i])] == i)
  }

  lemma RunIsClosed(runs: seq<Run>, n: nat, previous: map<int, nat>, latest: map<int, nat>, ends: map<nat, nat>, ends': map<nat, nat>)
    requires n < |runs| && Previous(runs, n, previous, latest)
    requires Increasing(RunStarts(runs)) && Paired(RunCloses(runs), RunStarts(runs), RunEnds(runs), n, ends)
    requires ends' == if Size(runs[n]) in previous then ends[previous[Size(runs[n])] := runs[n].end] else ends
    ensures Closing(RunCloses(runs), RunStarts(runs), RunEnds(runs), n, ends, ends')
  {
    var size := Size(runs[n]);
    if size in previous {
      var i := latest[size];
      assert Remembered(runs, n, size, previous[size], i);
      assert Entry(RunCloses(runs), RunStarts(runs), RunEnds(runs), i, n, ends);
      assert ClosedBy(RunCloses(runs), i, n);
    }
  }

  lemma PreviousNext(runs: seq<Run>, n: nat, m: nat, previous: map<int, nat>, latest: map<int, nat>)
    requires n < |runs| && m == n + 1 && Previous(runs, n, previous, latest)
    ensures Previous(runs, m, previous[Size(runs[n]) := runs[n].start], latest[Size(runs[n]) := n])
  {
    var size := Size(runs[n]);
    forall i: nat | i < n ensures OpenRun(runs, i, m) <==> OpenRun(runs, i, n) && Size(runs[i]) != size {
      FirstCloserNext(RunCloses(runs), i, n, m);
    }
    var previous' := previous[size := runs[n].start];
    var latest' := latest[size := n];
    forall s | s in previous' ensures Remembered(runs, m, s, previous'[s], latest'[s]) {
      if s != size {
        assert Remembered(runs, n, s, previous[s], latest[s]);
      }
    }
  }

  /** Pairs every run with the next of its size, in one pass. */
  method PairRuns(runs: seq<Run>) returns (ends: map<nat, nat>)
    requires Increasing(RunStarts(runs))
    ensures Paired(RunCloses(runs), RunStarts(runs), RunEnds(runs), |runs|, ends)
  {
    ends := map[];
    var previous: map<int, nat> := map[];
    ghost var latest: map<int, nat> := map[];
    for n := 0 to |runs|
      invariant Paired(RunCloses(runs), RunStarts(runs), RunEnds(runs), n, ends)
      invariant Previous(runs, n, previous, latest)
    {
      ghost var before := ends;
      var size := Size(runs[n]);
      if size in previous {
        ends := ends[previous[size] := runs[n].end];
      }
      RunIsClosed(runs, n, previous, latest, before, ends);
      PairedNext(RunCloses(runs), RunStarts(runs), RunEnds(runs), n, n + 1, before, ends);
      PreviousNext(runs, n, n + 1, previous, latest);
      previous := previous[size := runs[n].start];
      latest := latest[size := n];
    }
  }
}
