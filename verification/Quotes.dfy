/**
 The quoted examples of a text (proxyserver/tokenization/base.py, _quoted_span_ends): code spans first, fences over
 them, and prose quotes where neither has an end.
 */
module Quotes {
  import opened Wrappers
  import opened Pairing
  import opened CodeSpans
  import opened Fences
  import opened ProseQuotes

  /** What one kind of delimiter gives: exactly its closed openers, each with the end of its nearest closer. */
  ghost predicate RunsPaired(runs: seq<Run>, ends: map<nat, nat>) {
    Paired(RunCloses(runs), RunStarts(runs), RunEnds(runs), |runs|, ends)
  }

  ghost predicate FencesPaired(fences: seq<Fence>, ends: map<nat, nat>) {
    Paired(FenceCloses(fences), FenceStarts(fences), FenceEnds(fences), |fences|, ends)
  }

  ghost predicate MarksPaired(marks: seq<Mark>, ends: map<nat, nat>) {
    Paired(MarkCloses(marks), MarkStarts(marks), MarkEnds(marks), |marks|, ends)
  }

  method QuotedSpanEnds(runs: seq<Run>, fences: seq<Fence>, marks: seq<Mark>)
    returns (ends: map<nat, nat>, ghost spans: map<nat, nat>, ghost fenced: map<nat, nat>, ghost quoted: map<nat, nat>)
    requires Increasing(RunStarts(runs)) && Increasing(FenceStarts(fences)) && Increasing(MarkStarts(marks))
    requires FenceKinds(fences)
    ensures RunsPaired(runs, spans) && FencesPaired(fences, fenced) && MarksPaired(marks, quoted)
    ensures ends == quoted + (spans + fenced)
  {
    ends := PairRuns(runs);
    spans := ends;
    ends, fenced := PairFences(fences, ends);
    ends, quoted := PairQuotes(marks, ends);
  }

  /** The pairing leaves no choice: there is one such table. */
  lemma PairingIsUnique(closes: Closes, at: seq<nat>, end: seq<nat>, a: map<nat, nat>, b: map<nat, nat>)
    requires |at| == |end| && Increasing(at)
    requires Paired(closes, at, end, |at|, a) && Paired(closes, at, end, |at|, b)
    ensures a == b
  {
    forall p ensures p in a <==> p in b {
      if p in a {
        assert StartsOne(at, p, |at|);
        var i :| 0 <= i < |at| && at[i] == p;
        assert Entry(closes, at, end, i, |at|, a) && Entry(closes, at, end, i, |at|, b);
      }
      if p in b {
        assert StartsOne(at, p, |at|);
        var i :| 0 <= i < |at| && at[i] == p;
        assert Entry(closes, at, end, i, |at|, a) && Entry(closes, at, end, i, |at|, b);
      }
    }
    forall p | p in a ensures a[p] == b[p] {
      assert StartsOne(at, p, |at|);
      var i :| 0 <= i < |at| && at[i] == p;
      assert Entry(closes, at, end, i, |at|, a) && Entry(closes, at, end, i, |at|, b);
    }
  }

  /**
   A fence with a later closer ends there even where its backticks also open a code span, and a code span keeps its
   end where no fence has one.
   */
  lemma FencesOverrideCodeSpans(runs: seq<Run>, fences: seq<Fence>, marks: seq<Mark>,
                                spans: map<nat, nat>, fenced: map<nat, nat>, quoted: map<nat, nat>, i: nat)
    requires i < |fences| && Increasing(FenceStarts(fences))
    requires RunsPaired(runs, spans) && FencesPaired(fences, fenced) && MarksPaired(marks, quoted)
    requires forall k :: 0 <= k < |marks| ==> marks[k].start != fences[i].start
    ensures var ends := quoted + (spans + fenced);
            var closer := FirstCloser(FenceCloses(fences), i, |fences|);
            && (closer.Some? ==> fences[i].start in ends && ends[fences[i].start] == fences[closer.value].end)
            && (closer.None? ==> ((fences[i].start in ends <==> fences[i].start in spans)
                                  && (fences[i].start in spans ==> ends[fences[i].start] == spans[fences[i].start])))
  {
    assert Entry(FenceCloses(fences), FenceStarts(fences), FenceEnds(fences), i, |fences|, fenced);
    assert !StartsOne(MarkStarts(marks), fences[i].start, |marks|);
  }
}
