/**
 Routed-experts capture end to end: how an engine's answer is packed
 (proxyserver/rollout_sglang.py, proxyserver/rollout_vllm.py), and why the capture the recorder
 folds together from deltas is always the engine's own selection for the recorded stream.
 */
module Routing {
  import opened Wrappers
  import opened Messages
  import opened Capture
  import opened Recorder
  import opened Lossless
  import opened Recording
  import TS = TokenStream

  // ---- The engine's selections -------------------------------------------------

  /** What an honest engine selects for the last token of a stream prefix, and how many selections that is. */
  datatype Engine = Engine(select: seq<Token> -> seq<Byte>, cols: nat)

  ghost predicate Uniform(e: Engine) {
    e.cols > 0 && forall s :: |e.select(s)| == e.cols
  }

  /** The rows of a stream from position `from` up to `end`, in order. */
  function Rows(e: Engine, stream: seq<Token>, from: nat, end: nat): seq<Byte>
    requires from <= end <= |stream|
  {
    if from == end then [] else Rows(e, stream, from, end - 1) + e.select(stream[..end])
  }

  lemma {:induction false} RowsJoin(e: Engine, stream: seq<Token>, a: nat, b: nat, c: nat)
    requires a <= b <= c <= |stream|
    ensures Rows(e, stream, a, b) + Rows(e, stream, b, c) == Rows(e, stream, a, c)
    decreases c
  {
    if b < c {
      RowsJoin(e, stream, a, b, c - 1);
    }
  }

  lemma {:induction false} RowsOfExtension(e: Engine, stream: seq<Token>, longer: seq<Token>, from: nat, end: nat)
    requires StartsWith(longer, stream) && from <= end <= |stream|
    ensures Rows(e, longer, from, end) == Rows(e, stream, from, end)
    decreases end
  {
    if from < end {
      RowsOfExtension(e, stream, longer, from, end - 1);
      assert longer[..end] == stream[..end];
    }
  }

  lemma {:induction false} RowsLength(e: Engine, stream: seq<Token>, from: nat, end: nat)
    requires Uniform(e) && from <= end <= |stream|
    ensures |Rows(e, stream, from, end)| == (end - from) * e.cols
    decreases end
  {
    if from < end {
      RowsLength(e, stream, from, end - 1);
      assert (end - from) * e.cols == (end - 1 - from) * e.cols + e.cols;
    }
  }

  /** Row k of a capture is the engine's selection for token k. */
  lemma {:induction false} RowIsSelection(e: Engine, stream: seq<Token>, end: nat, k: nat)
    requires Uniform(e) && k < end <= |stream|
    ensures k * e.cols + e.cols <= |Rows(e, stream, 0, end)|
    ensures Rows(e, stream, 0, end)[k * e.cols..k * e.cols + e.cols] == e.select(stream[..k + 1])
    decreases end
  {
    RowsLength(e, stream, 0, k);
    RowsLength(e, stream, 0, k + 1);
    RowsJoin(e, stream, 0, k + 1, end);
    var head := Rows(e, stream, 0, k) + e.select(stream[..k + 1]);
    assert Rows(e, stream, 0, k + 1) == head;
    assert Rows(e, stream, 0, end) == head + Rows(e, stream, k + 1, end);
    assert (head + Rows(e, stream, k + 1, end))[|Rows(e, stream, 0, k)|..|head|] == e.select(stream[..k + 1]);
  }

  // ---- Honest blobs --------------------------------------------------------------

  /** A stored capture of this stream: from row 0, the engine's own rows, never past the last predicted token. */
  predicate Faithful(e: Engine, b: Blob, stream: seq<Token>) {
    && b.start == 0 && b.cols == e.cols
    && 0 <= b.rows < |stream|
    && b.data == Some(Rows(e, stream, 0, b.rows))
  }

  /** An engine's answer for a turn: the rows from some position up to the last predicted token. */
  predicate HonestAnswer(e: Engine, b: Blob, stream: seq<Token>) {
    && 0 <= b.start && 0 < b.rows && b.start + b.rows + 1 == |stream| && b.cols == e.cols
    && b.data == Some(Rows(e, stream, b.start, b.start + b.rows))
  }

  lemma FaithfulOnExtension(e: Engine, b: Blob, stream: seq<Token>, longer: seq<Token>)
    requires Faithful(e, b, stream) && StartsWith(longer, stream)
    ensures Faithful(e, b, longer)
  {
    RowsOfExtension(e, stream, longer, 0, b.rows);
  }

  /** Folding an honest answer into a faithful prefix keeps it faithful, and never loses rows. */
  lemma MergeFaithful(e: Engine, stored: Option<Blob>, b: Blob, stream: seq<Token>)
    requires HonestAnswer(e, b, stream)
    requires stored.Some? ==> Faithful(e, stored.value, stream)
    ensures Merge(stored, Some(b)).Some? ==> Faithful(e, Merge(stored, Some(b)).value, stream)
    ensures stored.Some? ==> Merge(stored, Some(b)).Some? && Merge(stored, Some(b)).value.rows >= stored.value.rows
  {
    if stored.Some? && b.start == stored.value.rows {
      RowsJoin(e, stream, 0, b.start, b.start + b.rows);
    }
  }

  // ---- One agent -------------------------------------------------------------------

  predicate HonestRouting(e: Engine, routed: Option<WireBlob>, stream: seq<Token>) {
    match routed
    case None => true
    case Some(None) => true
    case Some(Some(b)) => HonestAnswer(e, b, stream)
  }

  /** No failure is pending, or nothing was recorded since the one that is. */
  predicate AtMarkedPosition(a: AgentState) {
    a.failed.Some? ==> |a.turns| == a.failed.value.recordedTurns
  }

  predicate StoredFaithfully(e: Engine, a: AgentState) {
    AtMarkedPosition(a) && a.capture.Some? ==> a.turns != [] && Faithful(e, a.capture.value, Rebuilt(a.turns))
  }

  predicate CaptureSound(e: Engine, v: Agent) {
    && StoredFaithfully(e, v.rec)
    && (v.held.Some? && v.held.value.lastTurn.Some? ==> HonestRouting(e, v.held.value.lastTurn.value.reply.routed, v.held.value.stream))
    && (v.flight.Unrecorded? ==> HonestRouting(e, v.flight.delivery.routed, v.flight.delivery.prompt + v.flight.delivery.completion))
  }

  /** The capture a delivery leaves is faithful to the delivered stream. */
  lemma CaptureAfterFaithful(e: Engine, capture: Option<Blob>, d: Delivery, newConversation: bool)
    requires HonestRouting(e, d.routed, d.prompt + d.completion) && d.agent.Some?
    requires !newConversation && capture.Some? ==> Faithful(e, capture.value, d.prompt + d.completion)
    ensures var after := CaptureAfter(capture, d, newConversation);
            after.Some? ==> Faithful(e, after.value, d.prompt + d.completion)
  {
    var kept := if newConversation then None else capture;
    match d.routed
    case Some(Some(b)) => MergeFaithful(e, kept, b, d.prompt + d.completion);
    case _ =>
  }

  lemma DeliveryKeepsFaithful(e: Engine, a: AgentState, d: Delivery)
    requires Comparable(a.turns) && Normalize(d.messages).Some? && d.agent.Some?
    requires Fits(a.turns, DeliveredExchange(d))
    requires a.capture.Some? ==> a.turns != [] && Faithful(e, a.capture.value, Rebuilt(a.turns))
    requires HonestRouting(e, d.routed, d.prompt + d.completion)
    ensures var b := RecordAgent(a, d).0;
            b.capture.Some? ==> b.turns != [] && Faithful(e, b.capture.value, Rebuilt(b.turns))
  {
    var x := DeliveredExchange(d);
    RecordKeepsStep(a, d, x);
    RecordAgentShape(a, d);
    var v := Judge(a.turns, d);
    var b := RecordAgent(a, d).0;
    if v.Store? {
      if StartsAfresh(a.turns, x) {
        JudgeOpening(a.turns, d, x);
        CaptureAfterFaithful(e, a.capture, d, true);
      } else {
        JudgeContinuation(a.turns, d, x);
        ContinuationExtends(a.turns, x);
        if a.capture.Some? {
          FaithfulOnExtension(e, a.capture.value, Rebuilt(a.turns), d.prompt + d.completion);
        }
        CaptureAfterFaithful(e, a.capture, d, false);
      }
    }
  }

  lemma ContinuationExtends(turns: seq<Turn>, x: Exchange)
    requires turns != [] && HasAssistant(x.messages) && Fits(turns, x) && !InStep(turns, x)
    ensures StartsWith(StreamOf(x), Rebuilt(turns))
  {
    ConcatStartsWith(x.prompt, x.completion);
    StartsWithTransitive(StreamOf(x), x.prompt, Rebuilt(turns));
  }

  lemma RecordKeepsFaithful(e: Engine, v: Agent)
    requires Sound(v) && CaptureSound(e, v) && v.flight.Unrecorded?
    ensures StoredFaithfully(e, AfterRecord(v).rec)
    ensures StoredFaithfully(e, MarkAgent(AfterRecord(v).rec, v.flight.delivery))
  {
    var d := v.flight.delivery;
    if v.rec.failed.None? || Repairs(v.rec, d) {
      if v.rec.failed.Some? {
        RepairedExchange(v.rec, d);
      }
      DeliveryKeepsFaithful(e, v.rec, d);
      RecordKeepsStep(v.rec, d, DeliveredExchange(d));
    } else {
      OtherDeliveryKeepsRepairable(v.rec, d);
      RecordAgentShape(v.rec, d);
      var b := RecordAgent(v.rec, d).0;
      if b.turns != v.rec.turns {
        assert |b.turns| == |v.rec.turns| + 1;
      }
    }
  }

  /** Whatever an agent does, its stored capture stays faithful, as long as the engine answers honestly. */
  lemma MoveKeepsCapture(e: Engine, v: Agent, m: Move)
    requires Sound(v) && CaptureSound(e, v) && CanMove(v, m)
    requires m.CommitTurn? ==> HonestRouting(e, m.delivery.routed, m.delivery.prompt + m.delivery.completion)
    ensures CaptureSound(e, Moved(v, m))
  {
    match m
    case CommitTurn(d, held) =>
      if held.Some? {
        HeldStream(held.value);
      }
    case Replay(d, _) => HeldStream(v.held.value);
    case RecordOk => RecordKeepsFaithful(e, v);
    case FailAfter => RecordKeepsFaithful(e, v);
    case _ =>
  }

  // ---- Runs ----------------------------------------------------------------------------

  /** Every capture the engine reports in the run is honest for the stream it was asked about. */
  predicate HonestRun(e: Engine, p: TS.Profile, s: Sys, actions: seq<Action>)
    requires Run(p, s, actions).Some?
    decreases |actions|
  {
    actions == [] ||
    var a := actions[0];
    && (a.EngineAnswers? ==> HonestRouting(e, a.reply.routed, FlightOf(s, a.id, a.agent).prompt + a.completion))
    && HonestRun(e, p, After(p, s, a), actions[1..])
  }

  ghost predicate CapturesSound(e: Engine, s: Sys) {
    forall id, agent :: ValidId(id) && ValidId(agent) ==> CaptureSound(e, AgentOf(s, id, agent))
  }

  lemma MoveIsHonest(e: Engine, p: TS.Profile, s: Sys, a: Action, id: string, agent: string)
    requires Enabled(s, a)
    requires a.EngineAnswers? ==> HonestRouting(e, a.reply.routed, FlightOf(s, a.id, a.agent).prompt + a.completion)
    ensures var m := MoveOf(p, s, a, id, agent);
            m.CommitTurn? ==> HonestRouting(e, m.delivery.routed, m.delivery.prompt + m.delivery.completion)
  {
  }

  lemma {:induction false} RunKeepsCaptures(e: Engine, p: TS.Profile, s: Sys, actions: seq<Action>)
    requires SysSound(s) && CapturesSound(e, s)
    requires Run(p, s, actions).Some? && HonestRun(e, p, s, actions)
    ensures CapturesSound(e, Run(p, s, actions).value)
    decreases |actions|
  {
    if actions != [] {
      var a := actions[0];
      StepKeepsSound(p, s, a);
      forall id, agent | ValidId(id) && ValidId(agent) ensures CaptureSound(e, AgentOf(After(p, s, a), id, agent)) {
        assert Sound(AgentOf(s, id, agent)) && CaptureSound(e, AgentOf(s, id, agent));
        StepMoves(p, s, a, id, agent);
        MoveIsHonest(e, p, s, a, id, agent);
        MoveKeepsCapture(e, AgentOf(s, id, agent), MoveOf(p, s, a, id, agent));
      }
      RunKeepsCaptures(e, p, After(p, s, a), actions[1..]);
    }
  }

  lemma CaptureFaithfulInRuns(e: Engine, p: TS.Profile, actions: seq<Action>, id: string, agent: string)
    requires Run(p, START, actions).Some? && HonestRun(e, p, START, actions)
    requires ValidId(id) && ValidId(agent)
    ensures StoredFaithfully(e, AgentOf(Run(p, START, actions).value, id, agent).rec)
  {
    assert SysSound(START);
    RunKeepsCaptures(e, p, START, actions);
    assert CaptureSound(e, AgentOf(Run(p, START, actions).value, id, agent));
  }

  /** The capture stored for a record: from row 0, rows x cols bytes, row k the selection for token k of its conversation. */
  predicate IsSelectionOf(e: Engine, b: Blob, stream: seq<Token>) {
    && b.start == 0 && b.cols == e.cols && 0 <= b.rows < |stream|
    && b.data.Some? && |b.data.value| == b.rows * b.cols
    && forall k :: 0 <= k < b.rows ==> HasRow(e, b, stream, k)
  }

  predicate HasRow(e: Engine, b: Blob, stream: seq<Token>, k: nat) {
    && k < |stream| && b.data.Some? && b.cols >= 0 && k * b.cols + b.cols <= |b.data.value| && 0 <= k * b.cols
    && b.data.value[k * b.cols..k * b.cols + b.cols] == e.select(stream[..k + 1])
  }

  /**
   With an honest engine and no pending recording failure, an agent's stored capture starts at row 0, holds rows x cols
   bytes, and its row k is the engine's selection for token k of the agent's recorded conversation.
   */
  lemma CaptureIsTheEnginesSelection(e: Engine, p: TS.Profile, actions: seq<Action>, id: string, agent: string)
    requires Uniform(e) && Run(p, START, actions).Some? && HonestRun(e, p, START, actions)
    requires ValidId(id) && ValidId(agent)
    ensures var a := AgentOf(Run(p, START, actions).value, id, agent).rec;
            a.failed.None? && a.capture.Some? ==> a.turns != [] && IsSelectionOf(e, a.capture.value, Rebuilt(a.turns))
  {
    var a := AgentOf(Run(p, START, actions).value, id, agent).rec;
    CaptureFaithfulInRuns(e, p, actions, id, agent);
    if a.failed.None? && a.capture.Some? {
      FaithfulIsSelection(e, a.capture.value, Rebuilt(a.turns));
    }
  }

  lemma FaithfulIsSelection(e: Engine, b: Blob, stream: seq<Token>)
    requires Uniform(e) && Faithful(e, b, stream)
    ensures IsSelectionOf(e, b, stream)
  {
    RowsLength(e, stream, 0, b.rows);
    forall k | 0 <= k < b.rows ensures HasRow(e, b, stream, k) {
      FaithfulRow(e, b, stream, k);
      AtLeastOnce(k, b.cols);
    }
  }

  lemma FaithfulRow(e: Engine, b: Blob, stream: seq<Token>, k: nat)
    requires Uniform(e) && Faithful(e, b, stream) && k < b.rows
    ensures |b.data.value| == b.rows * b.cols
    ensures k * b.cols + b.cols <= |b.data.value|
    ensures b.data.value[k * b.cols..k * b.cols + b.cols] == e.select(stream[..k + 1])
  {
    RowsLength(e, stream, 0, b.rows);
    RowIsSelection(e, stream, b.rows, k);
  }

  /** Within a conversation the stored rows never shrink, whatever arrives. */
  lemma RowsNeverShrink(a: AgentState, d: Delivery)
    requires RecordAgent(a, d).1 == Recorded ==> !Judge(a.turns, d).newConversation
    requires d.routed.Some? && d.routed.value.Some? ==> d.routed.value.value.rows >= 0
    ensures a.capture.Some? ==>
              RecordAgent(a, d).0.capture.Some? && RecordAgent(a, d).0.capture.value.rows >= a.capture.value.rows
  {
  }

  // ---- Packing an engine's answer --------------------------------------------------------

  datatype Packed = Packed(blob: Blob) | EngineError

  predicate IsByteRange(values: seq<int>) {
    forall i :: 0 <= i < |values| ==> 0 <= values[i] < 256
  }

  function ToBytes(values: seq<int>): seq<Byte>
    requires IsByteRange(values)
  {
    if values == [] then [] else [values[0]] + ToBytes(values[1..])
  }

  function FromBytes(bytes: seq<Byte>): seq<int> {
    if bytes == [] then [] else [bytes[0]] + FromBytes(bytes[1..])
  }

  /** The checks every answer passes before it is stored: whole rows, the expected width, one byte per selection. */
  function PackRows(values: seq<int>, rows: int, hint: nat, start: nat): Packed {
    if rows <= 0 || values == [] || |values| % rows != 0 || (hint != 0 && |values| / rows != hint) then EngineError
    else if !IsByteRange(values) then EngineError
    else Packed(Blob(Some(ToBytes(values)), rows, |values| / rows, start))
  }

  /** SGLang's flat int32 answer, sliced to the delta when the engine ignored the requested start. */
  function PackFlat(values: seq<int>, promptLen: nat, completionLen: nat, prior: Option<(nat, nat)>): Packed {
    var fullRows := promptLen + completionLen - 1;
    var start := if prior.Some? then prior.value.0 else 0;
    var hint := if prior.Some? then prior.value.1 else 0;
    var rows := fullRows - start;
    var ignored := start != 0 && hint != 0 && rows > 0 && |values| == fullRows * hint && rows * hint <= |values|;
    PackRows(if ignored then values[|values| - rows * hint..] else values, rows, hint, start)
  }

  function Flatten(table: seq<seq<int>>): seq<int> {
    if table == [] then [] else table[0] + Flatten(table[1..])
  }

  /** vLLM's answer, one row per token, sliced to the delta when the engine returned the whole capture. */
  function PackTable(table: seq<seq<int>>, promptLen: nat, completionLen: nat, prior: Option<(nat, nat)>): Packed {
    var fullRows := promptLen + completionLen - 1;
    var start := if prior.Some? then prior.value.0 else 0;
    var hint := if prior.Some? then prior.value.1 else 0;
    var rows := fullRows - start;
    var used := if start != 0 && |table| == fullRows && start <= |table| then table[start..] else table;
    if rows <= 0 || used == [] || |used| != rows || (hint != 0 && |used[0]| != hint) then EngineError
    else if !IsByteRange(Flatten(used)) then EngineError
    else Packed(Blob(Some(ToBytes(Flatten(used))), rows, |used[0]|, start))
  }

  lemma {:induction false} BytesRoundTrip(bytes: seq<Byte>)
    ensures |FromBytes(bytes)| == |bytes|
    ensures forall i :: 0 <= i < |bytes| ==> FromBytes(bytes)[i] == bytes[i]
    ensures IsByteRange(FromBytes(bytes)) && ToBytes(FromBytes(bytes)) == bytes
  {
    if bytes != [] {
      BytesRoundTrip(bytes[1..]);
      assert FromBytes(bytes)[1..] == FromBytes(bytes[1..]);
    }
  }

  lemma {:induction false} FromBytesSlice(bytes: seq<Byte>, n: nat)
    requires n <= |bytes|
    ensures |FromBytes(bytes)| == |bytes|
    ensures FromBytes(bytes)[n..] == FromBytes(bytes[n..])
  {
    BytesRoundTrip(bytes);
    BytesRoundTrip(bytes[n..]);
  }

  lemma AtLeastOnce(k: int, d: int)
    requires d >= 0
    ensures k >= 1 ==> k * d >= d
    ensures k <= -1 ==> k * d <= -d
  {
    assert k * d == (k - 1) * d + d;
    assert k * d == (k + 1) * d - d;
  }

  lemma DivideProduct(q: nat, d: nat)
    requires d > 0
    ensures (q * d) / d == q && (q * d) % d == 0
  {
    var x := q * d;
    var k := x / d;
    assert x == k * d + x % d;
    assert (q - k) * d == x % d;
    AtLeastOnce(q - k, d);
  }

  lemma RowsTimesCols(rows: nat, cols: nat)
    requires rows > 0 && cols > 0
    ensures rows * cols > 0 && (rows * cols) % rows == 0 && (rows * cols) / rows == cols
  {
    DivideProduct(cols, rows);
    AtLeastOnce(rows, cols);
  }

  lemma MoreRowsMoreValues(a: nat, b: nat, cols: nat)
    requires a < b && cols > 0
    ensures a * cols < b * cols
  {
    AtLeastOnce(b - a, cols);
  }

  function HonestBlob(e: Engine, stream: seq<Token>, start: nat): Blob
    requires start < |stream|
  {
    Blob(Some(Rows(e, stream, start, |stream| - 1)), |stream| - 1 - start, e.cols, start)
  }

  function PriorOf(e: Engine, start: nat): Option<(nat, nat)> {
    if start == 0 then None else Some((start, e.cols))
  }

  lemma PackHonestRows(e: Engine, stream: seq<Token>, start: nat, hint: nat)
    requires Uniform(e) && start + 1 < |stream| && (hint == 0 || hint == e.cols)
    ensures PackRows(FromBytes(Rows(e, stream, start, |stream| - 1)), |stream| - 1 - start, hint, start)
         == Packed(HonestBlob(e, stream, start))
  {
    var bytes := Rows(e, stream, start, |stream| - 1);
    RowsLength(e, stream, start, |stream| - 1);
    BytesRoundTrip(bytes);
    RowsTimesCols(|stream| - 1 - start, e.cols);
  }

  lemma FullRangeEndsWithDelta(e: Engine, stream: seq<Token>, start: nat)
    requires Uniform(e) && start < |stream|
    ensures var full := FromBytes(Rows(e, stream, 0, |stream| - 1)); var delta := FromBytes(Rows(e, stream, start, |stream| - 1));
            && |full| == (|stream| - 1) * e.cols && |delta| == (|stream| - 1 - start) * e.cols
            && EndsWith(full, delta)
  {
    var last := |stream| - 1;
    var full := Rows(e, stream, 0, last);
    RowsLength(e, stream, start, last);
    RowsLength(e, stream, 0, last);
    RowsJoin(e, stream, 0, start, last);
    BytesRoundTrip(full);
    BytesRoundTrip(Rows(e, stream, start, last));
    FromBytesSlice(full, |Rows(e, stream, 0, start)|);
    assert full[|Rows(e, stream, 0, start)|..] == Rows(e, stream, start, last);
  }

  lemma FlatDeltaPacks(e: Engine, prompt: seq<Token>, completion: seq<Token>, start: nat)
    requires Uniform(e) && start + 1 < |prompt| + |completion|
    ensures var stream := prompt + completion;
            PackFlat(FromBytes(Rows(e, stream, start, |stream| - 1)), |prompt|, |completion|, PriorOf(e, start))
            == Packed(HonestBlob(e, stream, start))
  {
    var stream := prompt + completion;
    var last := |stream| - 1;
    RowsLength(e, stream, start, last);
    BytesRoundTrip(Rows(e, stream, start, last));
    PackHonestRows(e, stream, start, if start == 0 then 0 else e.cols);
    if start > 0 {
      MoreRowsMoreValues(last - start, last, e.cols);
    }
  }

  lemma FlatFullRangePacks(e: Engine, prompt: seq<Token>, completion: seq<Token>, start: nat)
    requires Uniform(e) && start + 1 < |prompt| + |completion|
    ensures var stream := prompt + completion;
            PackFlat(FromBytes(Rows(e, stream, 0, |stream| - 1)), |prompt|, |completion|, PriorOf(e, start))
            == Packed(HonestBlob(e, stream, start))
  {
    var stream := prompt + completion;
    FullRangeEndsWithDelta(e, stream, start);
    PackHonestRows(e, stream, start, if start == 0 then 0 else e.cols);
  }

  /**
   An honest SGLang engine that returns only the requested rows and one that returns the whole range are packed into the
   same blob: the honest answer that starts where the stored prefix ends.
   */
  lemma FlatDeltaAndFullRangePackAlike(e: Engine, prompt: seq<Token>, completion: seq<Token>, start: nat)
    requires Uniform(e) && start + 1 < |prompt| + |completion|
    ensures var stream := prompt + completion; var last := |stream| - 1;
            && PackFlat(FromBytes(Rows(e, stream, 0, last)), |prompt|, |completion|, PriorOf(e, start))
               == PackFlat(FromBytes(Rows(e, stream, start, last)), |prompt|, |completion|, PriorOf(e, start))
               == Packed(HonestBlob(e, stream, start))
            && HonestAnswer(e, HonestBlob(e, stream, start), stream)
  {
    FlatDeltaPacks(e, prompt, completion, start);
    FlatFullRangePacks(e, prompt, completion, start);
  }

  // ---- The row-per-token form -----------------------------------------------------------

  function Table(e: Engine, stream: seq<Token>, from: nat, end: nat): seq<seq<int>>
    requires from <= end <= |stream|
    decreases end - from
  {
    if from == end then [] else [FromBytes(e.select(stream[..from + 1]))] + Table(e, stream, from + 1, end)
  }

  lemma {:induction false} FromBytesConcat(a: seq<Byte>, b: seq<Byte>)
    ensures FromBytes(a + b) == FromBytes(a) + FromBytes(b)
  {
    if a == [] {
      EmptyConcat(b);
      EmptyConcat(FromBytes(b));
    } else {
      assert (a + b)[0] == a[0] && (a + b)[1..] == a[1..] + b;
      FromBytesConcat(a[1..], b);
    }
  }

  lemma {:induction false} TableRows(e: Engine, stream: seq<Token>, from: nat, end: nat)
    requires Uniform(e) && from <= end <= |stream|
    ensures |Table(e, stream, from, end)| == end - from
    ensures Flatten(Table(e, stream, from, end)) == FromBytes(Rows(e, stream, from, end))
    ensures from < end ==> |Table(e, stream, from, end)[0]| == e.cols
    decreases end - from
  {
    if from < end {
      TableRows(e, stream, from + 1, end);
      RowsJoin(e, stream, from, from + 1, end);
      assert Rows(e, stream, from, from) == [];
      EmptyConcat(e.select(stream[..from + 1]));
      FromBytesConcat(e.select(stream[..from + 1]), Rows(e, stream, from + 1, end));
      BytesRoundTrip(e.select(stream[..from + 1]));
    }
  }

  lemma {:induction false} TableTail(e: Engine, stream: seq<Token>, from: nat, start: nat, end: nat)
    requires Uniform(e) && from <= start <= end <= |stream|
    ensures |Table(e, stream, from, end)| == end - from
    ensures Table(e, stream, from, end)[start - from..] == Table(e, stream, start, end)
    decreases start - from
  {
    TableRows(e, stream, from, end);
    if from < start {
      TableTail(e, stream, from + 1, start, end);
      assert Table(e, stream, from, end)[1..] == Table(e, stream, from + 1, end);
    }
  }

  /** The same for vLLM; and both transports store the same blob for the same selections. */
  lemma TableDeltaAndFullRangePackAlike(e: Engine, prompt: seq<Token>, completion: seq<Token>, start: nat)
    requires Uniform(e) && start + 1 < |prompt| + |completion|
    ensures var stream := prompt + completion; var last := |stream| - 1;
            && PackTable(Table(e, stream, start, last), |prompt|, |completion|, PriorOf(e, start))
               == Packed(HonestBlob(e, stream, start))
            && PackTable(Table(e, stream, 0, last), |prompt|, |completion|, PriorOf(e, start))
               == Packed(HonestBlob(e, stream, start))
  {
    var stream := prompt + completion;
    var last := |stream| - 1;
    TableRows(e, stream, start, last);
    TableTail(e, stream, 0, start, last);
    BytesRoundTrip(Rows(e, stream, start, last));
  }
}
