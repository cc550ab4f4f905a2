/**
 Routed-experts captures: the rows of expert selections an engine reports for a
 stream, and how the recorder folds them into one stored prefix per agent
 (proxyserver/recorder.py, proxyserver/rollout_sessions.py).
 */
module Capture {
  import opened Wrappers

  type Byte = n: nat | n < 256

  /** `data` is the decoded payload; None is a payload base64 cannot decode. */
  datatype Blob = Blob(data: Option<seq<Byte>>, rows: int, cols: int, start: int)

  /** A blob as delivered with a turn; None is one whose shape validation refuses. */
  type WireBlob = Option<Blob>

  /** The capture stored after one turn's blob: appended, superseding, or dropped. */
  function Merge(stored: Option<Blob>, wire: WireBlob): Option<Blob> {
    match wire
    case None => stored
    case Some(b) =>
      if b.start != 0 && stored.Some? && b.start == stored.value.rows && b.cols == stored.value.cols then
        if stored.value.data.Some? && b.data.Some? then
          Some(Blob(Some(stored.value.data.value + b.data.value), stored.value.rows + b.rows, stored.value.cols, 0))
        else
          stored
      else if b.start == 0 && (stored.None? || b.rows >= stored.value.rows) then
        Some(b)
      else
        stored
  }
}
