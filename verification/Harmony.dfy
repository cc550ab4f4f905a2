/**
 Reading Harmony assistant messages from structural parts (proxyserver/tokenization/harmony.py), and the round trip
 with writing them.
 */
module Harmony {
  import opened Wrappers
  import opened Text

  datatype Marker = Start | End | Body | Channel | Constrain | Return | Call | EndOfText

  /** Decoded text between structural markers, or a marker. */
  datatype Part = Words(text: string) | Mark(marker: Marker)

  datatype Message = Message(channel: Option<string>, recipient: Option<string>, body: string, ending: Option<Marker>)

  predicate Boundary(p: Part) {
    p.Mark? && (p.marker.Start? || p.marker.End? || p.marker.Return? || p.marker.Call? || p.marker.EndOfText?)
  }

  predicate Action(m: Marker) {
    m.Return? || m.Call? || m.EndOfText?
  }

  function Spelling(m: Marker): string {
    match m
    case Start => "<|start|>"
    case End => "<|end|>"
    case Body => "<|message|>"
    case Channel => "<|channel|>"
    case Constrain => "<|constrain|>"
    case Return => "<|return|>"
    case Call => "<|call|>"
    case EndOfText => "<|endoftext|>"
  }

  // ---- Words of a header --------------------------------------------------------

  function WordEnd(s: string, i: nat): (n: nat)
    requires i <= |s|
    ensures i <= n <= |s| && (forall k :: i <= k < n ==> !IsSpace(s[k])) && (n < |s| ==> IsSpace(s[n]))
    decreases |s| - i
  {
    if i < |s| && !IsSpace(s[i]) then WordEnd(s, i + 1) else i
  }

  /** The whitespace-separated words, as str.split() gives them. */
  function Split(s: string): seq<string> {
    if s == "" then []
    else if IsSpace(s[0]) then Split(s[1..])
    else [s[..WordEnd(s, 0)]] + Split(s[WordEnd(s, 0)..])
  }

  function NameRun(s: string, i: nat): (n: nat)
    requires i <= |s|
    ensures i <= n <= |s|
    decreases |s| - i
  {
    if i < |s| && s[i] != '<' && s[i] != '>' then NameRun(s, i + 1) else i
  }

  /** The name after "to=" in the first field that has one. */
  function RecipientOf(fields: seq<string>): Option<string> {
    if fields == [] then None
    else if StartsWith(fields[0], "to=") && NameRun(fields[0], 3) > 3 then Some(fields[0][3..NameRun(fields[0], 3)])
    else RecipientOf(fields[1..])
  }

  // ---- What the parts say ---------------------------------------------------------

  /** The first part from here on that ends a header: the body marker, or a boundary that interrupts it. */
  function HeaderEnd(parts: seq<Part>, pos: nat): (n: nat)
    requires pos <= |parts|
    ensures pos <= n <= |parts|
    ensures forall k :: pos <= k < n ==> parts[k] != Mark(Body) && !Boundary(parts[k])
    ensures n < |parts| ==> parts[n] == Mark(Body) || Boundary(parts[n])
    decreases |parts| - pos
  {
    if pos < |parts| && parts[pos] != Mark(Body) && !Boundary(parts[pos]) then HeaderEnd(parts, pos + 1) else pos
  }

  function BodyEnd(parts: seq<Part>, pos: nat): (n: nat)
    requires pos <= |parts|
    ensures pos <= n <= |parts|
    ensures forall k :: pos <= k < n ==> !Boundary(parts[k])
    ensures n < |parts| ==> Boundary(parts[n])
    decreases |parts| - pos
  {
    if pos < |parts| && !Boundary(parts[pos]) then BodyEnd(parts, pos + 1) else pos
  }

  /** Header text, with a space for each marker in it. */
  function HeaderText(parts: seq<Part>): string {
    if parts == [] then ""
    else HeaderText(parts[..|parts| - 1]) + if parts[|parts| - 1].Words? then parts[|parts| - 1].text else " "
  }

  function BodyText(parts: seq<Part>): string {
    if parts == [] then ""
    else
      BodyText(parts[..|parts| - 1])
        + if parts[|parts| - 1].Words? then parts[|parts| - 1].text else Spelling(parts[|parts| - 1].marker)
  }

  /** The first word after the last channel marker that text follows. */
  function ChannelOf(parts: seq<Part>, pos: nat, n: nat): Option<string>
    requires pos <= n <= |parts|
    decreases n - pos
  {
    if pos == n then None
    else if parts[n - 1] == Mark(Channel) && n < |parts| && parts[n].Words? then
      if Split(parts[n].text) == [] then None else Some(Split(parts[n].text)[0])
    else ChannelOf(parts, pos, n - 1)
  }

  /** The message whose header starts at `pos` and whose body marker stands at `n`. */
  function MessageAt(parts: seq<Part>, pos: nat, n: nat): Message
    requires pos <= n < |parts|
  {
    var end := BodyEnd(parts, n + 1);
    Message(ChannelOf(parts, pos, n), RecipientOf(Split(HeaderText(parts[pos..n]))), BodyText(parts[n + 1..end]),
            if end < |parts| && parts[end] != Mark(Start) && parts[end].Mark? then Some(parts[end].marker) else None)
  }

  predicate FromAssistant(parts: seq<Part>, pos: nat, n: nat)
    requires pos <= n <= |parts|
  {
    var fields := Split(HeaderText(parts[pos..n]));
    fields != [] && fields[0] == "assistant"
  }

  /** One message: none, the last one, or one after which reading goes on. */
  datatype Step = Stop | Last(message: Message) | Next(message: Message, pos: nat)

  function StepAt(parts: seq<Part>, pos: nat): (r: Step)
    requires pos < |parts|
    ensures r.Next? ==> pos < r.pos <= |parts|
  {
    var n := HeaderEnd(parts, pos + 1);
    if n == |parts| || Boundary(parts[n]) || !FromAssistant(parts, pos + 1, n) then Stop
    else
      var message := MessageAt(parts, pos + 1, n);
      var end := BodyEnd(parts, n + 1);
      if end == |parts| || (parts[end].Mark? && Action(parts[end].marker)) then Last(message)
      else if parts[end] == Mark(Start) then Next(message, end)
      else Next(message, end + 1)
  }

  /** The messages from here on, after those already read. */
  function ReadFrom(parts: seq<Part>, pos: nat, before: seq<Message>): seq<Message>
    requires pos <= |parts|
    decreases |parts| - pos
  {
    if pos == |parts| || parts[pos] != Mark(Start) then before
    else
      match StepAt(parts, pos)
      case Stop => before
      case Last(message) => before + [message]
      case Next(message, next) => ReadFrom(parts, next, before + [message])
  }

  /** Sampled tokens finish a header the prompt started. */
  function Completed(parts: seq<Part>): seq<Part> {
    if parts == [] || parts[0] != Mark(Start) then [Mark(Start), Words("assistant")] + parts else parts
  }

  function Read(parts: seq<Part>): seq<Message> {
    ReadFrom(Completed(parts), 0, [])
  }

  // ---- The reader -------------------------------------------------------------------

  lemma ChannelNext(parts: seq<Part>, from: nat, pos: nat)
    requires from <= pos < |parts|
    ensures ChannelOf(parts, from, pos + 1)
         == if parts[pos] == Mark(Channel) && pos + 1 < |parts| && parts[pos + 1].Words?
            then (if Split(parts[pos + 1].text) == [] then None else Some(Split(parts[pos + 1].text)[0]))
            else ChannelOf(parts, from, pos)
  {
  }

  lemma SliceNext(parts: seq<Part>, from: nat, pos: nat)
    requires from <= pos < |parts|
    ensures parts[from..pos + 1][..pos - from] == parts[from..pos]
    ensures parts[from..pos + 1][pos - from] == parts[pos]
  {
  }

  /** Reads a header up to the body marker; none when it ends or is interrupted first. */
  method ReadHeader(parts: seq<Part>, from: nat) returns (end: nat, header: string, channel: Option<string>, interrupted: bool)
    requires from <= |parts|
    ensures end == HeaderEnd(parts, from)
    ensures interrupted <==> end < |parts| && Boundary(parts[end])
    ensures header == HeaderText(parts[from..end]) && channel == ChannelOf(parts, from, end)
  {
    end, header, channel, interrupted := from, "", None, false;
    while end < |parts| && parts[end] != Mark(Body)
      invariant from <= end <= |parts|
      invariant HeaderEnd(parts, end) == HeaderEnd(parts, from)
      invariant header == HeaderText(parts[from..end])
      invariant channel == ChannelOf(parts, from, end)
    {
      var part := parts[end];
      SliceNext(parts, from, end);
      ChannelNext(parts, from, end);
      if part.Mark? {
        if Boundary(part) {
          interrupted := true;
          return;
        }
        header := header + " ";
        if part == Mark(Channel) && end + 1 < |parts| && parts[end + 1].Words? {
          var fields := Split(parts[end + 1].text);
          channel := if fields == [] then None else Some(fields[0]);
        }
      } else {
        header := header + part.text;
      }
      end := end + 1;
    }
  }

  lemma BodyAppend(parts: seq<Part>, p: Part, longer: seq<Part>)
    requires longer == parts + [p]
    ensures BodyText(longer) == BodyText(parts) + if p.Words? then p.text else Spelling(p.marker)
  {
    assert longer[..|longer| - 1] == parts;
  }

  lemma BodyNext(parts: seq<Part>, from: nat, end: nat, next: nat)
    requires from <= end < |parts| && next == end + 1
    ensures BodyText(parts[from..next])
         == BodyText(parts[from..end]) + if parts[end].Words? then parts[end].text else Spelling(parts[end].marker)
  {
    SliceOneMore(parts, from, end, next);
    BodyAppend(parts[from..end], parts[end], parts[from..next]);
  }

  lemma BodyGoesOn(parts: seq<Part>, end: nat, next: nat)
    requires end < |parts| && !Boundary(parts[end]) && next == end + 1
    ensures BodyEnd(parts, next) == BodyEnd(parts, end)
  {
  }

  method ReadBody(parts: seq<Part>, from: nat) returns (end: nat, body: string)
    requires from <= |parts|
    ensures end == BodyEnd(parts, from) && body == BodyText(parts[from..end])
  {
    end, body := from, "";
    while end < |parts| && !Boundary(parts[end])
      invariant from <= end <= |parts|
      invariant BodyEnd(parts, end) == BodyEnd(parts, from)
      invariant body == BodyText(parts[from..end])
    {
      var next := end + 1;
      BodyNext(parts, from, end, next);
      BodyGoesOn(parts, end, next);
      body := body + if parts[end].Mark? then Spelling(parts[end].marker) else parts[end].text;
      end := next;
    }
  }

  lemma StepStops(parts: seq<Part>, pos: nat, n: nat, header: string)
    requires pos < |parts| && n == HeaderEnd(parts, pos + 1)
    requires n < |parts| && !Boundary(parts[n]) ==> header == HeaderText(parts[pos + 1..n])
    requires n == |parts| || Boundary(parts[n]) || Split(header) == [] || Split(header)[0] != "assistant"
    ensures StepAt(parts, pos) == Stop
  {
  }

  lemma StepReads(parts: seq<Part>, pos: nat, n: nat, header: string, end: nat, message: Message)
    requires pos < n < |parts| && n == HeaderEnd(parts, pos + 1) && !Boundary(parts[n])
    requires header == HeaderText(parts[pos + 1..n]) && Split(header) != [] && Split(header)[0] == "assistant"
    requires message == MessageAt(parts, pos + 1, n) && end == BodyEnd(parts, n + 1)
    ensures StepAt(parts, pos)
         == if end == |parts| || (parts[end].Mark? && Action(parts[end].marker)) then Last(message)
            else Next(message, if parts[end] == Mark(Start) then end else end + 1)
  {
  }

  method ReadMessage(parts: seq<Part>, pos: nat) returns (step: Step)
    requires pos < |parts|
    ensures step == StepAt(parts, pos)
  {
    var n, header, channel, interrupted := ReadHeader(parts, pos + 1);
    if interrupted || n == |parts| {
      StepStops(parts, pos, n, header);
      return Stop;
    }
    var fields := Split(header);
    if fields == [] || fields[0] != "assistant" {
      StepStops(parts, pos, n, header);
      return Stop;
    }
    var end, body := ReadBody(parts, n + 1);
    var ending := if end < |parts| && parts[end] != Mark(Start) && parts[end].Mark? then Some(parts[end].marker) else None;
    var message := Message(channel, RecipientOf(fields), body, ending);
    StepReads(parts, pos, n, header, end, message);
    if end == |parts| || (parts[end].Mark? && Action(parts[end].marker)) {
      return Last(message);
    }
    step := Next(message, if parts[end] == Mark(Start) then end else end + 1);
  }

  method AssistantMessages(given: seq<Part>) returns (messages: seq<Message>)
    ensures messages == Read(given)
  {
    var parts := if given == [] || given[0] != Mark(Start) then [Mark(Start), Words("assistant")] + given else given;
    messages := [];
    var pos := 0;
    while pos < |parts| && parts[pos] == Mark(Start)
      invariant pos <= |parts| && parts == Completed(given)
      invariant ReadFrom(parts, pos, messages) == ReadFrom(parts, 0, [])
      decreases |parts| - pos
    {
      var step := ReadMessage(parts, pos);
      match step
      case Stop => return;
      case Last(message) =>
        messages := messages + [message];
        return;
      case Next(message, next) =>
        messages := messages + [message];
        pos := next;
    }
  }

  // ---- From sampled tokens to parts -----------------------------------------------------

  /** Structural markers by token id; ordinary tokens that decode to the same spelling are not markers. */
  function MarkerOf(id: nat): Option<Marker> {
    match id
    case 200006 => Some(Start)
    case 200007 => Some(End)
    case 200008 => Some(Body)
    case 200005 => Some(Channel)
    case 200003 => Some(Constrain)
    case 200002 => Some(Return)
    case 200012 => Some(Call)
    case 199999 => Some(EndOfText)
    case _ => None
  }

  /** A stretch of tokens decoded together, or one marker token. */
  datatype Piece = Plain(ids: seq<nat>) | Special(id: nat)

  function Ids(p: Piece): seq<nat> {
    match p
    case Plain(ids) => ids
    case Special(id) => [id]
  }

  function Flat(pieces: seq<Piece>): seq<nat> {
    if pieces == [] then [] else Flat(pieces[..|pieces| - 1]) + Ids(pieces[|pieces| - 1])
  }

  predicate Markerless(ids: seq<nat>) {
    forall i :: 0 <= i < |ids| ==> MarkerOf(ids[i]).None?
  }

  predicate PieceOk(p: Piece) {
    match p
    case Plain(ids) => ids != [] && Markerless(ids)
    case Special(id) => MarkerOf(id).Some?
  }

  /** Stretches are as long as they can be. */
  predicate Maximal(pieces: seq<Piece>) {
    && (forall k :: 0 <= k < |pieces| ==> PieceOk(pieces[k]))
    && (forall j, k :: 0 <= j < |pieces| && 0 <= k < |pieces| && k == j + 1 && pieces[j].Plain? ==> pieces[k].Special?)
  }

  function PartOf(p: Piece, decode: seq<nat> -> string): Part {
    match p
    case Plain(ids) => Words(decode(ids))
    case Special(id) => if MarkerOf(id).Some? then Mark(MarkerOf(id).value) else Words(decode([id]))
  }

  function PartsOf(pieces: seq<Piece>, decode: seq<nat> -> string): (r: seq<Part>)
    ensures |r| == |pieces| && forall k :: 0 <= k < |r| ==> r[k] == PartOf(pieces[k], decode)
  {
    seq(|pieces|, k requires 0 <= k < |pieces| => PartOf(pieces[k], decode))
  }

  lemma FlatAppend(pieces: seq<Piece>, p: Piece)
    ensures Flat(pieces + [p]) == Flat(pieces) + Ids(p)
  {
    assert (pieces + [p])[..|pieces|] == pieces;
  }

  lemma PartsAppend(pieces: seq<Piece>, p: Piece, decode: seq<nat> -> string)
    ensures PartsOf(pieces + [p], decode) == PartsOf(pieces, decode) + [PartOf(p, decode)]
  {
    var longer := pieces + [p];
    var parts := PartsOf(longer, decode);
    forall k | 0 <= k < |pieces| ensures parts[k] == PartsOf(pieces, decode)[k] {
      assert longer[k] == pieces[k];
    }
  }

  lemma MaximalAppend(pieces: seq<Piece>, p: Piece)
    requires Maximal(pieces) && PieceOk(p) && (pieces != [] && pieces[|pieces| - 1].Plain? ==> p.Special?)
    ensures Maximal(pieces + [p])
  {
  }

  lemma Slices(tokens: seq<nat>, start: nat, pos: nat)
    requires start <= pos <= |tokens|
    ensures tokens[..start] + tokens[start..pos] == tokens[..pos]
    ensures pos < |tokens| ==> tokens[..pos] + [tokens[pos]] == tokens[..pos + 1]
    ensures pos < |tokens| ==> tokens[start..pos + 1] == tokens[start..pos] + [tokens[pos]]
  {
  }

  /** The first `start` tokens are in pieces, and the pieces are read as parts. */
  ghost predicate Cut(tokens: seq<nat>, start: nat, pieces: seq<Piece>, parts: seq<Part>, decode: seq<nat> -> string) {
    start <= |tokens| && Flat(pieces) == tokens[..start] && Maximal(pieces) && parts == PartsOf(pieces, decode)
  }

  lemma CutNext(tokens: seq<nat>, start: nat, end: nat, pieces: seq<Piece>, parts: seq<Part>, decode: seq<nat> -> string, p: Piece)
    requires Cut(tokens, start, pieces, parts, decode) && start <= end <= |tokens| && tokens[start..end] == Ids(p)
    requires PieceOk(p) && (pieces != [] && pieces[|pieces| - 1].Plain? ==> p.Special?)
    ensures Cut(tokens, end, pieces + [p], parts + [PartOf(p, decode)], decode)
  {
    Slices(tokens, start, end);
    FlatAppend(pieces, p);
    PartsAppend(pieces, p, decode);
    MaximalAppend(pieces, p);
  }

  /** Decodes the tokens since the last marker, if there are any. */
  method Decode(tokens: seq<nat>, start: nat, end: nat, parts: seq<Part>, decode: seq<nat> -> string, ghost pieces: seq<Piece>)
    returns (parts': seq<Part>, ghost pieces': seq<Piece>)
    requires Cut(tokens, start, pieces, parts, decode) && start <= end <= |tokens| && Markerless(tokens[start..end])
    requires pieces != [] ==> pieces[|pieces| - 1].Special?
    ensures Cut(tokens, end, pieces', parts', decode)
  {
    parts', pieces' := parts, pieces;
    if end > start {
      CutNext(tokens, start, end, pieces, parts, decode, Plain(tokens[start..end]));
      parts' := parts + [Words(decode(tokens[start..end]))];
      pieces' := pieces + [Plain(tokens[start..end])];
    }
  }

  /** Text is decoded only between marker tokens, and every sampled token is in exactly one part. */
  method PartsFromTokens(tokens: seq<nat>, decode: seq<nat> -> string) returns (parts: seq<Part>, ghost pieces: seq<Piece>)
    ensures Flat(pieces) == tokens && Maximal(pieces) && parts == PartsOf(pieces, decode)
  {
    parts, pieces := [], [];
    var start: nat := 0;
    for pos := 0 to |tokens|
      invariant start <= pos && Cut(tokens, start, pieces, parts, decode)
      invariant pieces != [] ==> pieces[|pieces| - 1].Special?
      invariant Markerless(tokens[start..pos])
    {
      var marker := MarkerOf(tokens[pos]);
      if marker.Some? {
        parts, pieces := Decode(tokens, start, pos, parts, decode, pieces);
        assert tokens[pos..pos + 1] == [tokens[pos]];
        CutNext(tokens, pos, pos + 1, pieces, parts, decode, Special(tokens[pos]));
        parts := parts + [Mark(marker.value)];
        pieces := pieces + [Special(tokens[pos])];
        start := pos + 1;
      } else {
        Slices(tokens, start, pos);
      }
    }
    parts, pieces := Decode(tokens, start, |tokens|, parts, decode, pieces);
    assert tokens[..|tokens|] == tokens;
  }
}
