/** Harmony messages written as structural parts are read back unchanged (proxyserver/tokenization/harmony.py). */
module HarmonyRoundTrip {
  import opened Wrappers
  import opened Text
  import opened Harmony

  /** A message to write; a recipient goes before the channel or, when `late`, after it. */
  datatype Draft = Draft(channel: string, recipient: Option<string>, late: bool, body: string)

  predicate Word(w: string) {
    w != "" && forall i :: 0 <= i < |w| ==> !IsSpace(w[i])
  }

  predicate Name(w: string) {
    Word(w) && forall i :: 0 <= i < |w| ==> w[i] != '<' && w[i] != '>'
  }

  predicate Writable(d: Draft) {
    Word(d.channel) && !StartsWith(d.channel, "to=") && (d.recipient.Some? ==> Name(d.recipient.value))
  }

  function RoleText(d: Draft): string {
    if d.recipient.Some? && !d.late then "assistant" + " " + ("to=" + d.recipient.value) else "assistant"
  }

  function ChannelText(d: Draft): string {
    if d.recipient.Some? && d.late then d.channel + " " + ("to=" + d.recipient.value) else d.channel
  }

  function BodyParts(d: Draft): seq<Part> {
    if d.body == "" then [] else [Words(d.body)]
  }

  function EndingParts(ending: Option<Marker>): seq<Part> {
    if ending.Some? then [Mark(ending.value)] else []
  }

  function WriteOne(d: Draft, ending: Option<Marker>): seq<Part> {
    [Mark(Start), Words(RoleText(d)), Mark(Channel), Words(ChannelText(d)), Mark(Body)] + BodyParts(d) + EndingParts(ending)
  }

  /** Every message but the last is closed by the end marker. */
  function Write(drafts: seq<Draft>, last: Option<Marker>): seq<Part> {
    if drafts == [] then []
    else if |drafts| == 1 then WriteOne(drafts[0], last)
    else WriteOne(drafts[0], Some(End)) + Write(drafts[1..], last)
  }

  function MessageOf(d: Draft, ending: Option<Marker>): Message {
    Message(Some(d.channel), d.recipient, d.body, ending)
  }

  function Messages(drafts: seq<Draft>, last: Option<Marker>): (r: seq<Message>)
    ensures |r| == |drafts|
  {
    seq(|drafts|, i requires 0 <= i < |drafts| => MessageOf(drafts[i], if i == |drafts| - 1 then last else Some(End)))
  }

  // ---- Header words -----------------------------------------------------------------

  lemma WordEnds(w: string, s: string, i: nat)
    requires Word(w) && i <= |w| && (s == "" || IsSpace(s[0]))
    ensures WordEnd(w + s, i) == |w|
    decreases |w| - i
  {
    if i < |w| {
      assert (w + s)[i] == w[i];
      WordEnds(w, s, i + 1);
    }
  }

  lemma SplitWord(w: string)
    requires Word(w)
    ensures Split(w) == [w]
  {
    assert w + "" == w;
    WordEnds(w, "", 0);
    assert w[..|w|] == w && w[|w|..] == "";
  }

  lemma SplitFirst(w: string, s: string)
    requires Word(w)
    ensures Split(w + " " + s) == [w] + Split(s)
  {
    var text := w + " " + s;
    assert text == w + (" " + s);
    WordEnds(w, " " + s, 0);
    assert text[0] == w[0];
    assert text[..|w|] == w && text[|w|..] == " " + s;
    assert (" " + s)[1..] == s;
  }

  lemma {:induction false} NameRuns(r: string, i: nat)
    requires Name(r) && 3 <= i <= |r| + 3
    ensures NameRun("to=" + r, i) == |r| + 3
    decreases |r| + 3 - i
  {
    var s := "to=" + r;
    if i < |s| {
      assert s[i] == r[i - 3];
      NameRuns(r, i + 1);
    }
  }

  lemma RecipientField(r: string)
    requires Name(r)
    ensures Word("to=" + r) && StartsWith("to=" + r, "to=") && RecipientOf(["to=" + r]) == Some(r)
  {
    var s := "to=" + r;
    assert s[..3] == "to=";
    NameRuns(r, 3);
    assert s[3..|r| + 3] == r;
    assert forall i :: 3 <= i < |s| ==> s[i] == r[i - 3];
  }

  lemma SkipField(field: string, fields: seq<string>)
    requires !StartsWith(field, "to=")
    ensures RecipientOf([field] + fields) == RecipientOf(fields)
  {
    assert ([field] + fields)[1..] == fields;
  }

  lemma TakeField(r: string, fields: seq<string>)
    requires Name(r)
    ensures RecipientOf(["to=" + r] + fields) == Some(r)
  {
    RecipientField(r);
    assert RecipientOf(["to=" + r]) == Some(r);
  }

  lemma AssistantField()
    ensures Word("assistant") && !StartsWith("assistant", "to=")
  {
    assert "assistant"[..3][0] == 'a';
    assert "to="[0] == 't';
  }

  lemma EarlyWords(d: Draft)
    requires Writable(d) && d.recipient.Some? && !d.late
    ensures Split(RoleText(d) + " " + ChannelText(d)) == ["assistant"] + (["to=" + d.recipient.value] + [d.channel])
  {
    var to' := "to=" + d.recipient.value;
    AssistantField();
    RecipientField(d.recipient.value);
    SplitWord(d.channel);
    SplitFirst(to', d.channel);
    SplitFirst("assistant", to' + " " + d.channel);
    assert RoleText(d) + " " + ChannelText(d) == "assistant" + " " + (to' + " " + d.channel);
  }

  lemma LateWords(d: Draft)
    requires Writable(d) && d.recipient.Some? && d.late
    ensures Split(RoleText(d) + " " + ChannelText(d)) == ["assistant"] + ([d.channel] + ["to=" + d.recipient.value])
    ensures Split(ChannelText(d)) == [d.channel] + ["to=" + d.recipient.value]
  {
    AssistantField();
    RecipientField(d.recipient.value);
    SplitWord("to=" + d.recipient.value);
    SplitFirst(d.channel, "to=" + d.recipient.value);
    SplitFirst("assistant", ChannelText(d));
  }

  lemma PlainWords(d: Draft)
    requires Writable(d) && d.recipient.None?
    ensures Split(RoleText(d) + " " + ChannelText(d)) == ["assistant"] + [d.channel]
  {
    AssistantField();
    SplitWord(d.channel);
    SplitFirst("assistant", d.channel);
  }

  /** A written header names its channel and its recipient, and the assistant. */
  lemma HeaderWords(d: Draft)
    requires Writable(d)
    ensures var fields := Split(RoleText(d) + " " + ChannelText(d));
            fields != [] && fields[0] == "assistant" && RecipientOf(fields) == d.recipient
    ensures Split(ChannelText(d)) != [] && Split(ChannelText(d))[0] == d.channel
  {
    AssistantField();
    if d.recipient.None? {
      PlainWords(d);
      SplitWord(d.channel);
      SkipField("assistant", [d.channel]);
      SkipField(d.channel, []);
      EmptyConcat([d.channel]);
    } else if d.late {
      LateWords(d);
      SkipField("assistant", [d.channel] + ["to=" + d.recipient.value]);
      SkipField(d.channel, ["to=" + d.recipient.value]);
      RecipientField(d.recipient.value);
    } else {
      EarlyWords(d);
      SplitWord(d.channel);
      SkipField("assistant", ["to=" + d.recipient.value] + [d.channel]);
      TakeField(d.recipient.value, [d.channel]);
    }
  }

  // ---- One written message ------------------------------------------------------------

  /** The parts at `pos` are this written message. */
  predicate Written(parts: seq<Part>, pos: nat, d: Draft, ending: Option<Marker>) {
    && pos + |WriteOne(d, ending)| <= |parts|
    && parts[pos..pos + |WriteOne(d, ending)|] == WriteOne(d, ending)
  }

  lemma WrittenParts(parts: seq<Part>, pos: nat, d: Draft, ending: Option<Marker>)
    requires Written(parts, pos, d, ending)
    ensures forall k :: 0 <= k < |WriteOne(d, ending)| ==> parts[pos + k] == WriteOne(d, ending)[k]
  {
    forall k | 0 <= k < |WriteOne(d, ending)| ensures parts[pos + k] == WriteOne(d, ending)[k] {
      assert parts[pos..pos + |WriteOne(d, ending)|][k] == parts[pos + k];
    }
  }

  lemma WrittenHeader(parts: seq<Part>, pos: nat, d: Draft, ending: Option<Marker>)
    requires Written(parts, pos, d, ending)
    ensures parts[pos] == Mark(Start) && parts[pos + 4] == Mark(Body)
    ensures HeaderEnd(parts, pos + 1) == pos + 4
    ensures HeaderText(parts[pos + 1..pos + 4]) == RoleText(d) + " " + ChannelText(d)
    ensures ChannelOf(parts, pos + 1, pos + 4)
         == if Split(ChannelText(d)) == [] then None else Some(Split(ChannelText(d))[0])
  {
    WrittenParts(parts, pos, d, ending);
    var w := WriteOne(d, ending);
    assert w[0] == Mark(Start) && w[1] == Words(RoleText(d)) && w[2] == Mark(Channel) && w[3] == Words(ChannelText(d)) && w[4] == Mark(Body);
    assert parts[pos + 1] == w[1] && parts[pos + 2] == w[2] && parts[pos + 3] == w[3] && parts[pos + 4] == w[4];
    var header := parts[pos + 1..pos + 4];
    assert header == [w[1], w[2], w[3]];
    HeaderOfThree(RoleText(d), ChannelText(d));
    ChannelNext(parts, pos + 1, pos + 3);
    ChannelNext(parts, pos + 1, pos + 2);
  }

  lemma HeaderAppend(parts: seq<Part>, p: Part)
    ensures HeaderText(parts + [p]) == HeaderText(parts) + if p.Words? then p.text else " "
  {
    assert (parts + [p])[..|parts|] == parts;
  }

  lemma HeaderOfThree(role: string, channel: string)
    ensures HeaderText([Words(role), Mark(Channel), Words(channel)]) == role + " " + channel
  {
    HeaderAppend([], Words(role));
    HeaderAppend([Words(role)], Mark(Channel));
    HeaderAppend([Words(role), Mark(Channel)], Words(channel));
    assert [] + [Words(role)] == [Words(role)];
    assert [Words(role)] + [Mark(Channel)] == [Words(role), Mark(Channel)];
    assert [Words(role), Mark(Channel)] + [Words(channel)] == [Words(role), Mark(Channel), Words(channel)];
    EmptyConcat(role);
  }

  lemma WrittenBody(parts: seq<Part>, pos: nat, d: Draft, ending: Option<Marker>)
    requires Written(parts, pos, d, ending)
    requires ending.Some? ==> Boundary(Mark(ending.value))
    requires ending.None? ==> pos + |WriteOne(d, ending)| == |parts|
    ensures BodyEnd(parts, pos + 5) == pos + 5 + |BodyParts(d)|
    ensures BodyText(parts[pos + 5..pos + 5 + |BodyParts(d)|]) == d.body
    ensures ending.Some? ==> parts[pos + 5 + |BodyParts(d)|] == Mark(ending.value)
  {
    WrittenParts(parts, pos, d, ending);
    var w := WriteOne(d, ending);
    var end := pos + 5 + |BodyParts(d)|;
    assert ending.Some? ==> w[5 + |BodyParts(d)|] == Mark(ending.value) && parts[end] == w[5 + |BodyParts(d)|];
    if d.body != "" {
      assert w[5] == Words(d.body) && parts[pos + 5] == w[5];
      assert parts[pos + 5..pos + 6] == [Words(d.body)];
      assert [Words(d.body)][..0] == [];
    }
  }

  predicate Ending(ending: Option<Marker>) {
    ending.Some? ==> ending.value == End || Action(ending.value)
  }

  lemma StepIs(parts: seq<Part>, pos: nat, n: nat, end: nat)
    requires pos < n < end <= |parts| && HeaderEnd(parts, pos + 1) == n && parts[n] == Mark(Body)
    requires FromAssistant(parts, pos + 1, n) && BodyEnd(parts, n + 1) == end
    requires end < |parts| ==> parts[end].Mark? && (Action(parts[end].marker) || parts[end] == Mark(End))
    ensures StepAt(parts, pos)
         == if end < |parts| && parts[end] == Mark(End) then Next(MessageAt(parts, pos + 1, n), end + 1)
            else Last(MessageAt(parts, pos + 1, n))
  {
  }

  lemma MessageIs(parts: seq<Part>, pos: nat, n: nat, d: Draft, ending: Option<Marker>)
    requires pos <= n < |parts| && Writable(d) && Ending(ending)
    requires HeaderText(parts[pos..n]) == RoleText(d) + " " + ChannelText(d)
    requires ChannelOf(parts, pos, n) == if Split(ChannelText(d)) == [] then None else Some(Split(ChannelText(d))[0])
    requires BodyText(parts[n + 1..BodyEnd(parts, n + 1)]) == d.body
    requires BodyEnd(parts, n + 1) < |parts| <==> ending.Some?
    requires ending.Some? ==> parts[BodyEnd(parts, n + 1)] == Mark(ending.value)
    ensures FromAssistant(parts, pos, n) && MessageAt(parts, pos, n) == MessageOf(d, ending)
  {
    HeaderWords(d);
  }

  /** The reader takes exactly the written message, and goes on behind its end marker. */
  lemma WrittenIsRead(parts: seq<Part>, pos: nat, d: Draft, ending: Option<Marker>)
    requires Writable(d) && Ending(ending) && Written(parts, pos, d, ending)
    requires ending.None? ==> pos + |WriteOne(d, ending)| == |parts|
    ensures parts[pos] == Mark(Start)
    ensures StepAt(parts, pos) == if ending == Some(End) then Next(MessageOf(d, ending), pos + |WriteOne(d, ending)|)
                                  else Last(MessageOf(d, ending))
  {
    WrittenHeader(parts, pos, d, ending);
    WrittenBody(parts, pos, d, ending);
    MessageIs(parts, pos + 1, pos + 4, d, ending);
    StepIs(parts, pos, pos + 4, pos + 5 + |BodyParts(d)|);
  }

  // ---- Any list of messages ------------------------------------------------------------

  ghost predicate AllWritable(drafts: seq<Draft>) {
    forall i :: 0 <= i < |drafts| ==> Writable(drafts[i])
  }

  lemma PlacedOne(u: seq<Part>, d: Draft, ending: Option<Marker>, rest: seq<Part>)
    ensures Written(u + WriteOne(d, ending) + rest, |u|, d, ending)
  {
  }

  lemma ReadNext(parts: seq<Part>, pos: nat, message: Message, next: nat, before: seq<Message>)
    requires pos < |parts| && parts[pos] == Mark(Start) && StepAt(parts, pos) == Next(message, next)
    ensures ReadFrom(parts, pos, before) == ReadFrom(parts, next, before + [message])
  {
  }

  lemma ReadLast(parts: seq<Part>, pos: nat, message: Message, before: seq<Message>)
    requires pos < |parts| && parts[pos] == Mark(Start)
    requires StepAt(parts, pos) == Last(message) || StepAt(parts, pos) == Next(message, |parts|)
    ensures ReadFrom(parts, pos, before) == before + [message]
  {
  }

  lemma LastRead(parts: seq<Part>, u: seq<Part>, d: Draft, ending: Option<Marker>, before: seq<Message>)
    requires Writable(d) && Ending(ending) && parts == u + WriteOne(d, ending)
    ensures ReadFrom(parts, |u|, before) == before + [MessageOf(d, ending)]
  {
    EmptyConcat(parts);
    PlacedOne(u, d, ending, []);
    WrittenIsRead(parts, |u|, d, ending);
    ReadLast(parts, |u|, MessageOf(d, ending), before);
  }

  lemma OneRead(parts: seq<Part>, u: seq<Part>, d: Draft, rest: seq<Part>, before: seq<Message>) returns (u': seq<Part>)
    requires Writable(d) && parts == u + WriteOne(d, Some(End)) + rest
    ensures parts == u' + rest
    ensures ReadFrom(parts, |u|, before) == ReadFrom(parts, |u'|, before + [MessageOf(d, Some(End))])
  {
    PlacedOne(u, d, Some(End), rest);
    WrittenIsRead(parts, |u|, d, Some(End));
    u' := u + WriteOne(d, Some(End));
    ReadNext(parts, |u|, MessageOf(d, Some(End)), |u'|, before);
  }

  lemma MessagesFirst(drafts: seq<Draft>, last: Option<Marker>, before: seq<Message>)
    requires |drafts| > 1
    ensures before + [MessageOf(drafts[0], Some(End))] + Messages(drafts[1..], last) == before + Messages(drafts, last)
  {
    assert Messages(drafts, last) == [MessageOf(drafts[0], Some(End))] + Messages(drafts[1..], last);
  }

  lemma RestWritable(drafts: seq<Draft>)
    requires AllWritable(drafts) && drafts != []
    ensures AllWritable(drafts[1..])
  {
    assert forall i :: 0 <= i < |drafts[1..]| ==> drafts[1..][i] == drafts[i + 1];
  }

  lemma WriteFirst(u: seq<Part>, drafts: seq<Draft>, last: Option<Marker>)
    requires |drafts| > 1
    ensures u + Write(drafts, last) == u + WriteOne(drafts[0], Some(End)) + Write(drafts[1..], last)
  {
  }

  lemma {:induction false} AllRead(parts: seq<Part>, u: seq<Part>, drafts: seq<Draft>, last: Option<Marker>, before: seq<Message>)
    requires drafts != [] && AllWritable(drafts) && Ending(last) && parts == u + Write(drafts, last)
    ensures ReadFrom(parts, |u|, before) == before + Messages(drafts, last)
    decreases |drafts|
  {
    if |drafts| == 1 {
      LastRead(parts, u, drafts[0], last, before);
      assert Messages(drafts, last) == [MessageOf(drafts[0], last)];
    } else {
      RestWritable(drafts);
      WriteFirst(u, drafts, last);
      var u' := OneRead(parts, u, drafts[0], Write(drafts[1..], last), before);
      AllRead(parts, u', drafts[1..], last, before + [MessageOf(drafts[0], Some(End))]);
      MessagesFirst(drafts, last, before);
    }
  }

  lemma WriteStarts(drafts: seq<Draft>, last: Option<Marker>)
    requires drafts != []
    ensures Write(drafts, last) != [] && Write(drafts, last)[0] == Mark(Start)
    ensures Write(drafts, last)[1] == Words(RoleText(drafts[0])) && Write(drafts, last)[2] == Mark(Channel)
  {
  }

  /** Reading any written list of messages gives back the list: channels, recipients, bodies and endings. */
  lemma WrittenMessagesRoundTrip(drafts: seq<Draft>, last: Option<Marker>)
    requires drafts != [] && AllWritable(drafts) && Ending(last)
    ensures Read(Write(drafts, last)) == Messages(drafts, last)
  {
    WriteStarts(drafts, last);
    EmptyConcat(Write(drafts, last));
    EmptyConcat(Messages(drafts, last));
    AllRead(Write(drafts, last), [], drafts, last, []);
  }

  /** A completion sampled behind a prompt that already opened the header reads the same. */
  lemma SampledMessagesRoundTrip(drafts: seq<Draft>, last: Option<Marker>)
    requires drafts != [] && AllWritable(drafts) && Ending(last) && RoleText(drafts[0]) == "assistant"
    ensures |Write(drafts, last)| > 2 && Read(Write(drafts, last)[2..]) == Messages(drafts, last)
  {
    WrittenMessagesRoundTrip(drafts, last);
    WriteStarts(drafts, last);
    var all := Write(drafts, last);
    assert [Mark(Start), Words("assistant")] + all[2..] == all;
  }

  // ---- Interrupted headers ------------------------------------------------------------------

  function Cut(header: seq<Part>, boundary: Part, rest: seq<Part>): seq<Part> {
    [Mark(Start)] + header + [boundary] + rest
  }

  lemma InterruptedStops(parts: seq<Part>, u: seq<Part>, header: seq<Part>, boundary: Part, rest: seq<Part>)
    requires parts == u + Cut(header, boundary, rest) && Boundary(boundary)
    requires forall k :: 0 <= k < |header| ==> header[k] != Mark(Body) && !Boundary(header[k])
    ensures |u| < |parts| && StepAt(parts, |u|) == Stop
  {
    var n := |u| + 1 + |header|;
    assert parts[n] == boundary;
    forall k | |u| + 1 <= k < n ensures parts[k] != Mark(Body) && !Boundary(parts[k]) {
      assert parts[k] == header[k - |u| - 1];
    }
    var end := HeaderEnd(parts, |u| + 1);
    assert end == n;
  }

  lemma StopRead(parts: seq<Part>, pos: nat, before: seq<Message>)
    requires pos < |parts| && StepAt(parts, pos) == Stop
    ensures ReadFrom(parts, pos, before) == before
  {
  }

  /** A header a boundary marker interrupts yields no message and ends the reading, whatever follows. */
  lemma InterruptedHeaderEndsReading(drafts: seq<Draft>, header: seq<Part>, boundary: Part, rest: seq<Part>)
    requires AllWritable(drafts) && Boundary(boundary)
    requires forall k :: 0 <= k < |header| ==> header[k] != Mark(Body) && !Boundary(header[k])
    ensures Read(Write(drafts, Some(End)) + Cut(header, boundary, rest)) == Messages(drafts, Some(End))
  {
    var parts := Write(drafts, Some(End)) + Cut(header, boundary, rest);
    StartsWithStart(drafts, Cut(header, boundary, rest));
    var u := ClosedRead(parts, [], drafts, Cut(header, boundary, rest), []);
    InterruptedStops(parts, u, header, boundary, rest);
    StopRead(parts, |u|, [] + Messages(drafts, Some(End)));
    EmptyConcat(Messages(drafts, Some(End)));
  }

  lemma StartsWithStart(drafts: seq<Draft>, rest: seq<Part>)
    requires rest != [] && rest[0] == Mark(Start)
    ensures Completed(Write(drafts, Some(End)) + rest) == Write(drafts, Some(End)) + rest
    ensures [] + Write(drafts, Some(End)) + rest == Write(drafts, Some(End)) + rest
  {
    if drafts != [] {
      WriteStarts(drafts, Some(End));
    }
  }

  lemma ClosedSplit(parts: seq<Part>, u: seq<Part>, drafts: seq<Draft>, rest: seq<Part>)
    requires drafts != [] && parts == u + Write(drafts, Some(End)) + rest
    ensures parts == u + WriteOne(drafts[0], Some(End)) + (Write(drafts[1..], Some(End)) + rest)
  {
    ClosedFirst(drafts, rest);
  }

  lemma Associate(u: seq<Part>, a: seq<Part>, b: seq<Part>)
    ensures u + (a + b) == u + a + b
  {
  }

  /** Reading goes on behind closed messages with what they say. */
  lemma {:induction false} ClosedRead(parts: seq<Part>, u: seq<Part>, drafts: seq<Draft>, rest: seq<Part>, before: seq<Message>)
    returns (u': seq<Part>)
    requires AllWritable(drafts) && parts == u + Write(drafts, Some(End)) + rest
    ensures parts == u' + rest
    ensures ReadFrom(parts, |u|, before) == ReadFrom(parts, |u'|, before + Messages(drafts, Some(End)))
    decreases |drafts|
  {
    if drafts == [] {
      EmptyConcat(before);
      EmptyConcat(u);
      u' := u;
    } else {
      RestWritable(drafts);
      ClosedSplit(parts, u, drafts, rest);
      var next := OneRead(parts, u, drafts[0], Write(drafts[1..], Some(End)) + rest, before);
      Associate(next, Write(drafts[1..], Some(End)), rest);
      u' := ClosedRead(parts, next, drafts[1..], rest, before + [MessageOf(drafts[0], Some(End))]);
      ClosedMessages(drafts, before);
    }
  }

  lemma ClosedFirst(drafts: seq<Draft>, rest: seq<Part>)
    requires drafts != []
    ensures Write(drafts, Some(End)) == WriteOne(drafts[0], Some(End)) + Write(drafts[1..], Some(End))
  {
    if |drafts| == 1 {
      EmptyConcat(WriteOne(drafts[0], Some(End)));
    }
  }

  lemma ClosedMessages(drafts: seq<Draft>, before: seq<Message>)
    requires drafts != []
    ensures before + [MessageOf(drafts[0], Some(End))] + Messages(drafts[1..], Some(End)) == before + Messages(drafts, Some(End))
  {
    assert Messages(drafts, Some(End)) == [MessageOf(drafts[0], Some(End))] + Messages(drafts[1..], Some(End));
  }
}
