/** Chat messages and their normalization (proxyserver/token_stream.py). */
module Messages {
  import opened Wrappers

  /** A token id; engines that report anything else are refused before a turn is committed. */
  type Token = nat

  datatype Role = System | Developer | User | Assistant | Tool | Unsupported(name: string)

  /** One entry of a multi-part content list; everything that is not text is refused. */
  datatype Part = TextPart(text: string) | OtherPart

  /** `Malformed` is a content value that is neither text, nor a list, nor null. */
  datatype Content = Absent | Null | Text(text: string) | Parts(parts: seq<Part>) | Malformed

  /** `extra` stands for the remaining keys of the message object. */
  datatype Message = Message(role: Role, content: Content, hasToolCalls: bool, extra: string)

  /** What two messages must share to be the same turn: the role and the text. */
  datatype Gist = Gist(role: Role, text: Option<string>)

  // ---- Normalization -----------------------------------------------------

  predicate AllText(parts: seq<Part>) {
    forall i :: 0 <= i < |parts| ==> parts[i].TextPart?
  }

  /** The text parts joined by newlines. */
  function JoinParts(parts: seq<Part>): string
    requires AllText(parts)
  {
    if |parts| == 0 then ""
    else if |parts| == 1 then parts[0].text
    else parts[0].text + "\n" + JoinParts(parts[1..])
  }

  function NormalizeMessage(m: Message): Option<Message> {
    if m.role.Unsupported? || m.content.Malformed? then None
    else if m.content.Parts? then
      if AllText(m.content.parts) then Some(m.(content := Text(JoinParts(m.content.parts)))) else None
    else if m.role == Assistant && m.hasToolCalls && !m.content.Text? then Some(m.(content := Text("")))
    else Some(m)
  }

  function Normalize(ms: seq<Message>): Option<seq<Message>> {
    if ms == [] then Some([])
    else
      match NormalizeMessage(ms[0])
      case None => None
      case Some(m) =>
        match Normalize(ms[1..])
        case None => None
        case Some(rest) => Some([m] + rest)
  }

  predicate IsNormal(m: Message) {
    NormalizeMessage(m) == Some(m)
  }

  /** Missing and null content are the same value to every comparison. */
  function ContentValue(c: Content): Content {
    if c.Absent? then Null else c
  }

  predicate SameMessage(a: Message, b: Message) {
    a.role == b.role && ContentValue(a.content) == ContentValue(b.content)
  }

  /** The role and text of a message, read the way normalization reads them. */
  function GistOf(m: Message): Gist {
    Gist(m.role,
         match m.content
         case Text(t) => Some(t)
         case Parts(ps) => if AllText(ps) then Some(JoinParts(ps)) else None
         case _ => if m.role == Assistant && m.hasToolCalls then Some("") else None)
  }

  lemma NormalizeMessageFacts(m: Message)
    requires NormalizeMessage(m).Some?
    ensures IsNormal(NormalizeMessage(m).value)
    ensures NormalizeMessage(m).value.role == m.role
    ensures GistOf(NormalizeMessage(m).value) == GistOf(m)
  {
  }

  /** On normalized messages the comparison the server makes is equality of role and text. */
  lemma SameMessageIsSameGist(a: Message, b: Message)
    requires IsNormal(a) && IsNormal(b)
    ensures SameMessage(a, b) <==> GistOf(a) == GistOf(b)
  {
  }

  /** Normalization is pointwise, keeps roles and texts, and is idempotent. */
  lemma {:induction false} NormalizePointwise(ms: seq<Message>)
    requires Normalize(ms).Some?
    ensures var ns := Normalize(ms).value;
            && |ns| == |ms|
            && (forall i :: 0 <= i < |ms| ==> NormalizeMessage(ms[i]) == Some(ns[i]))
            && (forall i :: 0 <= i < |ms| ==> ns[i].role == ms[i].role && GistOf(ns[i]) == GistOf(ms[i]))
            && Normalize(ns) == Some(ns)
  {
    if ms != [] {
      NormalizePointwise(ms[1..]);
      NormalizeMessageFacts(ms[0]);
      var ns := Normalize(ms).value;
      assert ns[1..] == Normalize(ms[1..]).value;
      forall i | 0 <= i < |ms|
        ensures NormalizeMessage(ms[i]) == Some(ns[i]) && ns[i].role == ms[i].role && GistOf(ns[i]) == GistOf(ms[i])
      {
        if i > 0 {
          assert ms[i] == ms[1..][i - 1] && ns[i] == ns[1..][i - 1];
        }
      }
    }
  }

  // ---- What normalization keeps of a message -------------------------------------

  /** The normalized form of one message, if it has one. */
  function NormalizedOne(m: Message): Option<Message> {
    match Normalize([m])
    case None => None
    case Some(ms) => if |ms| == 1 then Some(ms[0]) else None
  }

  lemma NormalizedOneIs(m: Message)
    ensures NormalizedOne(m) == NormalizeMessage(m)
  {
    assert [m][1..] == [];
    assert Normalize([]) == Some([]);
  }

  predicate Supported(m: Message) {
    && !m.role.Unsupported? && !m.content.Malformed?
    && (m.content.Parts? ==> forall i :: 0 <= i < |m.content.parts| ==> m.content.parts[i].TextPart?)
  }

  /** A request is refused exactly when some message has an unsupported role, malformed content or a part that is no text. */
  lemma {:induction false} RefusedExactlyWhenUnsupported(ms: seq<Message>)
    ensures Normalize(ms).Some? <==> forall i :: 0 <= i < |ms| ==> Supported(ms[i])
  {
    if ms != [] {
      RefusedExactlyWhenUnsupported(ms[1..]);
      if Supported(ms[0]) && forall i :: 0 <= i < |ms[1..]| ==> Supported(ms[1..][i]) {
        forall i | 0 <= i < |ms| ensures Supported(ms[i]) {
          if i > 0 {
            assert ms[i] == ms[1..][i - 1];
          }
        }
      }
    }
  }

  /** Where the i-th of some parts starts when they are written one after the other, one newline between neighbours. */
  function StartOfPart(parts: seq<Part>, i: nat): nat
    requires i <= |parts| && AllText(parts)
  {
    if i == 0 then 0 else StartOfPart(parts, i - 1) + |parts[i - 1].text| + 1
  }

  /** The part stands at its place, with a newline behind it unless the text ends there. */
  predicate PartStands(parts: seq<Part>, i: nat, text: string)
    requires i < |parts| && AllText(parts)
  {
    var from := StartOfPart(parts, i);
    var end := from + |parts[i].text|;
    && end <= |text| && text[from..end] == parts[i].text
    && (if i == |parts| - 1 then end == |text| else end < |text| && text[end] == '\n')
  }

  lemma {:induction false} StartOfRest(parts: seq<Part>, i: nat)
    requires 0 < i <= |parts| && AllText(parts)
    ensures StartOfPart(parts, i) == |parts[0].text| + 1 + StartOfPart(parts[1..], i - 1)
    decreases i
  {
    if i > 1 {
      StartOfRest(parts, i - 1);
      assert parts[1..][i - 2] == parts[i - 1];
    }
  }

  lemma RestStands(first: string, rest: string, parts: seq<Part>, i: nat)
    requires 0 < i < |parts| && AllText(parts) && parts[0].text == first && PartStands(parts[1..], i - 1, rest)
    ensures PartStands(parts, i, first + "\n" + rest)
  {
    StartOfRest(parts, i);
    assert parts[1..][i - 1] == parts[i];
    var text := first + "\n" + rest;
    var from := StartOfPart(parts[1..], i - 1);
    var shift := |first| + 1;
    assert text[shift + from..shift + from + |parts[i].text|] == rest[from..from + |parts[i].text|];
  }

  lemma {:induction false} PartsStand(parts: seq<Part>)
    requires AllText(parts)
    ensures parts == [] ==> JoinParts(parts) == ""
    ensures forall i :: 0 <= i < |parts| ==> PartStands(parts, i, JoinParts(parts))
    decreases |parts|
  {
    if |parts| > 1 {
      PartsStand(parts[1..]);
      forall i | 0 <= i < |parts| ensures PartStands(parts, i, JoinParts(parts)) {
        if i > 0 {
          RestStands(parts[0].text, JoinParts(parts[1..]), parts, i);
        }
      }
    }
  }

  /**
   What a message with a list of text parts is normalized to: every part stands in the text, in order, one newline
   between neighbours and nothing else; an empty list gives the empty text. Nothing but the content changes.
   */
  lemma PartsAreJoinedByNewlines(m: Message)
    requires Supported(m) && m.content.Parts?
    ensures NormalizedOne(m).Some?
    ensures var n := NormalizedOne(m).value;
            && n.role == m.role && n.hasToolCalls == m.hasToolCalls && n.extra == m.extra && n.content.Text?
            && (m.content.parts == [] ==> n.content.text == "")
            && forall i :: 0 <= i < |m.content.parts| ==> PartStands(m.content.parts, i, n.content.text)
  {
    NormalizedOneIs(m);
    PartsStand(m.content.parts);
  }

  /** Every other message keeps its content, except that an assistant's missing content becomes empty next to tool calls. */
  lemma OtherContentIsKept(m: Message)
    requires Supported(m) && !m.content.Parts?
    ensures NormalizedOne(m)
         == Some(if m.role == Assistant && m.hasToolCalls && (m.content.Absent? || m.content.Null?) then m.(content := Text("")) else m)
  {
    NormalizedOneIs(m);
  }

  /** A request is normalized message by message. */
  lemma NormalizesEachMessage(ms: seq<Message>)
    requires Normalize(ms).Some?
    ensures |Normalize(ms).value| == |ms|
    ensures forall i :: 0 <= i < |ms| ==> NormalizedOne(ms[i]) == Some(Normalize(ms).value[i])
  {
    NormalizePointwise(ms);
    forall i | 0 <= i < |ms| ensures NormalizedOne(ms[i]) == Some(Normalize(ms).value[i]) {
      NormalizedOneIs(ms[i]);
    }
  }

  // ---- Conversation shape ------------------------------------------------

  predicate HasAssistant(ms: seq<Message>) {
    exists i :: 0 <= i < |ms| && ms[i].role == Assistant
  }

  function NonAssistant(ms: seq<Message>): (r: seq<Message>)
    ensures |r| <= |ms|
  {
    if ms == [] then []
    else (if ms[0].role == Assistant then [] else [ms[0]]) + NonAssistant(ms[1..])
  }

  function Gists(ms: seq<Message>): (r: seq<Gist>)
    ensures |r| == |ms|
    ensures forall i :: 0 <= i < |ms| ==> r[i] == GistOf(ms[i])
  {
    if ms == [] then [] else [GistOf(ms[0])] + Gists(ms[1..])
  }

  lemma {:induction false} NonAssistantConcat(a: seq<Message>, b: seq<Message>)
    ensures NonAssistant(a + b) == NonAssistant(a) + NonAssistant(b)
  {
    if a == [] {
      assert a + b == b;
    } else {
      assert (a + b)[0] == a[0] && (a + b)[1..] == a[1..] + b;
      NonAssistantConcat(a[1..], b);
    }
  }

  lemma GistsConcat(a: seq<Message>, b: seq<Message>)
    ensures Gists(a + b) == Gists(a) + Gists(b)
  {
  }

  lemma {:induction false} NonAssistantOfOpening(ms: seq<Message>)
    requires !HasAssistant(ms)
    ensures NonAssistant(ms) == ms
  {
    if ms != [] {
      assert ms[0].role != Assistant;
      forall i | 0 <= i < |ms[1..]| ensures ms[1..][i].role != Assistant {
        assert ms[1..][i] == ms[i + 1];
      }
      NonAssistantOfOpening(ms[1..]);
    }
  }

  /** A filtered list has nothing left to filter. */
  lemma {:induction false} NonAssistantHasNone(ms: seq<Message>)
    ensures !HasAssistant(NonAssistant(ms))
  {
    if ms != [] {
      NonAssistantHasNone(ms[1..]);
      var rest := NonAssistant(ms[1..]);
      forall i | 0 <= i < |NonAssistant(ms)| ensures NonAssistant(ms)[i].role != Assistant {
        if ms[0].role == Assistant {
          assert NonAssistant(ms)[i] == rest[i];
        } else if i > 0 {
          assert NonAssistant(ms)[i] == rest[i - 1];
        }
      }
    }
  }

  lemma HasAssistantByRole(a: seq<Message>, b: seq<Message>)
    requires |a| == |b|
    requires forall i :: 0 <= i < |a| ==> a[i].role == b[i].role
    ensures HasAssistant(a) <==> HasAssistant(b)
  {
    if HasAssistant(a) {
      var i :| 0 <= i < |a| && a[i].role == Assistant;
      assert b[i].role == Assistant;
    }
    if HasAssistant(b) {
      var i :| 0 <= i < |b| && b[i].role == Assistant;
      assert a[i].role == Assistant;
    }
  }

  /** Which messages are the agent's own, and their texts, do not depend on normalization. */
  lemma {:induction false} GistsDecideNonAssistant(a: seq<Message>, b: seq<Message>)
    requires Gists(a) == Gists(b)
    ensures Gists(NonAssistant(a)) == Gists(NonAssistant(b))
  {
    assert |a| == |Gists(a)| && |b| == |Gists(b)|;
    if a != [] {
      assert Gists(a)[1..] == Gists(a[1..]) && Gists(b)[1..] == Gists(b[1..]);
      GistsDecideNonAssistant(a[1..], b[1..]);
      assert Gists(a)[0] == Gists(b)[0];
      assert GistOf(a[0]).role == a[0].role && GistOf(b[0]).role == b[0].role;
      GistsConcat([a[0]], NonAssistant(a[1..]));
      GistsConcat([b[0]], NonAssistant(b[1..]));
    }
  }

  /** What the comparisons of later turns read of a request survives normalization. */
  lemma NormalizeKeepsConversation(ms: seq<Message>)
    requires Normalize(ms).Some?
    ensures Gists(Normalize(ms).value) == Gists(ms)
    ensures Gists(NonAssistant(Normalize(ms).value)) == Gists(NonAssistant(ms))
    ensures HasAssistant(Normalize(ms).value) <==> HasAssistant(ms)
  {
    NormalizePointwise(ms);
    assert Gists(Normalize(ms).value) == Gists(ms);
    GistsDecideNonAssistant(Normalize(ms).value, ms);
    HasAssistantByRole(Normalize(ms).value, ms);
  }
}
