/** Where a tag can and cannot occur in text put together from parts; stripping text padded with whitespace. */
module Markup {
  import opened Text

  /** A marker that starts with its only '<' and can only end with '>', so that it cannot overlap other tags. */
  predicate Tag(marker: string) {
    && |marker| >= 2 && marker[0] == '<'
    && (forall i :: 0 < i < |marker| ==> marker[i] != '<' && marker[i] != '\n')
    && (forall i :: 0 <= i < |marker| - 1 ==> marker[i] != '>')
  }

  ghost predicate Free(text: string, marker: string) {
    forall i :: !At(text, marker, i)
  }

  predicate NoAngles(s: string) {
    forall i :: 0 <= i < |s| ==> s[i] != '<' && s[i] != '>'
  }

  /** A name or key as the printed forms need it: nonempty, on one line, with no angle brackets and no space around. */
  predicate Clean(s: string) {
    && s != "" && NoAngles(s) && !IsSpace(s[0]) && !IsSpace(s[|s| - 1])
    && forall i :: 0 <= i < |s| ==> s[i] != '\n'
  }

  lemma AtChar(text: string, marker: string, i: nat, k: nat)
    requires At(text, marker, i) && k < |marker|
    ensures text[i + k] == marker[k]
  {
    assert text[i..i + |marker|][k] == marker[k];
  }

  lemma NotAt(text: string, marker: string, i: nat, k: nat)
    requires k < |marker| && i + k < |text| && text[i + k] != marker[k]
    ensures !At(text, marker, i)
  {
    assert i + |marker| <= |text| ==> text[i..i + |marker|][k] == text[i + k];
  }

  lemma AtPart(a: string, b: string, c: string, marker: string, i: int)
    requires |a| <= i && i + |marker| <= |a| + |b|
    ensures At(a + b + c, marker, i) <==> At(b, marker, i - |a|)
  {
    assert (a + b + c)[i..i + |marker|] == b[i - |a|..i - |a| + |marker|];
  }

  /** No marker arises where two parts meet, when the second starts a tag or line or the first ends one. */
  lemma FreeConcat(a: string, b: string, marker: string)
    requires Tag(marker) && Free(a, marker) && Free(b, marker)
    requires a == "" || b == "" || b[0] == '<' || b[0] == '\n' || a[|a| - 1] == '\n' || a[|a| - 1] == '>'
    ensures Free(a + b, marker)
  {
    forall i ensures !At(a + b, marker, i) {
      if 0 <= i && i + |marker| <= |a| {
        AtPart("", a, b, marker, i);
        assert "" + a + b == a + b;
      } else if |a| <= i && i + |marker| <= |a| + |b| {
        AtPart(a, b, "", marker, i);
        assert a + b + "" == a + b;
      } else if 0 <= i < |a| && i + |marker| <= |a| + |b| && At(a + b, marker, i) {
        AtChar(a + b, marker, i, |a| - i);
        AtChar(a + b, marker, i, |a| - i - 1);
        assert false;
      }
    }
  }

  lemma FreeTag(text: string, marker: string)
    requires Tag(marker) && !At(text, marker, 0)
    requires forall i :: 0 < i < |text| ==> text[i] != '<'
    ensures Free(text, marker)
  {
    forall i ensures !At(text, marker, i) {
      if i > 0 && At(text, marker, i) {
        AtChar(text, marker, i, 0);
        assert false;
      }
    }
  }

  lemma FreeLine(marker: string)
    requires Tag(marker)
    ensures Free("\n", marker) && Free("", marker)
  {
  }

  /** The first marker after a part that is free of it. */
  lemma FindMarker(u: string, w: string, marker: string, rest: string)
    requires Tag(marker) && Free(w, marker)
    ensures Find(u + w + marker + rest, marker, |u|) == |u| + |w|
  {
    var text := u + w + marker + rest;
    assert text[|u| + |w|..|u| + |w| + |marker|] == marker;
    forall i | |u| <= i < |u| + |w| ensures !At(text, marker, i) {
      if i + |marker| <= |u| + |w| {
        AtPart(u, w, marker + rest, marker, i);
        assert u + w + (marker + rest) == text;
      } else if At(text, marker, i) {
        AtChar(text, marker, i, |u| + |w| - i);
        assert false;
      }
    }
    FindIs(text, marker, |u|, |u| + |w|);
  }

  lemma FindNoMarker(u: string, w: string, marker: string)
    requires Tag(marker) && Free(w, marker)
    ensures Find(u + w, marker, |u|) == -1
  {
    forall i | |u| <= i ensures !At(u + w, marker, i) {
      if i + |marker| <= |u| + |w| {
        AtPart(u, w, "", marker, i);
        assert u + w + "" == u + w;
      }
    }
    FindNone(u + w, marker, |u|);
  }

  lemma {:induction false} StripLeftPadded(a: string, m: string)
    requires Blank(a) && (m == "" || !IsSpace(m[0]))
    ensures StripLeft(a + m) == m
    decreases |a|
  {
    if a != "" {
      assert (a + m)[1..] == a[1..] + m;
      assert a[0] == (a + m)[0];
      StripLeftPadded(a[1..], m);
    } else {
      assert a + m == m;
    }
  }

  lemma {:induction false} StripRightPadded(m: string, b: string)
    requires Blank(b) && (m == "" || !IsSpace(m[|m| - 1]))
    ensures StripRight(m + b) == m
    decreases |b|
  {
    if b != "" {
      assert (m + b)[..|m + b| - 1] == m + b[..|b| - 1];
      StripRightPadded(m, b[..|b| - 1]);
    } else {
      assert m + b == m;
    }
  }

  /** Stripping removes exactly the whitespace around a text that neither starts nor ends with whitespace. */
  lemma StripPadded(a: string, m: string, b: string)
    requires Blank(a) && Blank(b) && m != "" && !IsSpace(m[0]) && !IsSpace(m[|m| - 1])
    ensures Strip(a + m + b) == m
  {
    assert a + m + b == a + (m + b);
    StripLeftPadded(a, m + b);
    StripRightPadded(m, b);
  }

  lemma StripClean(m: string)
    requires m != "" && !IsSpace(m[0]) && !IsSpace(m[|m| - 1])
    ensures Strip(m) == m
  {
    StripPadded("", m, "");
    assert "" + m + "" == m;
  }
}
