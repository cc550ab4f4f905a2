/** The string operations the scanners are built on, with the meaning Python gives them. */
module Text {

  /** Python's str.isspace, character by character. */
  predicate IsSpace(c: char) {
    var n := c as int;
    || 0x09 <= n <= 0x0D || 0x1C <= n <= 0x20 || n == 0x85 || n == 0xA0 || n == 0x1680
    || 0x2000 <= n <= 0x200A || n == 0x2028 || n == 0x2029 || n == 0x202F || n == 0x205F || n == 0x3000
  }

  predicate Blank(s: string) {
    forall i :: 0 <= i < |s| ==> IsSpace(s[i])
  }

  function StripLeft(s: string): string {
    if s != [] && IsSpace(s[0]) then StripLeft(s[1..]) else s
  }

  function StripRight(s: string): string {
    if s != [] && IsSpace(s[|s| - 1]) then StripRight(s[..|s| - 1]) else s
  }

  function Strip(s: string): string {
    StripRight(StripLeft(s))
  }

  /** A nonempty name, as the record checks require. */
  predicate IsName(s: string) {
    !Blank(s)
  }

  // ---- Finding -------------------------------------------------------------

  /** The pattern occurs at this position. */
  predicate At(text: string, pattern: string, i: int) {
    0 <= i && i + |pattern| <= |text| && text[i..i + |pattern|] == pattern
  }

  /** The first occurrence at or after `from`, or -1, as `text.find(pattern, from)`. */
  function Find(text: string, pattern: string, from: nat): (r: int)
    ensures r == -1 || (from <= r && At(text, pattern, r))
    ensures r == -1 ==> forall i :: from <= i ==> !At(text, pattern, i)
    ensures r >= 0 ==> forall i :: from <= i < r ==> !At(text, pattern, i)
    decreases |text| - from
  {
    if from + |pattern| > |text| then -1
    else if text[from..from + |pattern|] == pattern then from
    else Find(text, pattern, from + 1)
  }

  /** The last occurrence between `from` and `limit`, or -1, as `text.rfind(pattern, from, limit)`. */
  function FindLast(text: string, pattern: string, from: nat, limit: nat): (r: int)
    requires limit <= |text|
    ensures r == -1 || (from <= r && r + |pattern| <= limit && At(text, pattern, r))
    ensures r == -1 ==> forall i :: from <= i && i + |pattern| <= limit ==> !At(text, pattern, i)
    ensures r >= 0 ==> forall i :: r < i && i + |pattern| <= limit ==> !At(text, pattern, i)
    decreases limit
  {
    if from + |pattern| > limit then -1
    else if text[limit - |pattern|..limit] == pattern then limit - |pattern|
    else if limit == 0 then -1
    else FindLast(text, pattern, from, limit - 1)
  }

  /** The first occurrence decides the search. */
  lemma FindIs(text: string, pattern: string, from: nat, at: nat)
    requires from <= at && At(text, pattern, at)
    requires forall i :: from <= i < at ==> !At(text, pattern, i)
    ensures Find(text, pattern, from) == at
  {
    var r := Find(text, pattern, from);
    assert !(r == -1);
  }

  lemma FindNone(text: string, pattern: string, from: nat)
    requires forall i :: from <= i ==> !At(text, pattern, i)
    ensures Find(text, pattern, from) == -1
  {
    var r := Find(text, pattern, from);
    assert r >= 0 ==> At(text, pattern, r);
  }
}
