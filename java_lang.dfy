/** The parts of Java's `int` and `String` semantics the domain relies on. */
module JavaInts {

  const IntMin: int := -0x8000_0000
  const IntMax: int := 0x7FFF_FFFF

  /** A Java `int`. */
  type Int32 = x: int | IntMin <= x <= IntMax

  /** Two's-complement wrap-around of Java `int` arithmetic. */
  function Wrap32(x: int): (r: Int32)
    ensures IntMin <= x <= IntMax ==> r == x
    ensures (r - x) % 0x1_0000_0000 == 0
  {
    (x - IntMin) % 0x1_0000_0000 + IntMin
  }

  /** `Objects.hash(v)` for a single argument whose own hash code is `h`:
      `31 * 1 + h` in `int` arithmetic. */
  function ObjectsHash1(h: Int32): Int32 {
    Wrap32(31 + h)
  }
}

module JavaStrings {
  import opened JavaInts
  import opened Results

  /** `Character.isWhitespace`: the Unicode space, line and paragraph separators
      other than the no-break spaces U+00A0, U+2007 and U+202F, plus the
      control characters U+0009 to U+000D and U+001C to U+001F. */
  predicate IsWhitespace(c: char) {
    || ('\t' <= c <= '\r')
    || ('\U{001C}' <= c <= ' ')
    || c == '\U{1680}'
    || ('\U{2000}' <= c <= '\U{2006}')
    || ('\U{2008}' <= c <= '\U{200A}')
    || c == '\U{2028}' || c == '\U{2029}' || c == '\U{205F}' || c == '\U{3000}'
  }

  /** `String.isBlank`: empty, or only whitespace code points. */
  predicate IsBlank(s: string)
    ensures IsBlank(s) <==> forall i :: 0 <= i < |s| ==> IsWhitespace(s[i])
  {
    s == [] || (IsWhitespace(s[0]) && IsBlank(s[1..]))
  }

  /** A Java string that is neither null nor blank. */
  type NonBlank = s: string | !IsBlank(s) witness "?"

  /** Null or blank, the rejection test of every identifier constructor. */
  predicate NullOrBlank(s: Option<string>) {
    s.None? || IsBlank(s.value)
  }

  function AsciiUpper(c: char): char {
    if 'a' <= c <= 'z' then (c as int - 32) as char else c
  }

  function AsciiLower(c: char): char {
    if 'A' <= c <= 'Z' then (c as int + 32) as char else c
  }

  /** `String.toUpperCase` restricted to ASCII letters. */
  function ToUpper(s: string): (r: string)
    ensures |r| == |s|
    ensures forall i :: 0 <= i < |s| ==> r[i] == AsciiUpper(s[i])
  {
    seq(|s|, i requires 0 <= i < |s| => AsciiUpper(s[i]))
  }

  /** `String.toLowerCase` restricted to ASCII letters. */
  function ToLower(s: string): (r: string)
    ensures |r| == |s|
    ensures forall i :: 0 <= i < |s| ==> r[i] == AsciiLower(s[i])
  {
    seq(|s|, i requires 0 <= i < |s| => AsciiLower(s[i]))
  }

  /** `String.hashCode`: `s[0]*31^(n-1) + ... + s[n-1]` in `int` arithmetic,
      computed as Java does, left to right. */
  function StringHash(s: string): Int32 {
    HashFrom(0, s)
  }

  function HashFrom(h: Int32, s: string): Int32
    decreases |s|
  {
    if s == [] then h else HashFrom(Wrap32(31 * h + s[0] as int), s[1..])
  }

}
