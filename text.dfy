/**
 * The string facts the three components rely on: ASCII case folding (the hand-written
 * `toLower` of internal/tools/tools.go and, for ASCII input, Go's strings.ToLower and
 * strings.ToUpper), contiguous substring search (strings.Contains), whitespace trimming
 * (strings.TrimSpace) and the first byte of a UTF-8 encoding (what indexing a Go string
 * at 0 yields).
 *
 * A Go string is a byte sequence; here it is the sequence of characters it decodes to.
 * For well-formed UTF-8 the two views agree on everything used here: ASCII folding never
 * touches a byte of a multi-byte character (those bytes are all >= 0x80), and a contiguous
 * byte slice that is itself a valid encoding lines up with a contiguous character slice.
 */
module Text {

  // ---------------------------------------------------------------------------
  // ASCII case folding
  // ---------------------------------------------------------------------------

  /** 'A'..'Z' move up by 32 to 'a'..'z'; every other character is unchanged. */
  function LowerChar(c: char): char {
    if 'A' <= c <= 'Z' then (c as int + 32) as char else c
  }

  /** 'a'..'z' move down by 32 to 'A'..'Z'; every other character is unchanged. */
  function UpperChar(c: char): char {
    if 'a' <= c <= 'z' then (c as int - 32) as char else c
  }

  function Lower(s: string): string {
    seq(|s|, i requires 0 <= i < |s| => LowerChar(s[i]))
  }

  function Upper(s: string): string {
    seq(|s|, i requires 0 <= i < |s| => UpperChar(s[i]))
  }

  predicate IsAsciiUpper(c: char) {
    'A' <= c <= 'Z'
  }

  /** Lowering is idempotent and leaves no ASCII capital behind. */
  lemma LowerIdempotent(s: string)
    ensures Lower(Lower(s)) == Lower(s)
    ensures forall i :: 0 <= i < |s| ==> !IsAsciiUpper(Lower(s)[i])
  {
  }

  /** Two strings that agree after lowering agree after upper-casing, and conversely. */
  lemma UpperLowerAgree(a: string, b: string)
    ensures Upper(a) == Upper(b) <==> Lower(a) == Lower(b)
  {
    if Upper(a) == Upper(b) {
      assert |a| == |b|;
      forall i | 0 <= i < |a| ensures Lower(a)[i] == Lower(b)[i] {
        assert Upper(a)[i] == Upper(b)[i];
      }
    }
    if Lower(a) == Lower(b) {
      assert |a| == |b|;
      forall i | 0 <= i < |a| ensures Upper(a)[i] == Upper(b)[i] {
        assert Lower(a)[i] == Lower(b)[i];
      }
    }
  }

  // ---------------------------------------------------------------------------
  // Substrings
  // ---------------------------------------------------------------------------

  /** `t` occurs in `s` as the contiguous slice that starts at offset `i`. */
  predicate OccursAt(t: string, s: string, i: int) {
    0 <= i && i + |t| <= |s| && s[i..i + |t|] == t
  }

  /** `t` occurs somewhere in `s` as a contiguous slice (Go's strings.Contains(s, t)). */
  predicate Contains(s: string, t: string) {
    exists i | 0 <= i <= |s| - |t| :: OccursAt(t, s, i)
  }

  /** The empty string occurs in every string. */
  lemma ContainsEmpty(s: string)
    ensures Contains(s, "")
  {
    assert OccursAt("", s, 0);
  }

  /** A string never occurs in a shorter one. */
  lemma ContainsTooLong(s: string, t: string)
    requires |t| > |s|
    ensures !Contains(s, t)
  {
  }

  /** A string whose first character is absent from `s` does not occur in `s`. */
  lemma NotContainsFirstAbsent(s: string, t: string)
    requires |t| > 0
    requires forall k :: 0 <= k < |s| ==> s[k] != t[0]
    ensures !Contains(s, t)
  {
    forall i ensures !OccursAt(t, s, i) {
      if 0 <= i && i + |t| <= |s| {
        assert s[i..i + |t|][0] == s[i];
      }
    }
  }

  /** Every string occurs in itself. */
  lemma ContainsSelf(s: string)
    ensures Contains(s, s)
  {
    assert OccursAt(s, s, 0);
  }

  /** Case-insensitive containment: lowered `t` occurs in lowered `s`. */
  predicate ContainsFold(s: string, t: string) {
    Contains(Lower(s), Lower(t))
  }

  /** Case-insensitive containment does not see the case of either argument. */
  lemma ContainsFoldIgnoresCase(s: string, t: string)
    ensures ContainsFold(Lower(s), t) == ContainsFold(s, t)
    ensures ContainsFold(s, Lower(t)) == ContainsFold(s, t)
  {
    LowerIdempotent(s);
    LowerIdempotent(t);
  }

  // ---------------------------------------------------------------------------
  // Whitespace trimming (strings.TrimSpace)
  // ---------------------------------------------------------------------------

  /** Go's unicode.IsSpace: the characters of Unicode's White_Space property. */
  predicate IsSpace(c: char) {
    || ('\t' <= c <= '\r')
    || c == ' '
    || c == '\U{0085}'
    || c == '\U{00A0}'
    || c == '\U{1680}'
    || ('\U{2000}' <= c <= '\U{200A}')
    || c == '\U{2028}'
    || c == '\U{2029}'
    || c == '\U{202F}'
    || c == '\U{205F}'
    || c == '\U{3000}'
  }

  predicate AllSpace(s: string) {
    forall k :: 0 <= k < |s| ==> IsSpace(s[k])
  }

  /** Drops leading white space. */
  function TrimLeft(s: string): string {
    if |s| > 0 && IsSpace(s[0]) then TrimLeft(s[1..]) else s
  }

  /** Drops trailing white space. */
  function TrimRight(s: string): string {
    if |s| > 0 && IsSpace(s[|s| - 1]) then TrimRight(s[..|s| - 1]) else s
  }

  /** strings.TrimSpace: leading, then trailing white space dropped. */
  function TrimSpace(s: string): string {
    TrimRight(TrimLeft(s))
  }

  /** TrimLeft keeps the longest suffix that does not start with a space. */
  lemma {:induction false} TrimLeftSpec(s: string)
    ensures var r := TrimLeft(s);
      && |r| <= |s| && r == s[|s| - |r|..]
      && (forall k :: 0 <= k < |s| - |r| ==> IsSpace(s[k]))
      && (r != [] ==> !IsSpace(r[0]))
  {
    if |s| > 0 && IsSpace(s[0]) {
      TrimLeftSpec(s[1..]);
    }
  }

  /** TrimRight keeps the longest prefix that does not end with a space. */
  lemma {:induction false} TrimRightSpec(s: string)
    ensures var r := TrimRight(s);
      && |r| <= |s| && r == s[..|r|]
      && (forall k :: |r| <= k < |s| ==> IsSpace(s[k]))
      && (r != [] ==> !IsSpace(r[|r| - 1]))
  {
    if |s| > 0 && IsSpace(s[|s| - 1]) {
      TrimRightSpec(s[..|s| - 1]);
    }
  }

  /** `s` is white space, then TrimSpace(s), then white space; the result neither starts nor
      ends with a space. */
  lemma TrimSpaceSpec(s: string)
    ensures var r := TrimSpace(s);
      && (exists i :: 0 <= i && i + |r| <= |s| && s[i..i + |r|] == r
                      && AllSpace(s[..i]) && AllSpace(s[i + |r|..]))
      && (r != [] ==> !IsSpace(r[0]) && !IsSpace(r[|r| - 1]))
  {
    var l := TrimLeft(s);
    TrimLeftSpec(s);
    TrimRightSpec(l);
    var r := TrimRight(l);
    var i := |s| - |l|;
    assert s[i..i + |r|] == r;
    assert AllSpace(s[..i]);
    assert AllSpace(s[i + |r|..]) by {
      var tail := s[i + |r|..];
      forall k | 0 <= k < |tail| ensures IsSpace(tail[k]) {
        assert tail[k] == l[|r| + k];
      }
    }
    if r != [] {
      assert r[0] == l[0];
    }
  }

  /** A string without leading or trailing white space is its own trimming. */
  lemma TrimSpaceNoop(s: string)
    requires s != [] ==> !IsSpace(s[0]) && !IsSpace(s[|s| - 1])
    ensures TrimSpace(s) == s
  {
  }

  /** A string of white space trims to nothing. */
  lemma {:induction false} TrimAllSpace(s: string)
    requires AllSpace(s)
    ensures TrimLeft(s) == [] && TrimSpace(s) == []
  {
    if s != [] {
      assert AllSpace(s[1..]) by {
        forall k | 0 <= k < |s| - 1 ensures IsSpace(s[1..][k]) {
          assert s[1..][k] == s[k + 1];
        }
      }
      TrimAllSpace(s[1..]);
    }
  }

  // ---------------------------------------------------------------------------
  // UTF-8
  // ---------------------------------------------------------------------------

  /** The first byte of the UTF-8 encoding of `c`. */
  function Utf8LeadByte(c: char): (b: int)
    ensures 0 <= b < 0x100
    ensures (b < 0x80) == (c as int < 0x80)
  {
    var n := c as int;
    if n < 0x80 then n
    else if n < 0x800 then 0xC0 + n / 0x40
    else if n < 0x10000 then 0xE0 + n / 0x1000
    else 0xF0 + n / 0x40000
  }

  /** Between ASCII characters, and between an ASCII and any other character, lead bytes
      differ exactly when the characters do. */
  lemma Utf8LeadByteAscii(a: char, b: char)
    requires a as int < 0x80 || b as int < 0x80
    ensures Utf8LeadByte(a) == Utf8LeadByte(b) <==> a == b
  {
  }
}
