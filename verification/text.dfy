/**
 * The JavaScript string operations the routes rely on: `trim`, `includes`,
 * joining shell commands, and number-to-string conversion for messages.
 */
module Text {

  /** The characters `String.prototype.trim` removes: ECMAScript WhiteSpace and LineTerminator code points. */
  predicate IsWhitespace(c: char) {
    || c == '\t' || c == '\n' || c == '\U{000B}' || c == '\U{000C}' || c == '\r' || c == ' '
    || c == '\U{00A0}' || c == '\U{1680}' || ('\U{2000}' <= c <= '\U{200A}')
    || c == '\U{2028}' || c == '\U{2029}' || c == '\U{202F}' || c == '\U{205F}'
    || c == '\U{3000}' || c == '\U{FEFF}'
  }

  /** Every character of `s` is whitespace (the empty string included). */
  ghost predicate IsBlank(s: string) {
    forall i :: 0 <= i < |s| ==> IsWhitespace(s[i])
  }

  /** `s` with its leading whitespace removed. */
  function TrimStart(s: string): (r: string)
    ensures |r| <= |s| && r == s[|s| - |r|..]
    ensures forall i :: 0 <= i < |s| - |r| ==> IsWhitespace(s[i])
    ensures r != [] ==> !IsWhitespace(r[0])
  {
    if |s| > 0 && IsWhitespace(s[0]) then TrimStart(s[1..]) else s
  }

  /** `s` with its trailing whitespace removed. */
  function TrimEnd(s: string): (r: string)
    ensures |r| <= |s| && r == s[..|r|]
    ensures forall i :: |r| <= i < |s| ==> IsWhitespace(s[i])
    ensures r != [] ==> !IsWhitespace(r[|r| - 1])
  {
    if |s| > 0 && IsWhitespace(s[|s| - 1]) then TrimEnd(s[..|s| - 1]) else s
  }

  /** `String.prototype.trim`. */
  function Trim(s: string): (r: string)
    ensures |r| <= |s|
    ensures r == [] <==> IsBlank(s)
    ensures r != [] ==> !IsWhitespace(r[0]) && !IsWhitespace(r[|r| - 1])
  {
    TrimBothEnds(s);
    TrimEnd(TrimStart(s))
  }

  /** Trimming both ends leaves nothing exactly for blank text, and otherwise starts at a non-whitespace character. */
  lemma TrimBothEnds(s: string)
    ensures TrimEnd(TrimStart(s)) == [] <==> IsBlank(s)
    ensures TrimEnd(TrimStart(s)) != [] ==> !IsWhitespace(TrimEnd(TrimStart(s))[0])
  {
    var t := TrimStart(s);
    var r := TrimEnd(t);
    assert t != [] ==> t[0] == s[|s| - |t|];
    assert t != [] ==> r != [] && r[0] == t[0];
  }

  /** How many UTF-16 code units `c` takes: two outside the Basic Multilingual Plane, one inside it. */
  function Utf16Units(c: char): nat {
    if c as int >= 0x10000 then 2 else 1
  }

  /** `String.prototype.length`, which counts UTF-16 code units rather than characters. */
  function Utf16Length(s: string): (n: nat)
    ensures |s| <= n <= 2 * |s|
  {
    if |s| == 0 then 0 else Utf16Units(s[0]) + Utf16Length(s[1..])
  }

  /** The JavaScript length equals the character count exactly when no character lies outside the Basic Multilingual Plane. */
  lemma {:induction false} Utf16LengthIsCharCount(s: string)
    ensures Utf16Length(s) == |s| <==> forall i :: 0 <= i < |s| ==> s[i] as int < 0x10000
  {
    if |s| > 0 {
      Utf16LengthIsCharCount(s[1..]);
      assert forall i :: 1 <= i < |s| ==> s[i] == s[1..][i - 1];
    }
  }

  /** Text made only of characters outside the Basic Multilingual Plane has twice as many code units as characters. */
  lemma {:induction false} Utf16LengthAllAstral(s: string)
    requires forall i :: 0 <= i < |s| ==> s[i] as int >= 0x10000
    ensures Utf16Length(s) == 2 * |s|
  {
    if |s| > 0 {
      assert forall i :: 0 <= i < |s| - 1 ==> s[1..][i] == s[i + 1];
      Utf16LengthAllAstral(s[1..]);
    }
  }

  /** `sub` occurs in `s` starting at index `i`. */
  ghost predicate OccursAt(s: string, sub: string, i: int) {
    0 <= i && i + |sub| <= |s| && s[i..i + |sub|] == sub
  }

  /** `String.prototype.includes`: `sub` occurs somewhere in `s`. */
  function Contains(s: string, sub: string): (b: bool)
    ensures b <==> exists i :: OccursAt(s, sub, i)
    decreases |s|
  {
    if |s| < |sub| then false
    else if s[..|sub|] == sub then (assert OccursAt(s, sub, 0); true)
    else (OccursShift(s, sub); Contains(s[1..], sub))
  }

  /** When `sub` does not start `s`, it occurs in `s` exactly when it occurs in `s[1..]`. */
  lemma OccursShift(s: string, sub: string)
    requires |sub| <= |s| && s[..|sub|] != sub
    ensures 0 < |s|
    ensures (exists i :: OccursAt(s, sub, i)) <==> (exists i :: OccursAt(s[1..], sub, i))
  {
    if exists i :: OccursAt(s, sub, i) {
      var i :| OccursAt(s, sub, i);
      assert i != 0;
      assert s[1..][i - 1..i - 1 + |sub|] == s[i..i + |sub|];
      assert OccursAt(s[1..], sub, i - 1);
    }
    if exists i :: OccursAt(s[1..], sub, i) {
      var i :| OccursAt(s[1..], sub, i);
      assert s[i + 1..i + 1 + |sub|] == s[1..][i..i + |sub|];
      assert OccursAt(s, sub, i + 1);
    }
  }

  /** `s` starts with `prefix`. */
  predicate StartsWith(s: string, prefix: string) {
    |prefix| <= |s| && s[..|prefix|] == prefix
  }

  /** `s` ends with `suffix`. */
  predicate EndsWith(s: string, suffix: string) {
    |suffix| <= |s| && s[|s| - |suffix|..] == suffix
  }

  /** The parts written one after another; long texts are spelled out this way, a piece at a time. */
  function Concat(parts: seq<string>): string {
    if |parts| == 0 then "" else parts[0] + Concat(parts[1..])
  }

  /** `parts` joined with `sep` between consecutive parts, as `Array.prototype.join`. */
  function Join(parts: seq<string>, sep: string): string {
    if |parts| == 0 then ""
    else if |parts| == 1 then parts[0]
    else parts[0] + sep + Join(parts[1..], sep)
  }

  /** A non-empty join ends with its last part. */
  lemma {:induction false} JoinEndsWithLast(parts: seq<string>, sep: string)
    requires |parts| > 0
    ensures EndsWith(Join(parts, sep), parts[|parts| - 1])
  {
    if |parts| > 1 {
      JoinEndsWithLast(parts[1..], sep);
      var tail := Join(parts[1..], sep);
      var last := parts[|parts| - 1];
      var whole := parts[0] + sep + tail;
      assert whole[|whole| - |last|..] == tail[|tail| - |last|..];
    }
  }

  /** A text ends with whatever it was given as its last piece. */
  lemma EndsWithAppended(prefix: string, suffix: string)
    ensures EndsWith(prefix + suffix, suffix)
  {
    assert (prefix + suffix)[|prefix|..] == suffix;
  }

  /** Ending with a text that ends with `suffix` means ending with `suffix`. */
  lemma EndsWithTrans(s: string, mid: string, suffix: string)
    requires EndsWith(s, mid) && EndsWith(mid, suffix)
    ensures EndsWith(s, suffix)
  {
    assert s[|s| - |suffix|..] == mid[|mid| - |suffix|..];
  }

  /** The decimal digit character for `d`. */
  function DigitChar(d: nat): char
    requires d < 10
  {
    "0123456789"[d]
  }

  /** Decimal rendering of a natural number, as JavaScript prints it. */
  function NatToString(n: nat): string
    decreases n
  {
    if n < 10 then [DigitChar(n)] else NatToString(n / 10) + [DigitChar(n % 10)]
  }

  /** Decimal rendering of an integer, as a template literal prints a JavaScript integer. */
  function IntToString(i: int): string {
    if i < 0 then "-" + NatToString(-i) else NatToString(i)
  }
}
