/**
 * The JavaScript string operations the application relies on: `trim`, `includes`,
 * `split(sep).pop()`, `toLowerCase`, the `||` fallback on strings and the decimal
 * rendering of a millisecond timestamp.
 */
module Text {
  import opened Wrappers

  /** ECMAScript WhiteSpace and LineTerminator code points: what `String.prototype.trim` strips. */
  predicate IsWhitespace(c: char) {
    c == ' ' || c == '\t' || c == '\n' || c == '\r' || c == '\U{000B}' || c == '\U{000C}'
    || c == '\U{00A0}' || c == '\U{1680}' || ('\U{2000}' <= c <= '\U{200A}')
    || c == '\U{2028}' || c == '\U{2029}' || c == '\U{202F}' || c == '\U{205F}'
    || c == '\U{3000}' || c == '\U{FEFF}'
  }

  predicate AllWhitespace(s: string) {
    forall k :: 0 <= k < |s| ==> IsWhitespace(s[k])
  }

  /**
   * `s.trim()`: whitespace removed from both ends, one character at a time. The result has no
   * whitespace at either end and is empty iff `s` is all whitespace.
   */
  function Trim(s: string): (r: string)
    ensures |r| <= |s|
    ensures r == [] || (!IsWhitespace(r[0]) && !IsWhitespace(r[|r| - 1]))
    ensures r == [] <==> AllWhitespace(s)
  {
    if s == [] then []
    else if IsWhitespace(s[0]) then Trim(s[1..])
    else if IsWhitespace(s[|s| - 1]) then Trim(s[..|s| - 1])
    else s
  }

  /** `s[i..j]` with only whitespace around it in `s`. */
  predicate WhitespaceAround(s: string, i: int, j: int) {
    0 <= i <= j <= |s| && AllWhitespace(s[..i]) && AllWhitespace(s[j..])
  }

  lemma DropFirst(s: string, i: int, j: int)
    requires s != [] && IsWhitespace(s[0]) && WhitespaceAround(s[1..], i, j)
    ensures WhitespaceAround(s, i + 1, j + 1) && s[1..][i..j] == s[i + 1..j + 1]
  {
    assert s[..i + 1] == [s[0]] + s[1..][..i];
    assert s[j + 1..] == s[1..][j..];
  }

  lemma DropLast(s: string, i: int, j: int)
    requires s != [] && IsWhitespace(s[|s| - 1]) && WhitespaceAround(s[..|s| - 1], i, j)
    ensures WhitespaceAround(s, i, j) && s[..|s| - 1][i..j] == s[i..j]
  {
    assert s[..i] == s[..|s| - 1][..i];
    assert s[j..] == s[..|s| - 1][j..] + [s[|s| - 1]];
  }

  /** What `Trim` removes is whitespace, and what it keeps is one contiguous piece of `s`. */
  lemma {:induction false} TrimIsSlice(s: string)
    ensures exists i, j :: WhitespaceAround(s, i, j) && Trim(s) == s[i..j]
  {
    if s == [] {
      assert WhitespaceAround(s, 0, 0) && Trim(s) == s[0..0];
    } else if IsWhitespace(s[0]) {
      TrimIsSlice(s[1..]);
      var i, j :| WhitespaceAround(s[1..], i, j) && Trim(s[1..]) == s[1..][i..j];
      DropFirst(s, i, j);
    } else if IsWhitespace(s[|s| - 1]) {
      TrimIsSlice(s[..|s| - 1]);
      var i, j :| WhitespaceAround(s[..|s| - 1], i, j) && Trim(s[..|s| - 1]) == s[..|s| - 1][i..j];
      DropLast(s, i, j);
    } else {
      assert WhitespaceAround(s, 0, |s|) && Trim(s) == s[0..|s|];
    }
  }

  /** Text with no whitespace at either end is left as it is; so trimming twice is trimming once. */
  lemma TrimKeepsBareText(s: string)
    ensures s == [] || (!IsWhitespace(s[0]) && !IsWhitespace(s[|s| - 1])) ==> Trim(s) == s
    ensures Trim(Trim(s)) == Trim(s)
  {
  }

  /** JavaScript's `!s.trim()`: the field holds nothing but whitespace (`Trim` says the two agree). */
  predicate Blank(s: string) {
    AllWhitespace(s)
  }

  /** `s.trim() || null`: the trimmed text, or nothing when it is empty. */
  function TrimmedOrNull(s: string): (r: Option<string>)
    ensures r.None? <==> Blank(s)
    ensures r.Some? ==> r.value == Trim(s) && r.value != []
  {
    var t := Trim(s);
    if t == [] then None else Some(t)
  }

  /** JavaScript's `s || fallback` on a string that may be missing (`null`/`undefined`) or empty. */
  function OrElse(s: Option<string>, fallback: string): (r: string)
    ensures s.Some? && s.value != [] ==> r == s.value
    ensures s.None? || s.value == [] ==> r == fallback
  {
    if s.Some? && s.value != [] then s.value else fallback
  }

  /** JavaScript truthiness of a possibly missing string. */
  predicate Truthy(s: Option<string>) {
    s.Some? && s.value != []
  }

  predicate OccursAt(s: string, t: string, i: int) {
    0 <= i <= |s| - |t| && s[i..i + |t|] == t
  }

  /** `s.includes(t)`, scanning left to right. */
  function Includes(s: string, t: string): (r: bool)
    ensures r <==> exists i :: OccursAt(s, t, i)
    decreases |s|
  {
    if |t| > |s| then
      assert forall i :: !OccursAt(s, t, i);
      false
    else if s[..|t|] == t then
      assert OccursAt(s, t, 0);
      true
    else
      var r := Includes(s[1..], t);
      assert r ==> exists i :: OccursAt(s, t, i) by {
        if r {
          var j :| OccursAt(s[1..], t, j);
          assert s[j + 1..j + 1 + |t|] == s[1..][j..j + |t|];
          assert OccursAt(s, t, j + 1);
        }
      }
      assert (exists i :: OccursAt(s, t, i)) ==> r by {
        if exists i :: OccursAt(s, t, i) {
          var i :| OccursAt(s, t, i);
          assert i != 0;
          assert s[1..][i - 1..i - 1 + |t|] == s[i..i + |t|];
          assert OccursAt(s[1..], t, i - 1);
        }
      }
      r
  }

  /** `s.split(sep).pop()`: the longest suffix of `s` free of `sep`. */
  function AfterLast(s: string, sep: char): (r: string)
    ensures |r| <= |s| && r == s[|s| - |r|..]
    ensures sep !in r
    ensures |r| < |s| ==> s[|s| - |r| - 1] == sep
  {
    if s == [] || s[|s| - 1] == sep then [] else AfterLast(s[..|s| - 1], sep) + [s[|s| - 1]]
  }

  /** Whatever precedes the last `sep`, the text after it is recovered exactly. */
  lemma {:induction false} AfterLastOfJoin(prefix: string, sep: char, suffix: string)
    requires sep !in suffix
    ensures AfterLast(prefix + [sep] + suffix, sep) == suffix
  {
    var s := prefix + [sep] + suffix;
    if suffix != [] {
      var init := suffix[..|suffix| - 1];
      assert s[..|s| - 1] == prefix + [sep] + init;
      assert sep !in init by { assert forall c :: c in init ==> c in suffix; }
      AfterLastOfJoin(prefix, sep, init);
      assert init + [suffix[|suffix| - 1]] == suffix;
    }
  }

  function LowerChar(c: char): char {
    if 'A' <= c <= 'Z' then (c as int + 32) as char else c
  }

  /** `s.toLowerCase()` on the ASCII letters; every other character is kept. */
  function ToLower(s: string): (r: string)
    ensures |r| == |s|
    ensures forall k :: 0 <= k < |s| ==> r[k] == LowerChar(s[k])
  {
    if s == [] then [] else [LowerChar(s[0])] + ToLower(s[1..])
  }

  lemma ToLowerKeepsAbsent(s: string, c: char)
    requires c !in s && !('A' <= c <= 'Z') && !('a' <= c <= 'z')
    ensures c !in ToLower(s)
  {
    forall k | 0 <= k < |s| ensures ToLower(s)[k] != c {
      assert s[k] != c;
    }
  }

  function DigitChar(d: nat): (c: char)
    requires d < 10
    ensures '0' <= c <= '9' && c as int - '0' as int == d
  {
    ('0' as int + d) as char
  }

  /** `n.toString()` for a non-negative integer: decimal digits only, never empty. */
  function NatToString(n: nat): (r: string)
    ensures |r| > 0
    ensures forall k :: 0 <= k < |r| ==> '0' <= r[k] <= '9'
  {
    if n < 10 then [DigitChar(n)] else NatToString(n / 10) + [DigitChar(n % 10)]
  }

  /** Different numbers render as different strings, so two distinct timestamps give distinct text. */
  lemma {:induction false} NatToStringInjective(a: nat, b: nat)
    requires NatToString(a) == NatToString(b)
    ensures a == b
  {
    var r := NatToString(a);
    if a < 10 && b < 10 {
      assert DigitChar(a) == r[0] == DigitChar(b);
    } else if a >= 10 && b >= 10 {
      var ra, rb := NatToString(a / 10), NatToString(b / 10);
      assert ra + [DigitChar(a % 10)] == rb + [DigitChar(b % 10)];
      assert DigitChar(a % 10) == r[|r| - 1] == DigitChar(b % 10);
      assert ra == r[..|r| - 1] == rb;
      NatToStringInjective(a / 10, b / 10);
    } else {
      assert false;
    }
  }
}
