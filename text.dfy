/** Character-level helpers that the JavaScript runtime supplies to the handlers:
    substring search, `String.prototype.trim`, `String.prototype.toLowerCase`
    (ASCII letters only) and the decimal form `Number.prototype.toString` gives an integer. */
module Text {

  /** `p` occurs in `s` starting at index `i`. */
  ghost predicate OccursAt(s: string, p: string, i: nat) {
    i + |p| <= |s| && s[i..i + |p|] == p
  }

  /** `p` occurs in `s` as a contiguous run of characters. */
  ghost predicate Contains(s: string, p: string) {
    exists i: nat :: OccursAt(s, p, i)
  }

  /** What occurs in a part occurs in the whole. */
  lemma ContainsInLeft(a: string, b: string, p: string)
    requires Contains(a, p)
    ensures Contains(a + b, p)
  {
    var i: nat :| OccursAt(a, p, i);
    assert (a + b)[i..i + |p|] == a[i..i + |p|];
    assert OccursAt(a + b, p, i);
  }

  lemma ContainsInRight(a: string, b: string, p: string)
    requires Contains(b, p)
    ensures Contains(a + b, p)
  {
    var i: nat :| OccursAt(b, p, i);
    assert (a + b)[|a| + i..|a| + i + |p|] == b[i..i + |p|];
    assert OccursAt(a + b, p, |a| + i);
  }

  lemma ContainsSelf(p: string)
    ensures Contains(p, p)
  {
    assert p[0..|p|] == p;
    assert OccursAt(p, p, 0);
  }

  /** The string a template literal builds: its parts, in order. */
  function Concat(parts: seq<string>): string {
    if parts == [] then "" else parts[0] + Concat(parts[1..])
  }

  /** What occurs in one part of a template occurs in the whole. */
  lemma {:induction false} ContainsPart(parts: seq<string>, i: nat, p: string)
    requires i < |parts| && Contains(parts[i], p)
    ensures Contains(Concat(parts), p)
  {
    if i == 0 {
      ContainsInLeft(parts[0], Concat(parts[1..]), p);
    } else {
      ContainsPart(parts[1..], i - 1, p);
      ContainsInRight(parts[0], Concat(parts[1..]), p);
    }
  }

  /** Three consecutive parts of a template occur together in the whole. */
  lemma {:induction false} ContainsRun(parts: seq<string>, i: nat)
    requires i + 3 <= |parts|
    ensures Contains(Concat(parts), parts[i] + parts[i + 1] + parts[i + 2])
  {
    var w := parts[i] + parts[i + 1] + parts[i + 2];
    if i == 0 {
      var rest := Concat(parts[3..]);
      assert parts[1..][1..][1..] == parts[3..];
      calc {
        Concat(parts);
        parts[0] + Concat(parts[1..]);
        parts[0] + (parts[1] + Concat(parts[1..][1..]));
        parts[0] + (parts[1] + (parts[2] + rest));
        w + rest;
      }
      ContainsSelf(w);
      ContainsInLeft(w, rest, w);
    } else {
      ContainsRun(parts[1..], i - 1);
      assert parts[1..][i - 1] == parts[i] && parts[1..][i] == parts[i + 1] && parts[1..][i + 1] == parts[i + 2];
      ContainsInRight(parts[0], Concat(parts[1..]), w);
    }
  }

  /** The three parts of a concatenation can be sliced back out of it. */
  lemma SliceThree(a: string, b: string, c: string)
    ensures (a + b + c)[..|a|] == a
    ensures (a + b + c)[|a|..|a| + |b|] == b
    ensures (a + b + c)[|a| + |b|..] == c
  {
  }

  /** The characters `String.prototype.trim` strips: ECMAScript WhiteSpace
      (tab, vertical tab, form feed, space, no-break space, zero width no-break space
      and the Unicode Space_Separator characters) and LineTerminator (line feed,
      carriage return, line separator, paragraph separator). */
  predicate IsJsWhiteSpace(c: char) {
    c == '\t' || c == '\n' || c == '\U{000B}' || c == '\U{000C}' || c == '\r' || c == ' '
    || c == '\U{00A0}' || c == '\U{1680}' || ('\U{2000}' <= c <= '\U{200A}')
    || c == '\U{2028}' || c == '\U{2029}' || c == '\U{202F}' || c == '\U{205F}'
    || c == '\U{3000}' || c == '\U{FEFF}'
  }

  ghost predicate AllWhiteSpace(s: string) {
    forall i :: 0 <= i < |s| ==> IsJsWhiteSpace(s[i])
  }

  /** Drops the leading white space: what is left is a suffix that does not start with white space. */
  function TrimStart(s: string): (r: string)
    ensures |r| <= |s| && r == s[|s| - |r|..]
    ensures AllWhiteSpace(s[..|s| - |r|])
    ensures r == [] || !IsJsWhiteSpace(r[0])
  {
    if s != [] && IsJsWhiteSpace(s[0]) then TrimStart(s[1..]) else s
  }

  /** Drops the trailing white space: what is left is a prefix that does not end with white space. */
  function TrimEnd(s: string): (r: string)
    ensures |r| <= |s| && r == s[..|r|]
    ensures AllWhiteSpace(s[|r|..])
    ensures r == [] || !IsJsWhiteSpace(r[|r| - 1])
  {
    if s != [] && IsJsWhiteSpace(s[|s| - 1]) then TrimEnd(s[..|s| - 1]) else s
  }

  /** `r` is `s` with its white space removed from both ends: `s` is `r` with only
      white space around it, and `r` neither starts nor ends with white space. */
  ghost predicate IsTrimOf(s: string, r: string) {
    (r == [] || (!IsJsWhiteSpace(r[0]) && !IsJsWhiteSpace(r[|r| - 1])))
    && exists k :: 0 <= k <= |s| - |r| && s[k..k + |r|] == r
                   && AllWhiteSpace(s[..k]) && AllWhiteSpace(s[k + |r|..])
  }

  /** `String.prototype.trim`. */
  function Trim(s: string): (r: string)
    ensures IsTrimOf(s, r)
  {
    TrimStartThenEnd(s);
    TrimEnd(TrimStart(s))
  }

  /** Stripping the front of `s`, then the back of what is left, strips `s` at both ends. */
  lemma TrimStartThenEnd(s: string)
    ensures IsTrimOf(s, TrimEnd(TrimStart(s)))
  {
    var t := TrimStart(s);
    var r := TrimEnd(t);
    StripBothEnds(s, t, r);
  }

  /** Stripping the front of `s` to `t`, then the back of `t` to `r`, strips `s` to `r`. */
  lemma StripBothEnds(s: string, t: string, r: string)
    requires |t| <= |s| && t == s[|s| - |t|..] && AllWhiteSpace(s[..|s| - |t|])
    requires t == [] || !IsJsWhiteSpace(t[0])
    requires |r| <= |t| && r == t[..|r|] && AllWhiteSpace(t[|r|..])
    requires r == [] || !IsJsWhiteSpace(r[|r| - 1])
    ensures IsTrimOf(s, r)
  {
    var k := |s| - |t|;
    assert s[k..k + |r|] == r;
    assert s[k + |r|..] == t[|r|..];
    assert r != [] ==> r[0] == t[0];
    TrimAt(s, r, k);
  }

  /** A position `k` where `r` occurs with only white space around it witnesses `IsTrimOf`. */
  lemma TrimAt(s: string, r: string, k: nat)
    requires r == [] || (!IsJsWhiteSpace(r[0]) && !IsJsWhiteSpace(r[|r| - 1]))
    requires k + |r| <= |s| && s[k..k + |r|] == r && AllWhiteSpace(s[..k]) && AllWhiteSpace(s[k + |r|..])
    ensures IsTrimOf(s, r)
  {
  }

  /** Every character of `s` before a trim witness `k` is white space, and none at or after it is
      until the trimmed text ends. */
  lemma TrimWitness(s: string, r: string, k: nat)
    requires IsTrimOf(s, r)
    requires k + |r| <= |s| && s[k..k + |r|] == r && AllWhiteSpace(s[..k]) && AllWhiteSpace(s[k + |r|..])
    ensures forall j :: 0 <= j < k ==> IsJsWhiteSpace(s[j])
    ensures forall j :: k + |r| <= j < |s| ==> IsJsWhiteSpace(s[j])
    ensures r != [] ==> !IsJsWhiteSpace(s[k]) && !IsJsWhiteSpace(s[k + |r| - 1])
  {
    forall j | 0 <= j < k ensures IsJsWhiteSpace(s[j]) {
      assert s[..k][j] == s[j];
    }
    forall j | k + |r| <= j < |s| ensures IsJsWhiteSpace(s[j]) {
      assert s[k + |r|..][j - k - |r|] == s[j];
    }
    if r != [] {
      assert r[0] == s[k] && r[|r| - 1] == s[k + |r| - 1];
    }
  }

  /** The trimmed form of a string is unique: `IsTrimOf` determines `Trim`. */
  lemma TrimUnique(s: string, r1: string, r2: string)
    requires IsTrimOf(s, r1) && IsTrimOf(s, r2)
    ensures r1 == r2
  {
    var k1: nat :| k1 <= |s| - |r1| && s[k1..k1 + |r1|] == r1
                   && AllWhiteSpace(s[..k1]) && AllWhiteSpace(s[k1 + |r1|..]);
    var k2: nat :| k2 <= |s| - |r2| && s[k2..k2 + |r2|] == r2
                   && AllWhiteSpace(s[..k2]) && AllWhiteSpace(s[k2 + |r2|..]);
    TrimWitness(s, r1, k1);
    TrimWitness(s, r2, k2);
    // Non-empty trims start at the first non-white-space character and end after the last one;
    // an empty trim leaves only white space, so the other cannot be non-empty.
    if r1 != [] && r2 != [] {
      assert k1 == k2;
      assert k1 + |r1| == k2 + |r2|;
    }
  }

  /** White space around a string that neither starts nor ends with white space is exactly
      what `trim` removes. */
  lemma TrimOfPadded(before: string, word: string, after: string)
    requires AllWhiteSpace(before) && AllWhiteSpace(after)
    requires word == [] || (!IsJsWhiteSpace(word[0]) && !IsJsWhiteSpace(word[|word| - 1]))
    ensures Trim(before + word + after) == word
  {
    var s := before + word + after;
    var k := |before|;
    assert s[k..k + |word|] == word && s[..k] == before && s[k + |word|..] == after;
    TrimAt(s, word, k);
    TrimUnique(s, word, Trim(s));
  }

  /** A string that neither starts nor ends with white space is its own trim. */
  lemma TrimOfTrimmed(s: string)
    requires s == [] || (!IsJsWhiteSpace(s[0]) && !IsJsWhiteSpace(s[|s| - 1]))
    ensures Trim(s) == s
  {
    assert s[0..0 + |s|] == s && s[..0] == [] && s[|s|..] == [];
    assert IsTrimOf(s, s);
    TrimUnique(s, s, Trim(s));
  }

  /** `toLowerCase` restricted to ASCII: `A`..`Z` become `a`..`z`, every other character is kept. */
  function LowerChar(c: char): char {
    if 'A' <= c <= 'Z' then (c as int + 32) as char else c
  }

  function ToLowerAscii(s: string): (r: string)
    ensures |r| == |s| && forall i :: 0 <= i < |s| ==> r[i] == LowerChar(s[i])
  {
    if s == [] then [] else [LowerChar(s[0])] + ToLowerAscii(s[1..])
  }

  /** Lowercasing leaves a string with no upper-case ASCII letter unchanged. */
  lemma ToLowerAsciiOfLower(s: string)
    requires forall i :: 0 <= i < |s| ==> !('A' <= s[i] <= 'Z')
    ensures ToLowerAscii(s) == s
  {
  }

  predicate IsDigit(c: char) { '0' <= c <= '9' }

  function DigitChar(d: nat): (c: char)
    requires d < 10
    ensures IsDigit(c) && c as int - '0' as int == d
  {
    (d + '0' as int) as char
  }

  function DigitValue(c: char): (d: nat)
    requires IsDigit(c)
    ensures d < 10 && DigitChar(d) == c
  {
    c as int - '0' as int
  }

  /** Decimal digits of a natural number, most significant first, without leading zeros. */
  function NatToString(n: nat): (r: string)
    ensures 1 <= |r|
    ensures forall i :: 0 <= i < |r| ==> IsDigit(r[i])
    ensures r[0] == '0' ==> n == 0 && r == "0"
    decreases n
  {
    if n < 10 then [DigitChar(n)] else NatToString(n / 10) + [DigitChar(n % 10)]
  }

  /** The number a string of decimal digits denotes; the inverse of `NatToString`. */
  function DecimalValue(s: string): nat
    requires forall i :: 0 <= i < |s| ==> IsDigit(s[i])
  {
    if s == [] then 0 else 10 * DecimalValue(s[..|s| - 1]) + DigitValue(s[|s| - 1])
  }

  lemma {:induction false} DecimalRoundTrip(n: nat)
    ensures DecimalValue(NatToString(n)) == n
    decreases n
  {
    if n >= 10 {
      var s := NatToString(n);
      assert s[..|s| - 1] == NatToString(n / 10);
      DecimalRoundTrip(n / 10);
    }
  }

  /** `String(n)` for an integer `n`: a minus sign before the digits of a negative number. */
  function IntToString(n: int): string {
    if n < 0 then "-" + NatToString(-n) else NatToString(n)
  }
}
