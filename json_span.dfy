/** Locating the JSON object embedded in free text: `content.match(/\{[\s\S]*\}/)`.
    Under the ECMAScript regular-expression semantics (ECMA-262, section 22.2) a non-global
    match tries each start position from the left, and at a start the greedy `[\s\S]*` first
    takes every remaining character and gives them back one at a time until a `}` can follow.
    `SearchFrom` follows those steps literally; `ExtractJsonSpan` computes the same match
    from the first `{` and the last `}`, and `ExtractJsonSpanIsRegexMatch` proves them equal. */
module JsonSpan {
  import opened Js

  /** What `String.prototype.match` returns for a non-global pattern: the start of the
      match (`index`) and the matched text (`[0]`). */
  datatype RegexMatch = RegexMatch(index: nat, text: string)

  /** The first position at or after `from` holding `c`. */
  function IndexOf(s: string, c: char, from: nat): (r: Option<nat>)
    requires from <= |s|
    ensures r.Some? ==> from <= r.value < |s| && s[r.value] == c
    ensures r.Some? ==> forall k :: from <= k < r.value ==> s[k] != c
    ensures r.None? ==> forall k :: from <= k < |s| ==> s[k] != c
    decreases |s| - from
  {
    if from == |s| then None
    else if s[from] == c then Some(from)
    else IndexOf(s, c, from + 1)
  }

  /** The last position before `upto` holding `c`. */
  function LastIndexOf(s: string, c: char, upto: nat): (r: Option<nat>)
    requires upto <= |s|
    ensures r.Some? ==> r.value < upto && s[r.value] == c
    ensures r.Some? ==> forall k :: r.value < k < upto ==> s[k] != c
    ensures r.None? ==> forall k :: 0 <= k < upto ==> s[k] != c
  {
    if upto == 0 then None
    else if s[upto - 1] == c then Some(upto - 1)
    else LastIndexOf(s, c, upto - 1)
  }

  /** The text between `m.index` and the end of the match is `m.text`. */
  ghost predicate Spans(content: string, m: RegexMatch) {
    m.index + |m.text| <= |content| && content[m.index..m.index + |m.text|] == m.text
  }

  /** The match: from the first `{` to the last `}`, when that `}` comes after the `{`. */
  function ExtractJsonSpan(content: string): (m: Option<RegexMatch>)
    ensures m.Some? ==> Spans(content, m.value)
    ensures m.Some? ==> |m.value.text| >= 2 && m.value.text[0] == '{' && m.value.text[|m.value.text| - 1] == '}'
    ensures m.Some? ==> forall k :: 0 <= k < m.value.index ==> content[k] != '{'
    ensures m.Some? ==> forall k :: m.value.index + |m.value.text| <= k < |content| ==> content[k] != '}'
    ensures m.None? <==> forall i, j :: 0 <= i < j < |content| && content[i] == '{' ==> content[j] != '}'
  {
    match IndexOf(content, '{', 0)
    case None => None
    case Some(i) =>
      match LastIndexOf(content, '}', |content|)
      case Some(j) => if i < j then Some(RegexMatch(i, content[i..j + 1])) else None
      case None => None
  }

  /** The pattern matches at `i` with `[\s\S]*` consuming exactly `k` characters. */
  predicate MatchesAt(s: string, i: nat, k: nat) {
    i + k + 2 <= |s| && s[i] == '{' && s[i + k + 1] == '}'
  }

  /** The greedy star at start `i`: tries `k`, then `k - 1`, ... down to 0 characters, and keeps
      the first count after which `}` matches. */
  function Backtrack(s: string, i: nat, k: nat): (r: Option<nat>)
    ensures r.Some? ==> r.value <= k && MatchesAt(s, i, r.value)
    ensures r.Some? ==> forall k' :: r.value < k' <= k ==> !MatchesAt(s, i, k')
    ensures r.None? ==> forall k' :: 0 <= k' <= k ==> !MatchesAt(s, i, k')
    decreases k
  {
    if MatchesAt(s, i, k) then Some(k)
    else if k == 0 then None
    else Backtrack(s, i, k - 1)
  }

  /** The regular-expression search from start position `i` on: at each start, `{` must match,
      then the star first takes all remaining characters and backtracks. */
  function SearchFrom(s: string, i: nat): Option<RegexMatch>
    requires i <= |s|
    decreases |s| - i
  {
    if i == |s| then None
    else if s[i] == '{' then
      match Backtrack(s, i, |s| - i - 1)
      case Some(k) => Some(RegexMatch(i, s[i..i + k + 2]))
      case None => SearchFrom(s, i + 1)
    else SearchFrom(s, i + 1)
  }

  /** From any start `i`, the regular-expression search finds the first `{` at or after `i`
      and the last `}` of the text, or nothing when that `}` does not follow the `{`. */
  lemma {:induction false} SearchFromFirstToLast(s: string, i: nat)
    requires i <= |s|
    ensures SearchFrom(s, i) ==
              match IndexOf(s, '{', i)
              case None => None
              case Some(p) =>
                match LastIndexOf(s, '}', |s|)
                case Some(q) => if p < q then Some(RegexMatch(p, s[p..q + 1])) else None
                case None => None
    decreases |s| - i
  {
    if i < |s| {
      if s[i] == '{' {
        var last := LastIndexOf(s, '}', |s|);
        match Backtrack(s, i, |s| - i - 1)
        case Some(k) =>
          // The longest count that works ends the match at the last `}`.
          assert last.Some? && last.value == i + k + 1 by {
            assert s[i + k + 1] == '}';
            if last.value > i + k + 1 {
              assert MatchesAt(s, i, last.value - i - 1);
            }
          }
        case None =>
          // No `}` after this `{`, so none after any later `{` either.
          if last.Some? && last.value > i {
            assert MatchesAt(s, i, last.value - i - 1);
          }
          SearchFromFirstToLast(s, i + 1);
      } else {
        SearchFromFirstToLast(s, i + 1);
      }
    }
  }

  /** `ExtractJsonSpan` is exactly the leftmost, greedy match of `\{[\s\S]*\}`. */
  lemma ExtractJsonSpanIsRegexMatch(content: string)
    ensures ExtractJsonSpan(content) == SearchFrom(content, 0)
  {
    SearchFromFirstToLast(content, 0);
  }

  /** A reply that wraps one object in prose without braces yields exactly that object,
      at the position where it starts. */
  lemma SpanOfWrappedObject(prefix: string, obj: string, suffix: string)
    requires |obj| >= 2 && obj[0] == '{' && obj[|obj| - 1] == '}'
    requires forall k :: 0 <= k < |prefix| ==> prefix[k] != '{'
    requires forall k :: 0 <= k < |suffix| ==> suffix[k] != '}'
    ensures ExtractJsonSpan(prefix + obj + suffix) == Some(RegexMatch(|prefix|, obj))
  {
    var s := prefix + obj + suffix;
    var first := |prefix|;
    var last := |prefix| + |obj| - 1;
    assert s[first] == '{' && s[last] == '}';
    assert forall k :: 0 <= k < first ==> s[k] == prefix[k];
    assert forall k :: last < k < |s| ==> s[k] == suffix[k - last - 1];
    var m := ExtractJsonSpan(s);
    assert m.Some?;
    assert m.value.index == first;
    assert s[first..last + 1] == obj;
  }

  /** With two objects in the reply, the greedy match runs from the first `{` to the last `}`,
      taking in the text between them. */
  lemma SpanOfTwoObjects()
    ensures ExtractJsonSpan("{\"a\": 1} and {\"b\": 2}") == Some(RegexMatch(0, "{\"a\": 1} and {\"b\": 2}"))
  {
    var s := "{\"a\": 1} and {\"b\": 2}";
    assert s[0] == '{' && s[|s| - 1] == '}';
    assert s[0..|s|] == s;
  }
}
