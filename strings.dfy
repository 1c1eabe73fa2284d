/**
 * The handful of Python `str` operations the scraper relies on, over `seq<char>`.
 * Case mapping covers ASCII letters only; the whitespace set is the whole of
 * what `str.strip()` removes.
 */
module Strings {

  import opened Wrappers

  predicate IsUpper(c: char) { 'A' <= c <= 'Z' }

  predicate IsDigit(c: char) { '0' <= c <= '9' }

  /**
   * The characters `str.strip()` removes: those `str.isspace()` accepts, the
   * ASCII controls and space together with the Unicode separators.
   */
  predicate IsSpace(c: char) {
    ('\t' <= c <= '\r') || ('\U{1C}' <= c <= ' ') || c == '\U{85}' || c == '\U{A0}' || c == '\U{1680}'
    || ('\U{2000}' <= c <= '\U{200A}') || ('\U{2028}' <= c <= '\U{2029}') || c == '\U{202F}'
    || c == '\U{205F}' || c == '\U{3000}'
  }

  function LowerChar(c: char): (r: char)
    ensures !IsUpper(r)
    ensures IsUpper(c) ==> r as int == c as int + 32
    ensures !IsUpper(c) ==> r == c
  {
    if IsUpper(c) then (c as int + 32) as char else c
  }

  /** No upper-case ASCII letter occurs in `s`. */
  predicate IsLower(s: string) {
    forall i :: 0 <= i < |s| ==> !IsUpper(s[i])
  }

  /** `s.lower()`: every character mapped through LowerChar, nothing else changed. */
  function Lower(s: string): (r: string)
    ensures |r| == |s|
    ensures forall i :: 0 <= i < |s| ==> r[i] == LowerChar(s[i])
    ensures IsLower(r)
  {
    if s == [] then [] else [LowerChar(s[0])] + Lower(s[1..])
  }

  lemma {:induction false} LowerIdempotent(s: string)
    requires IsLower(s)
    ensures Lower(s) == s
  {
    if s != [] {
      LowerIdempotent(s[1..]);
    }
  }

  lemma LowerAppend(a: string, b: string)
    ensures Lower(a + b) == Lower(a) + Lower(b)
  {
    assert forall i :: 0 <= i < |a + b| ==> Lower(a + b)[i] == (Lower(a) + Lower(b))[i];
  }

  predicate StartsWith(s: string, prefix: string) {
    |prefix| <= |s| && s[..|prefix|] == prefix
  }

  predicate EndsWith(s: string, suffix: string) {
    |suffix| <= |s| && s[|s| - |suffix|..] == suffix
  }

  /** `sub` occurs in `s` starting at index `i`. */
  predicate OccursAt(s: string, sub: string, i: int) {
    0 <= i <= |s| - |sub| && s[i..i + |sub|] == sub
  }

  /** Python's `sub in s`. */
  predicate Contains(s: string, sub: string) {
    exists i | 0 <= i <= |s| - |sub| :: OccursAt(s, sub, i)
  }

  /** An occurrence of `sub` in `s` is also one in any text that has `s` inside it. */
  lemma ContainsWithin(pre: string, s: string, post: string, sub: string)
    requires Contains(s, sub)
    ensures Contains(pre + s + post, sub)
  {
    var i: int :| OccursAt(s, sub, i);
    assert OccursAt(s, sub, i);
    var t := pre + s + post;
    assert t[|pre| + i..|pre| + i + |sub|] == sub;
    assert OccursAt(t, sub, |pre| + i);
  }

  /** A prefix is contained in the string it starts. */
  lemma PrefixContained(s: string, prefix: string)
    requires StartsWith(s, prefix)
    ensures Contains(s, prefix)
  {
    assert OccursAt(s, prefix, 0);
  }

  /** Containment is transitive. */
  lemma ContainsTransitive(a: string, b: string, c: string)
    requires Contains(a, b) && Contains(b, c)
    ensures Contains(a, c)
  {
    var i: int :| OccursAt(a, b, i);
    assert OccursAt(a, b, i);
    var j: int :| OccursAt(b, c, j);
    assert OccursAt(b, c, j);
    forall k | 0 <= k < |c| ensures a[i + j + k] == c[k] {
      assert a[i..i + |b|][j + k] == b[j + k];
      assert b[j..j + |c|][k] == c[k];
    }
    assert a[i + j..i + j + |c|] == c;
    assert OccursAt(a, c, i + j);
  }

  /** A string that contains `sub` contains its first character somewhere. */
  lemma ContainsFirstChar(s: string, sub: string)
    requires sub != [] && Contains(s, sub)
    ensures exists i :: 0 <= i < |s| && s[i] == sub[0]
  {
    var i: int :| OccursAt(s, sub, i);
    assert OccursAt(s, sub, i);
    assert s[i] == s[i..i + |sub|][0];
  }

  /** A pattern with a character that `s` lacks does not occur in `s`. */
  lemma MissingCharNotContained(s: string, sub: string, j: nat)
    requires j < |sub| && sub[j] !in s
    ensures !Contains(s, sub)
  {
  }

  /** Whether any of `patterns` occurs in `s` (Python's `any(p in s for p in patterns)`). */
  predicate ContainsAny(s: string, patterns: seq<string>) {
    exists k :: 0 <= k < |patterns| && Contains(s, patterns[k])
  }

  /** `any(p.lower() in s.lower() for p in patterns)`: a pattern occurs, ignoring case. */
  predicate MentionsAny(s: string, patterns: seq<string>) {
    exists k | 0 <= k < |patterns| :: Contains(Lower(s), Lower(patterns[k]))
  }

  /** A pattern found in a page is still found once more text is appended. */
  lemma MentionsAnyExtend(a: string, b: string, patterns: seq<string>)
    requires MentionsAny(a, patterns)
    ensures MentionsAny(a + b, patterns)
  {
    var k :| 0 <= k < |patterns| && Contains(Lower(a), Lower(patterns[k]));
    var sub := Lower(patterns[k]);
    var i: int :| OccursAt(Lower(a), sub, i);
    assert OccursAt(Lower(a), sub, i);
    LowerAppend(a, b);
    assert Lower(a + b)[i..i + |sub|] == Lower(a)[i..i + |sub|];
    assert OccursAt(Lower(a + b), sub, i);
  }

  /** Every character of `w` is whitespace. */
  predicate AllSpace(w: string) {
    forall k :: 0 <= k < |w| ==> IsSpace(w[k])
  }

  /** `s.lstrip(chars)` for the whitespace set. */
  function TrimStart(s: string): (r: string)
    ensures |r| <= |s| && r == s[|s| - |r|..]
    ensures r == [] || !IsSpace(r[0])
  {
    if s != [] && IsSpace(s[0]) then TrimStart(s[1..]) else s
  }

  /** `s.rstrip()` for the whitespace set. */
  function TrimEnd(s: string): (r: string)
    ensures |r| <= |s| && r == s[..|r|]
    ensures r == [] || !IsSpace(r[|r| - 1])
  {
    if s != [] && IsSpace(s[|s| - 1]) then TrimEnd(s[..|s| - 1]) else s
  }

  /**
   * `s.strip()`: the slice of `s` left once the whitespace at both ends is cut
   * off; it neither starts nor ends with whitespace, and everything outside it
   * is whitespace.
   */
  function Strip(s: string): (r: string)
    ensures |r| <= |s|
    ensures Contains(s, r)
    ensures r == [] || (!IsSpace(r[0]) && !IsSpace(r[|r| - 1]))
    ensures CutAt(s, |s| - |TrimStart(s)|, r)
  {
    TrimmedFacts(s);
    TrimEnd(TrimStart(s))
  }

  /** What `lstrip` cuts off is whitespace. */
  lemma {:induction false} TrimStartCutsSpaces(s: string)
    ensures AllSpace(s[..|s| - |TrimStart(s)|])
  {
    if s != [] && IsSpace(s[0]) {
      TrimStartCutsSpaces(s[1..]);
      assert s[..|s| - |TrimStart(s)|] == [s[0]] + s[1..][..|s[1..]| - |TrimStart(s[1..])|];
    }
  }

  /** What `rstrip` cuts off is whitespace. */
  lemma {:induction false} TrimEndCutsSpaces(s: string)
    ensures AllSpace(s[|TrimEnd(s)|..])
  {
    if s != [] && IsSpace(s[|s| - 1]) {
      var init := s[..|s| - 1];
      TrimEndCutsSpaces(init);
      assert s[|TrimEnd(s)|..] == init[|TrimEnd(init)|..] + [s[|s| - 1]];
    }
  }

  /** `r` is the slice of `s` at `i`, and everything around it is whitespace. */
  predicate CutAt(s: string, i: int, r: string) {
    0 <= i && i + |r| <= |s| && s[i..i + |r|] == r && AllSpace(s[..i]) && AllSpace(s[i + |r|..])
  }

  /** A tail `t` of `s` cut back to its prefix `r`: `r` sits at `|s| - |t|`, with what was cut around it. */
  lemma CutOfTailPrefix(s: string, t: string, r: string)
    requires |r| <= |t| <= |s| && t == s[|s| - |t|..] && r == t[..|r|]
    requires AllSpace(s[..|s| - |t|]) && AllSpace(t[|r|..])
    requires t == [] || !IsSpace(t[0])
    requires r == [] || !IsSpace(r[|r| - 1])
    ensures CutAt(s, |s| - |t|, r) && OccursAt(s, r, |s| - |t|)
    ensures r == [] || (!IsSpace(r[0]) && !IsSpace(r[|r| - 1]))
  {
    var i := |s| - |t|;
    assert s[i..][..|r|] == s[i..i + |r|];
    assert s[i + |r|..] == t[|r|..];
  }

  /** Trimming both ends leaves a slice of `s` with only whitespace around it. */
  lemma TrimmedFacts(s: string)
    ensures var t := TrimStart(s); var r := TrimEnd(t);
            CutAt(s, |s| - |t|, r) && OccursAt(s, r, |s| - |t|)
            && (r == [] || (!IsSpace(r[0]) && !IsSpace(r[|r| - 1])))
  {
    var t := TrimStart(s);
    var r := TrimEnd(t);
    TrimStartCutsSpaces(s);
    TrimEndCutsSpaces(t);
    CutOfTailPrefix(s, t, r);
  }

  /** Whitespace appended to a text is what `rstrip` takes off again. */
  lemma {:induction false} TrimEndDropsSpaces(s: string, ws: string)
    requires forall i :: 0 <= i < |ws| ==> IsSpace(ws[i])
    ensures TrimEnd(s + ws) == TrimEnd(s)
    decreases |ws|
  {
    if ws != [] {
      var shorter := ws[..|ws| - 1];
      assert (s + ws)[|s + ws| - 1] == ws[|ws| - 1];
      assert (s + ws)[..|s + ws| - 1] == s + shorter;
      TrimEndDropsSpaces(s, shorter);
    } else {
      assert s + ws == s;
    }
  }

  /** `(s + ws).strip() == s` for a text `s` already free of outer whitespace. */
  lemma StripDropsTrailingSpaces(s: string, ws: string)
    requires s != [] && !IsSpace(s[0]) && !IsSpace(s[|s| - 1])
    requires forall i :: 0 <= i < |ws| ==> IsSpace(ws[i])
    ensures Strip(s + ws) == s
  {
    assert (s + ws)[0] == s[0];
    TrimEndDropsSpaces(s, ws);
  }

  /** Whitespace put in front of a text is what `lstrip` takes off again. */
  lemma {:induction false} TrimStartDropsSpaces(ws: string, s: string)
    requires s != [] && !IsSpace(s[0])
    requires forall k :: 0 <= k < |ws| ==> IsSpace(ws[k])
    ensures TrimStart(ws + s) == s
  {
    if ws == [] {
      assert ws + s == s;
    } else {
      assert (ws + s)[0] == ws[0];
      assert (ws + s)[1..] == ws[1..] + s;
      TrimStartDropsSpaces(ws[1..], s);
    }
  }

  /** `(pre + s + post).strip() == s` when `pre` and `post` are whitespace and `s` has none at its ends. */
  lemma StripDropsOuterSpaces(pre: string, s: string, post: string)
    requires s != [] && !IsSpace(s[0]) && !IsSpace(s[|s| - 1])
    requires forall k :: 0 <= k < |pre| ==> IsSpace(pre[k])
    requires forall k :: 0 <= k < |post| ==> IsSpace(post[k])
    ensures Strip(pre + s + post) == s
  {
    assert pre + s + post == pre + (s + post);
    TrimStartDropsSpaces(pre, s + post);
    TrimEndDropsSpaces(s, post);
  }

  /** The index of the first occurrence of `c`, or `|s|` when there is none. */
  function IndexOf(s: string, c: char): (k: nat)
    ensures k <= |s|
    ensures forall j :: 0 <= j < k ==> s[j] != c
    ensures k < |s| ==> s[k] == c
  {
    if s == [] then 0 else if s[0] == c then 0 else 1 + IndexOf(s[1..], c)
  }

  /** `s.split(c)[0]`: the text before the first `c`. */
  function BeforeFirst(s: string, c: char): (r: string)
    ensures StartsWith(s, r)
    ensures c !in r
    ensures |r| < |s| ==> s[|r|] == c
  {
    s[..IndexOf(s, c)]
  }

  /** `s.split(c)[-1]`: the text after the last `c`, or all of `s` when `c` does not occur. */
  function AfterLast(s: string, c: char): (r: string)
    ensures EndsWith(s, r)
    ensures c !in r
    ensures |r| < |s| ==> s[|s| - |r| - 1] == c
  {
    if s == [] then []
    else if s[|s| - 1] == c then []
    else AfterLast(s[..|s| - 1], c) + [s[|s| - 1]]
  }

  /** `sep.join(parts)`. */
  function Join(parts: seq<string>, sep: string): (r: string)
    ensures parts == [] ==> r == []
    ensures |parts| == 1 ==> r == parts[0]
  {
    if parts == [] then []
    else if |parts| == 1 then parts[0]
    else parts[0] + sep + Join(parts[1..], sep)
  }

  /** Every part occurs, unchanged, inside the joined text. */
  lemma {:induction false} JoinContainsPart(parts: seq<string>, sep: string, k: nat)
    requires k < |parts|
    ensures exists pre, post :: Join(parts, sep) == pre + parts[k] + post
  {
    if |parts| == 1 {
      assert Join(parts, sep) == [] + parts[0] + [];
    } else if k == 0 {
      assert Join(parts, sep) == [] + parts[0] + (sep + Join(parts[1..], sep));
    } else {
      JoinContainsPart(parts[1..], sep, k - 1);
      var pre, post :| Join(parts[1..], sep) == pre + parts[1..][k - 1] + post;
      assert Join(parts, sep) == (parts[0] + sep + pre) + parts[k] + post;
    }
  }

  /** The value of a run of decimal digits. */
  function DigitsValue(s: string): (n: nat)
    requires forall i :: 0 <= i < |s| ==> IsDigit(s[i])
  {
    if s == [] then 0
    else
      assert IsDigit(s[|s| - 1]);
      DigitsValue(s[..|s| - 1]) * 10 + (s[|s| - 1] as int - '0' as int)
  }

  predicate AllDigits(s: string) {
    s != [] && forall i :: 0 <= i < |s| ==> IsDigit(s[i])
  }

  /** Text `int()` accepts once stripped: decimal digits with an optional sign. */
  predicate IsIntLiteral(t: string) {
    AllDigits(t) || (|t| >= 2 && (t[0] == '+' || t[0] == '-') && AllDigits(t[1..]))
  }

  /**
   * `int(s)` on a string: surrounding whitespace, an optional sign, then decimal digits.
   * `None` stands for the `ValueError` that any other text raises.
   */
  function ParseInt(s: string): (r: Option<int>)
    ensures r.Some? <==> IsIntLiteral(Strip(s))
    ensures AllDigits(Strip(s)) ==> r == Some(DigitsValue(Strip(s)))
  {
    var t := Strip(s);
    if AllDigits(t) then Some(DigitsValue(t))
    else if IsIntLiteral(t) then
      var v: int := DigitsValue(t[1..]);
      Some(if t[0] == '-' then -v else v)
    else None
  }

  /** Python's ordering of `str` values: lexicographic by code point. */
  predicate LexLe(a: string, b: string) {
    if a == [] then true
    else if b == [] then false
    else if a[0] != b[0] then a[0] < b[0]
    else LexLe(a[1..], b[1..])
  }

  lemma {:induction false} LexLeTotal(a: string, b: string)
    ensures LexLe(a, b) || LexLe(b, a)
  {
    if a != [] && b != [] && a[0] == b[0] {
      LexLeTotal(a[1..], b[1..]);
    }
  }

  lemma {:induction false} LexLeTransitive(a: string, b: string, c: string)
    requires LexLe(a, b) && LexLe(b, c)
    ensures LexLe(a, c)
  {
    if a != [] && b != [] && c != [] && a[0] == b[0] && b[0] == c[0] {
      LexLeTransitive(a[1..], b[1..], c[1..]);
    }
  }

  lemma {:induction false} LexLeAntisymmetric(a: string, b: string)
    requires LexLe(a, b) && LexLe(b, a)
    ensures a == b
  {
    if a != [] && b != [] {
      LexLeAntisymmetric(a[1..], b[1..]);
      assert a == [a[0]] + a[1..];
      assert b == [b[0]] + b[1..];
    }
  }

}
