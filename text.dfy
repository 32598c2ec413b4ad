/** Character classes and string helpers with the meaning Python's `str`
    methods give them: `isspace`, `strip`, `splitlines`, `startswith`,
    ASCII `lower`, the `in` substring test and `split(sep)[0]`. */
module Text {

  /** The characters `str.isspace()` accepts (and `str.strip()` removes). */
  predicate IsSpace(c: char) {
    c == ' ' || ('\t' <= c <= '\r') || ('\U{1c}' <= c <= '\U{1f}') ||
    c == '\U{85}' || c == '\U{a0}' || c == '\U{1680}' ||
    ('\U{2000}' <= c <= '\U{200a}') || c == '\U{2028}' || c == '\U{2029}' ||
    c == '\U{202f}' || c == '\U{205f}' || c == '\U{3000}'
  }

  predicate NotSpace(c: char) { !IsSpace(c) }

  /** The line boundaries of `str.splitlines()`; `\r\n` counts as one. */
  predicate IsLineBreak(c: char) {
    c == '\n' || c == '\r' || c == '\U{0b}' || c == '\U{0c}' ||
    ('\U{1c}' <= c <= '\U{1e}') || c == '\U{85}' || c == '\U{2028}' || c == '\U{2029}'
  }

  predicate NoLineBreak(s: string) {
    forall k :: 0 <= k < |s| ==> !IsLineBreak(s[k])
  }

  /** The end of the longest run of characters satisfying `p` from `i`. */
  function SpanWhile(s: string, i: nat, p: char -> bool): (j: nat)
    requires i <= |s|
    ensures i <= j <= |s|
    ensures forall k :: i <= k < j ==> p(s[k])
    ensures j == |s| || !p(s[j])
    decreases |s| - i
  {
    if i == |s| || !p(s[i]) then i else SpanWhile(s, i + 1, p)
  }

  /** A run of `p` from `i` that stops at `j` is the span from `i`. */
  lemma SpanEndsAt(s: string, i: nat, j: nat, p: char -> bool)
    requires i <= j <= |s|
    requires forall k :: i <= k < j ==> p(s[k])
    requires j == |s| || !p(s[j])
    ensures SpanWhile(s, i, p) == j
  {
  }

  /** A slice that reads `x + y` splits into a slice for each. */
  lemma SliceSplit(s: string, i: nat, j: nat, x: string, y: string)
    requires i <= j <= |s| && s[i..j] == x + y
    ensures i + |x| <= j && s[i..i + |x|] == x && s[i + |x|..j] == y
  {
    assert s[i..i + |x|] == s[i..j][..|x|];
    assert s[i + |x|..j] == s[i..j][|x|..];
  }

  /** What holds of every character of a slice holds at each of its
      positions. */
  lemma SliceRun(s: string, a: nat, b: nat, p: char -> bool)
    requires a <= b <= |s| && forall k :: 0 <= k < b - a ==> p(s[a..b][k])
    ensures forall k :: a <= k < b ==> p(s[k])
  {
    forall k | a <= k < b ensures p(s[k]) {
      assert s[k] == s[a..b][k - a];
    }
  }

  /** The index of the first line break at or after `i`, or `|s|`. */
  function NextBreak(s: string, i: nat): (j: nat)
    requires i <= |s|
    ensures i <= j <= |s|
    ensures forall k :: i <= k < j ==> !IsLineBreak(s[k])
    ensures j == |s| || IsLineBreak(s[j])
  {
    SpanWhile(s, i, c => !IsLineBreak(c))
  }

  /** `s.splitlines()`: no empty line after a final break, none for "". */
  function SplitLines(s: string): (lines: seq<string>)
    ensures |lines| <= |s|
    ensures forall l :: l in lines ==> NoLineBreak(l)
    ensures s != [] && NoLineBreak(s) ==> lines == [s]
    decreases |s|
  {
    if s == [] then []
    else
      var i := NextBreak(s, 0);
      if i == |s| then [s]
      else
        var next := if s[i] == '\r' && i + 1 < |s| && s[i + 1] == '\n' then i + 2 else i + 1;
        [s[..i]] + SplitLines(s[next..])
  }

  /** The first line ends at the first break, which is dropped; a `\r`
      is a break of its own unless a `\n` follows it. */
  lemma SplitLinesAtBreak(a: string, b: char, c: string)
    requires NoLineBreak(a) && IsLineBreak(b)
    requires !(b == '\r' && c != [] && c[0] == '\n')
    ensures SplitLines(a + [b] + c) == [a] + SplitLines(c)
  {
    var s := a + [b] + c;
    assert forall k :: 0 <= k < |a| ==> s[k] == a[k];
    assert IsLineBreak(s[|a|]);
    assert NextBreak(s, 0) == |a|;
    assert s[..|a|] == a && s[|a| + 1..] == c;
  }

  /** `\r\n` ends a line as one break. */
  lemma SplitLinesAtCrlf(a: string, c: string)
    requires NoLineBreak(a)
    ensures SplitLines(a + "\r\n" + c) == [a] + SplitLines(c)
  {
    var s := a + "\r\n" + c;
    assert forall k :: 0 <= k < |a| ==> s[k] == a[k];
    assert IsLineBreak(s[|a|]);
    assert NextBreak(s, 0) == |a|;
    assert s[..|a|] == a && s[|a| + 2..] == c;
  }

  /** `s.strip()`: the slice left after dropping whitespace at both ends. */
  function Strip(s: string): (r: string)
    ensures exists i, j :: 0 <= i <= j <= |s| && r == s[i..j] &&
              (forall k :: 0 <= k < i ==> IsSpace(s[k])) &&
              (forall k :: j <= k < |s| ==> IsSpace(s[k]))
    ensures r != [] ==> NotSpace(r[0]) && NotSpace(r[|r| - 1])
    ensures |r| <= |s|
    ensures forall k :: 0 <= k < |r| ==> r[k] in s
  {
    var i := SpanWhile(s, 0, IsSpace);
    var j := LastNonSpaceEnd(s, i);
    s[i..j]
  }

  /** Stripping a string that has no whitespace at either end changes
      nothing. */
  lemma StripOfStripped(s: string)
    requires s != [] ==> NotSpace(s[0]) && NotSpace(s[|s| - 1])
    ensures Strip(s) == s
  {
    if s != [] {
      assert SpanWhile(s, 0, IsSpace) == 0;
      assert LastNonSpaceEnd(s, 0) == |s|;
    }
  }

  predicate AllSpace(s: string) {
    forall k :: 0 <= k < |s| ==> IsSpace(s[k])
  }

  /** Cutting a stripped line at a stop character and stripping again
      leaves nothing exactly when the line starts with a stop character;
      otherwise the result starts where the line does. */
  lemma StripBeforeHead(l: string, stop: char -> bool)
    requires l != [] && NotSpace(l[0])
    ensures Strip(Before(l, stop)) == [] <==> stop(l[0])
    ensures Strip(Before(l, stop)) != [] ==> Strip(Before(l, stop))[0] == l[0]
  {
    var b := Before(l, stop);
    if stop(l[0]) {
      assert |b| == 0;
    } else {
      assert |b| > 0 && b[0] == l[0];
      StripFrom(b, 0, 0);
    }
  }

  /** Where `strip` starts and how far it reaches: when `s[..i]` is all
      whitespace and `s[i]` and `s[p]` are not, the stripped text starts
      at `i`, reaches past `p`, and only whitespace follows it. */
  lemma StripFrom(s: string, i: nat, p: nat)
    requires i <= p < |s|
    requires AllSpace(s[..i]) && NotSpace(s[i]) && NotSpace(s[p])
    ensures p - i < |Strip(s)| && Strip(s) == s[i..i + |Strip(s)|]
    ensures AllSpace(s[i + |Strip(s)|..])
  {
    assert forall k :: 0 <= k < i ==> s[..i][k] == s[k];
    assert SpanWhile(s, 0, IsSpace) == i;
    var j := LastNonSpaceEnd(s, i);
    assert Strip(s) == s[i..j];
    assert forall k :: j <= k < |s| ==> s[j..][k - j] == s[k];
  }

  /** `strip` cuts exactly the whitespace around `s[i..j]` when that
      slice starts and ends with a non-space character. */
  lemma StripExact(s: string, i: nat, j: nat)
    requires i < j <= |s|
    requires forall k :: 0 <= k < i ==> IsSpace(s[k])
    requires forall k :: j <= k < |s| ==> IsSpace(s[k])
    requires NotSpace(s[i]) && NotSpace(s[j - 1])
    ensures Strip(s) == s[i..j]
  {
    assert SpanWhile(s, 0, IsSpace) == i;
    var e := LastNonSpaceEnd(s, i);
    assert NotSpace(s[e - 1]) by {
      assert e > i;
    }
    assert e == j;
  }

  /** Text between runs of whitespace strips to itself. */
  lemma StripPadded(ws: string, x: string, ws2: string)
    requires AllSpace(ws) && AllSpace(ws2)
    requires x != [] && NotSpace(x[0]) && NotSpace(x[|x| - 1])
    ensures Strip(ws + x + ws2) == x
  {
    var s := ws + x + ws2;
    var j := |ws| + |x|;
    assert forall k :: 0 <= k < |ws| ==> s[k] == ws[k];
    assert forall k :: j <= k < |s| ==> s[k] == ws2[k - j];
    assert s[|ws|] == x[0] && s[j - 1] == x[|x| - 1];
    StripExact(s, |ws|, j);
    assert s[|ws|..j] == x;
  }

  /** `Before` is the prefix up to the first stop character, whatever
      follows it. */
  lemma BeforeAt(s: string, q: nat, stop: char -> bool)
    requires q <= |s|
    requires forall k :: 0 <= k < q ==> !stop(s[k])
    requires q == |s| || stop(s[q])
    ensures Before(s, stop) == s[..q]
  {
    var r := Before(s, stop);
    assert forall k :: 0 <= k < |r| ==> r[k] == s[k];
    assert |r| == q;
  }

  /** A line made of padding, a stripped text free of stop characters,
      more padding and then either nothing or a non-space stop character:
      stripping it, cutting at the first stop character and stripping
      again gives back the text. */
  lemma StripBeforeStop(ws: string, n: string, ws2: string, rest: string, stop: char -> bool)
    requires AllSpace(ws) && AllSpace(ws2)
    requires n != [] && NotSpace(n[0]) && NotSpace(n[|n| - 1])
    requires forall k :: 0 <= k < |n| ==> !stop(n[k])
    requires forall k :: 0 <= k < |ws2| ==> !stop(ws2[k])
    requires rest == [] || (stop(rest[0]) && NotSpace(rest[0]))
    ensures Strip(ws + n + ws2 + rest) != [] && Strip(ws + n + ws2 + rest)[0] == n[0]
    ensures Strip(Before(Strip(ws + n + ws2 + rest), stop)) == n
  {
    if rest == [] {
      assert ws + n + ws2 + rest == ws + n + ws2;
      StripPadded(ws, n, ws2);
      BeforeAt(n, |n|, stop);
      StripOfStripped(n);
    } else {
      StripBeforeStopAt(ws, n, ws2, rest, stop);
    }
  }

  lemma StripBeforeStopAt(ws: string, n: string, ws2: string, rest: string, stop: char -> bool)
    requires AllSpace(ws) && AllSpace(ws2)
    requires n != [] && NotSpace(n[0]) && NotSpace(n[|n| - 1])
    requires forall k :: 0 <= k < |n| ==> !stop(n[k])
    requires forall k :: 0 <= k < |ws2| ==> !stop(ws2[k])
    requires rest != [] && stop(rest[0]) && NotSpace(rest[0])
    ensures Strip(ws + n + ws2 + rest) != [] && Strip(ws + n + ws2 + rest)[0] == n[0]
    ensures Strip(Before(Strip(ws + n + ws2 + rest), stop)) == n
  {
    var t := n + ws2 + rest;
    var s := ws + t;
    var q := |n| + |ws2|;
    assert s == ws + n + ws2 + rest;
    assert s[..|ws|] == ws && s[|ws|..] == t;
    assert t[0] == n[0] && t[q] == rest[0];
    StripFrom(s, |ws|, |ws| + q);
    PaddedCut(Strip(s), n, ws2, rest, stop);
  }

  /** The cut of a prefix of `n + ws2 + rest` that reaches into `rest`. */
  lemma PaddedCut(l: string, n: string, ws2: string, rest: string, stop: char -> bool)
    requires AllSpace(ws2)
    requires n != [] && NotSpace(n[0]) && NotSpace(n[|n| - 1])
    requires forall k :: 0 <= k < |n| ==> !stop(n[k])
    requires forall k :: 0 <= k < |ws2| ==> !stop(ws2[k])
    requires rest != [] && stop(rest[0])
    requires |n| + |ws2| < |l| <= |n| + |ws2| + |rest| && l == (n + ws2 + rest)[..|l|]
    ensures Strip(Before(l, stop)) == n
  {
    var t := n + ws2 + rest;
    var q := |n| + |ws2|;
    assert t[..q] == n + ws2;
    forall k | 0 <= k < q
      ensures !stop(t[k])
    {
      if k < |n| {
        assert t[k] == n[k];
      } else {
        assert t[k] == ws2[k - |n|];
      }
    }
    CutAt(l, t, q, stop);
    StripPadded([], n, ws2);
    assert [] + n + ws2 == n + ws2;
  }

  /** A prefix of `t` that reaches past `t`'s first stop character is cut
      where `t` is. */
  lemma CutAt(l: string, t: string, q: nat, stop: char -> bool)
    requires q < |l| <= |t| && l == t[..|l|]
    requires forall k :: 0 <= k < q ==> !stop(t[k])
    requires stop(t[q])
    ensures Before(l, stop) == t[..q]
  {
    BeforeAt(l, q, stop);
    assert l[..q] == t[..q];
  }

  /** The smallest `j >= i` such that `s[j..]` is all whitespace. */
  function LastNonSpaceEnd(s: string, i: nat): (j: nat)
    requires i <= |s|
    ensures i <= j <= |s|
    ensures forall k :: j <= k < |s| ==> IsSpace(s[k])
    ensures j > i ==> NotSpace(s[j - 1])
    decreases |s| - i
  {
    if i == |s| then i
    else if NotSpace(s[|s| - 1]) then |s|
    else LastNonSpaceEnd(s[..|s| - 1], i)
  }

  predicate StartsWith(s: string, prefix: string) {
    |prefix| <= |s| && s[..|prefix|] == prefix
  }

  /** Python's `sub in s`. */
  predicate Contains(s: string, sub: string) {
    exists i | 0 <= i <= |s| - |sub| :: OccursAt(s, sub, i)
  }

  predicate OccursAt(s: string, sub: string, i: int) {
    0 <= i <= |s| - |sub| && s[i..i + |sub|] == sub
  }

  /** The prefix of `s` before the first character satisfying `stop`:
      `re.split(...)[0]` and `s.split(sep)[0]` for a single-character
      separator class. */
  function Before(s: string, stop: char -> bool): (r: string)
    ensures |r| <= |s| && r == s[..|r|]
    ensures forall k :: 0 <= k < |r| ==> !stop(r[k])
    ensures |r| < |s| ==> stop(s[|r|])
  {
    s[..SpanWhile(s, 0, c => !stop(c))]
  }

  function LowerChar(c: char): char {
    if 'A' <= c <= 'Z' then (c as int + 32) as char else c
  }

  /** ASCII `lower()`. */
  function Lower(s: string): (r: string)
    ensures |r| == |s|
    ensures forall k :: 0 <= k < |s| ==> r[k] == LowerChar(s[k])
  {
    seq(|s|, k requires 0 <= k < |s| => LowerChar(s[k]))
  }

  predicate IsAsciiLowerAlnum(c: char) {
    ('a' <= c <= 'z') || ('0' <= c <= '9')
  }

  predicate IsAsciiAlpha(c: char) {
    ('a' <= c <= 'z') || ('A' <= c <= 'Z')
  }

  /** The `\w` class, ASCII part. */
  predicate IsWord(c: char) {
    IsAsciiAlpha(c) || ('0' <= c <= '9') || c == '_'
  }
}
