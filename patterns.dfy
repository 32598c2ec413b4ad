/** The regular-expression extractors of the analyser, each pattern written
    out as the matcher Python's `re` runs for it, and the `findall` /
    `finditer` scan that applies it to the whole file content:

      Gemfile        `^\s*gem\s+['"]([^'"]+)['"]`    (MULTILINE)
      go.mod         `^\s+([\w./-]+)\s+v`            (MULTILINE)
      compose files  `image:\s*['\"]?([^\s'\"#]+)`
      Dockerfile     `^FROM\s+(\S+)`                 (MULTILINE)

    `^` under MULTILINE holds at the start and right after a `\n`; `\s` is
    the `str.isspace()` class and may cross line ends. */
module Patterns {
  import opened Wrappers
  import opened Text

  /** A successful match: where it ends and its first group. */
  datatype Hit = Hit(end: nat, group: string)

  datatype Pattern = GemLine | GoRequire | ComposeImage | DockerFrom

  predicate AtLineStart(s: string, i: nat)
    requires i <= |s|
  {
    i == 0 || s[i - 1] == '\n'
  }

  predicate IsQuote(c: char) { c == '\'' || c == '"' }

  predicate NotQuote(c: char) { !IsQuote(c) }

  /** The class `[\w./-]` (ASCII `\w`). */
  predicate IsModuleChar(c: char) { IsWord(c) || c == '.' || c == '/' || c == '-' }

  /** The class `[^\s'\"#]`. */
  predicate IsImageChar(c: char) { NotSpace(c) && !IsQuote(c) && c != '#' }

  /** What each pattern's group is made of. */
  predicate GroupShape(p: Pattern, g: string) {
    g != [] &&
    match p
    case GemLine => forall k :: 0 <= k < |g| ==> NotQuote(g[k])
    case GoRequire => forall k :: 0 <= k < |g| ==> IsModuleChar(g[k])
    case ComposeImage => forall k :: 0 <= k < |g| ==> IsImageChar(g[k])
    case DockerFrom => forall k :: 0 <= k < |g| ==> NotSpace(g[k])
  }

  /** `^\s*gem\s+['"]([^'"]+)['"]` tried at `i`. Every quantifier is
      followed by a character it cannot take, so the greedy runs are the
      only ones that can succeed. */
  function GemAt(s: string, i: nat): (h: Option<Hit>)
    requires i <= |s|
    ensures h.Some? ==> i < h.value.end <= |s| && GroupShape(GemLine, h.value.group)
    ensures h.Some? ==> AtLineStart(s, i)
  {
    if !AtLineStart(s, i) then None
    else
      var a := SpanWhile(s, i, IsSpace);
      if !(a + 3 <= |s| && s[a..a + 3] == "gem") then None
      else
        var b := SpanWhile(s, a + 3, IsSpace);
        if b == a + 3 || b == |s| || !IsQuote(s[b]) then None
        else
          var c := SpanWhile(s, b + 1, NotQuote);
          if c == b + 1 || c == |s| then None
          else Some(Hit(c + 1, s[b + 1..c]))
  }

  /** `^\s+([\w./-]+)\s+v` tried at `i`. */
  function GoRequireAt(s: string, i: nat): (h: Option<Hit>)
    requires i <= |s|
    ensures h.Some? ==> i < h.value.end <= |s| && GroupShape(GoRequire, h.value.group)
    ensures h.Some? ==> AtLineStart(s, i)
  {
    if !AtLineStart(s, i) then None
    else
      var a := SpanWhile(s, i, IsSpace);
      if a == i then None
      else
        var b := SpanWhile(s, a, IsModuleChar);
        if b == a then None
        else
          var c := SpanWhile(s, b, IsSpace);
          if c == b || c == |s| || s[c] != 'v' then None
          else Some(Hit(c + 1, s[a..b]))
  }

  /** `image:\s*['\"]?([^\s'\"#]+)` tried at `i`. */
  function ImageAt(s: string, i: nat): (h: Option<Hit>)
    requires i <= |s|
    ensures h.Some? ==> i < h.value.end <= |s| && GroupShape(ComposeImage, h.value.group)
    ensures h.Some? ==> i + 6 <= |s| && s[i..i + 6] == "image:"
  {
    if !(i + 6 <= |s| && s[i..i + 6] == "image:") then None
    else
      var a := SpanWhile(s, i + 6, IsSpace);
      var b := if a < |s| && IsQuote(s[a]) then a + 1 else a;
      var c := SpanWhile(s, b, IsImageChar);
      if c == b then None
      else Some(Hit(c, s[b..c]))
  }

  /** `^FROM\s+(\S+)` tried at `i`: upper-case `FROM` at a line start. */
  function FromAt(s: string, i: nat): (h: Option<Hit>)
    requires i <= |s|
    ensures h.Some? ==> i < h.value.end <= |s| && GroupShape(DockerFrom, h.value.group)
    ensures h.Some? ==> AtLineStart(s, i) && i + 4 <= |s| && s[i..i + 4] == "FROM"
  {
    if !(AtLineStart(s, i) && i + 4 <= |s| && s[i..i + 4] == "FROM") then None
    else
      var a := SpanWhile(s, i + 4, IsSpace);
      if a == i + 4 then None
      else
        var b := SpanWhile(s, a, NotSpace);
        if b == a then None
        else Some(Hit(b, s[a..b]))
  }

  function MatchAt(p: Pattern, s: string, i: nat): (h: Option<Hit>)
    requires i <= |s|
    ensures h.Some? ==> i < h.value.end <= |s| && GroupShape(p, h.value.group)
  {
    match p
    case GemLine => GemAt(s, i)
    case GoRequire => GoRequireAt(s, i)
    case ComposeImage => ImageAt(s, i)
    case DockerFrom => FromAt(s, i)
  }

  /** `re.findall` / `re.finditer` from position `i`: try each position in
      turn; after a match, go on from where it ended. */
  function FindAll(p: Pattern, s: string, i: nat): (r: seq<string>)
    requires i <= |s|
    ensures forall g :: g in r ==> GroupShape(p, g)
    decreases |s| - i
  {
    if i == |s| then []
    else
      match MatchAt(p, s, i)
      case Some(h) => [h.group] + FindAll(p, s, h.end)
      case None => FindAll(p, s, i + 1)
  }

  /** One step of the scan at `i`. */
  lemma FindAllAt(p: Pattern, s: string, i: nat)
    requires i < |s|
    ensures MatchAt(p, s, i).Some? ==>
              FindAll(p, s, i) == [MatchAt(p, s, i).value.group] + FindAll(p, s, MatchAt(p, s, i).value.end)
    ensures MatchAt(p, s, i).None? ==> FindAll(p, s, i) == FindAll(p, s, i + 1)
  {
  }

  /** Every group found is the group of a match at some position. */
  lemma {:induction false} FoundAtSomePosition(p: Pattern, s: string, i: nat, g: string)
    requires i <= |s| && g in FindAll(p, s, i)
    ensures exists k :: i <= k < |s| && MatchAt(p, s, k).Some? && MatchAt(p, s, k).value.group == g
    decreases |s| - i
  {
    if i < |s| {
      var m := MatchAt(p, s, i);
      FindAllAt(p, s, i);
      if m.Some? && g == m.value.group {
        assert MatchAt(p, s, i).Some? && MatchAt(p, s, i).value.group == g;
      } else {
        var next := if m.Some? then m.value.end else i + 1;
        FoundAtSomePosition(p, s, next, g);
        var k :| next <= k < |s| && MatchAt(p, s, k).Some? && MatchAt(p, s, k).value.group == g;
        assert i <= k;
      }
    }
  }

  /** No position from `i` up to `k` matches. */
  predicate NoMatchBetween(p: Pattern, s: string, i: nat, k: nat)
    requires k <= |s|
  {
    forall j :: i <= j < k ==> MatchAt(p, s, j).None?
  }

  /** Scanning misses no match: the first position from `i` where the
      pattern matches contributes its group. */
  lemma FirstMatchFound(p: Pattern, s: string, i: nat, k: nat)
    requires i <= k < |s| && MatchAt(p, s, k).Some?
    requires NoMatchBetween(p, s, i, k)
    ensures MatchAt(p, s, k).value.group in FindAll(p, s, i)
  {
    NoMatchStepwise(p, s, i, k);
    SkipNoMatch(p, s, i, k);
    MatchFoundHere(p, s, k);
  }

  /** `NoMatchBetween` one position at a time. */
  predicate NoMatchFrom(p: Pattern, s: string, i: nat, k: nat)
    requires k <= |s|
    decreases k - i
  {
    i >= k || (MatchAt(p, s, i).None? && NoMatchFrom(p, s, i + 1, k))
  }

  lemma {:induction false} NoMatchStepwise(p: Pattern, s: string, i: nat, k: nat)
    requires i <= k <= |s| && NoMatchBetween(p, s, i, k)
    ensures NoMatchFrom(p, s, i, k)
    decreases k - i
  {
    if i < k {
      NoMatchStepwise(p, s, i + 1, k);
    }
  }

  /** Positions that do not match contribute nothing. */
  lemma {:induction false} SkipNoMatch(p: Pattern, s: string, i: nat, k: nat)
    requires i <= k <= |s| && NoMatchFrom(p, s, i, k)
    ensures FindAll(p, s, i) == FindAll(p, s, k)
    decreases k - i
  {
    if i < k {
      FindAllAt(p, s, i);
      SkipNoMatch(p, s, i + 1, k);
    }
  }

  /** A match where the scan stands contributes its group. */
  lemma MatchFoundHere(p: Pattern, s: string, k: nat)
    requires k < |s| && MatchAt(p, s, k).Some?
    ensures MatchAt(p, s, k).value.group in FindAll(p, s, k)
  {
    FindAllAt(p, s, k);
  }

  /** Every match that starts from `i` up to `k` ends by `k`. */
  predicate EarlierMatchesEndBy(p: Pattern, s: string, i: nat, k: nat)
    requires k <= |s|
  {
    forall j :: i <= j < k && MatchAt(p, s, j).Some? ==> MatchAt(p, s, j).value.end <= k
  }

  /** The scan reaches `k` when no match from `i` runs past it, so the
      match at `k` contributes its group. */
  lemma {:induction false} MatchFoundAfterEarlierEnd(p: Pattern, s: string, i: nat, k: nat)
    requires i <= k < |s| && MatchAt(p, s, k).Some?
    requires EarlierMatchesEndBy(p, s, i, k)
    ensures MatchAt(p, s, k).value.group in FindAll(p, s, i)
    decreases k - i
  {
    if i == k {
      MatchFoundHere(p, s, k);
    } else {
      FindAllAt(p, s, i);
      var m := MatchAt(p, s, i);
      var next := if m.Some? then m.value.end else i + 1;
      assert i < next <= k;
      MatchFoundAfterEarlierEnd(p, s, next, k);
    }
  }

  predicate IsColon(c: char) { c == ':' }

  /** An image reference without its tag: `ref.split(":")[0]`. */
  function ImageName(ref: string): (r: string)
    ensures forall k :: 0 <= k < |r| ==> r[k] != ':'
    ensures |r| <= |ref| && r == ref[..|r|]
    ensures |r| < |ref| ==> ref[|r|] == ':'
  {
    Before(ref, IsColon)
  }

  function ImageNames(refs: seq<string>): (r: seq<string>)
    ensures |r| == |refs|
    ensures forall k :: 0 <= k < |r| ==> r[k] == ImageName(refs[k])
  {
    seq(|refs|, k requires 0 <= k < |refs| => ImageName(refs[k]))
  }

  /** `_extract_ruby_deps`. */
  function RubyDeps(content: string): seq<string> {
    FindAll(GemLine, content, 0)
  }

  /** `_extract_go_deps`. */
  function GoDeps(content: string): seq<string> {
    FindAll(GoRequire, content, 0)
  }

  /** `_extract_docker_images`: compose `image:` values without their tag. */
  function ComposeImages(content: string): seq<string> {
    ImageNames(FindAll(ComposeImage, content, 0))
  }

  /** The `FROM` operands of a Dockerfile without their tag. */
  function DockerfileImages(content: string): seq<string> {
    ImageNames(FindAll(DockerFrom, content, 0))
  }

  /** Gem names are non-empty and free of quotes. */
  lemma GemNamesUnquoted(content: string)
    ensures forall g :: g in RubyDeps(content) ==> g != [] && '\'' !in g && '"' !in g
  {
    forall g | g in RubyDeps(content) ensures g != [] && '\'' !in g && '"' !in g {
      assert GroupShape(GemLine, g);
    }
  }

  /** A gem line and a go.mod requirement are only recognised at a line
      start. */
  lemma LineAnchored(content: string, g: string)
    ensures g in RubyDeps(content) ==> exists k :: 0 <= k < |content| && AtLineStart(content, k) && GemAt(content, k).Some?
    ensures g in GoDeps(content) ==> exists k :: 0 <= k < |content| && AtLineStart(content, k) && GoRequireAt(content, k).Some?
  {
    if g in RubyDeps(content) {
      FoundAtSomePosition(GemLine, content, 0, g);
    }
    if g in GoDeps(content) {
      FoundAtSomePosition(GoRequire, content, 0, g);
    }
  }

  /** Each Dockerfile image comes from an upper-case `FROM` at a line
      start; a file with no such line yields nothing. */
  lemma FromOnlyAtLineStart(content: string)
    ensures forall n :: n in DockerfileImages(content) ==>
              exists k :: 0 <= k < |content| && AtLineStart(content, k) &&
                k + 4 <= |content| && content[k..k + 4] == "FROM"
  {
    var refs := FindAll(DockerFrom, content, 0);
    forall n | n in DockerfileImages(content)
      ensures exists k :: 0 <= k < |content| && AtLineStart(content, k) &&
                k + 4 <= |content| && content[k..k + 4] == "FROM"
    {
      var j :| 0 <= j < |refs| && n == ImageName(refs[j]);
      FoundAtSomePosition(DockerFrom, content, 0, refs[j]);
    }
  }

  /** A line `<spaces>gem<spaces><quote><name><quote>` is accepted at its
      start, with the name as the group; `a`, `b` and `c` are where `gem`,
      the opening quote and the closing quote stand. */
  lemma GemLineMatches(s: string, i: nat, a: nat, b: nat, c: nat)
    requires i <= a && a + 3 < b && b + 1 < c < |s|
    requires AtLineStart(s, i)
    requires forall j :: i <= j < a ==> IsSpace(s[j])
    requires s[a..a + 3] == "gem"
    requires forall j :: a + 3 <= j < b ==> IsSpace(s[j])
    requires IsQuote(s[b]) && IsQuote(s[c])
    requires forall j :: b < j < c ==> NotQuote(s[j])
    ensures GemAt(s, i) == Some(Hit(c + 1, s[b + 1..c]))
  {
    assert s[a] == s[a..a + 3][0] == 'g';
    SpanEndsAt(s, i, a, IsSpace);
    SpanEndsAt(s, a + 3, b, IsSpace);
    SpanEndsAt(s, b + 1, c, NotQuote);
  }

  /** An indented `<module><spaces>v` line is accepted at its start, with
      the module path as the group; `a`, `b` and `c` are where the module
      path, the spaces after it and the `v` begin. */
  lemma GoLineMatches(s: string, i: nat, a: nat, b: nat, c: nat)
    requires i < a < b < c < |s|
    requires AtLineStart(s, i)
    requires forall j :: i <= j < a ==> IsSpace(s[j])
    requires forall j :: a <= j < b ==> IsModuleChar(s[j])
    requires forall j :: b <= j < c ==> IsSpace(s[j])
    requires s[c] == 'v'
    ensures GoRequireAt(s, i) == Some(Hit(c + 1, s[a..b]))
  {
    assert IsModuleChar(s[a]) && IsSpace(s[b]);
    SpanEndsAt(s, i, a, IsSpace);
    SpanEndsAt(s, a, b, IsModuleChar);
    SpanEndsAt(s, b, c, IsSpace);
  }

  /** `image:`, optional spaces and an optional quote, then a run of
      image characters that the text or another character ends: the run
      is the group. `a` is where the spaces end, `b` and `c` bound the
      run. */
  lemma ImageFieldMatches(s: string, i: nat, a: nat, b: nat, c: nat)
    requires i + 6 <= a <= b < c <= |s|
    requires s[i..i + 6] == "image:"
    requires forall j :: i + 6 <= j < a ==> IsSpace(s[j])
    requires b == a || (b == a + 1 && IsQuote(s[a]))
    requires forall j :: b <= j < c ==> IsImageChar(s[j])
    requires c == |s| || !IsImageChar(s[c])
    ensures ImageAt(s, i) == Some(Hit(c, s[b..c]))
  {
    assert IsImageChar(s[b]);
    SpanEndsAt(s, i + 6, a, IsSpace);
    SpanEndsAt(s, b, c, IsImageChar);
  }

  /** Where the parts of `ws + "gem" + ws2 + [q] + n + [q2] + rest` stand
      in `s` when that text starts at `i`. */
  lemma GemLineLayout(s: string, i: nat, ws: string, ws2: string, q: char, n: string, q2: char, rest: string)
    requires i <= |s| && s[i..] == ws + "gem" + ws2 + [q] + n + [q2] + rest
    ensures var a, b, c := i + |ws|, i + |ws| + 3 + |ws2|, i + |ws| + |ws2| + |n| + 4;
      c < |s| && s[i..a] == ws && s[a..a + 3] == "gem" && s[a + 3..b] == ws2 &&
      s[b] == q && s[b + 1..c] == n && s[c] == q2
  {
    var a := i + |ws|;
    var b := a + 3 + |ws2|;
    var c := b + 1 + |n|;
    assert s[i..|s|] == s[i..];
    SliceSplit(s, i, |s|, ws + "gem" + ws2 + [q] + n + [q2], rest);
    SliceSplit(s, i, c + 1, ws + "gem" + ws2 + [q] + n, [q2]);
    SliceSplit(s, i, c, ws + "gem" + ws2 + [q], n);
    SliceSplit(s, i, b + 1, ws + "gem" + ws2, [q]);
    SliceSplit(s, i, b, ws + "gem", ws2);
    SliceSplit(s, i, a + 3, ws, "gem");
    assert s[b] == s[b..b + 1][0] && s[c] == s[c..c + 1][0];
  }

  /** The line `ws + "gem" + ws2 + [q] + n + [q2] + rest` at a line start
      is accepted, with `n` as the group. */
  lemma GemLineAccepted(s: string, i: nat, ws: string, ws2: string, q: char, n: string, q2: char, rest: string)
    requires i <= |s| && AtLineStart(s, i)
    requires s[i..] == ws + "gem" + ws2 + [q] + n + [q2] + rest
    requires AllSpace(ws) && ws2 != [] && AllSpace(ws2)
    requires IsQuote(q) && IsQuote(q2) && n != [] && forall k :: 0 <= k < |n| ==> NotQuote(n[k])
    ensures GemAt(s, i) == Some(Hit(i + |ws| + |ws2| + |n| + 5, n))
  {
    var a := i + |ws|;
    var b := a + 3 + |ws2|;
    var c := b + 1 + |n|;
    GemLineLayout(s, i, ws, ws2, q, n, q2, rest);
    SliceRun(s, i, a, IsSpace);
    SliceRun(s, a + 3, b, IsSpace);
    SliceRun(s, b + 1, c, NotQuote);
    GemLineMatches(s, i, a, b, c);
  }

  /** Such a gem line is extracted once the matches before it end by its
      start (for instance when it is the first match). */
  lemma GemLineFound(s: string, i: nat, ws: string, ws2: string, q: char, n: string, q2: char, rest: string)
    requires i <= |s| && AtLineStart(s, i)
    requires s[i..] == ws + "gem" + ws2 + [q] + n + [q2] + rest
    requires AllSpace(ws) && ws2 != [] && AllSpace(ws2)
    requires IsQuote(q) && IsQuote(q2) && n != [] && forall k :: 0 <= k < |n| ==> NotQuote(n[k])
    requires EarlierMatchesEndBy(GemLine, s, 0, i)
    ensures n in RubyDeps(s)
  {
    GemLineAccepted(s, i, ws, ws2, q, n, q2, rest);
    MatchFoundAfterEarlierEnd(GemLine, s, 0, i);
  }

  /** Where the parts of `ws + m + ws2 + "v" + rest` stand in `s` when
      that text starts at `i`. */
  lemma GoLineLayout(s: string, i: nat, ws: string, m: string, ws2: string, rest: string)
    requires i <= |s| && s[i..] == ws + m + ws2 + "v" + rest
    ensures var a, b, c := i + |ws|, i + |ws| + |m|, i + |ws| + |m| + |ws2|;
      c < |s| && s[i..a] == ws && s[a..b] == m && s[b..c] == ws2 && s[c] == 'v'
  {
    var a := i + |ws|;
    var b := a + |m|;
    var c := b + |ws2|;
    assert s[i..|s|] == s[i..];
    SliceSplit(s, i, |s|, ws + m + ws2 + "v", rest);
    SliceSplit(s, i, c + 1, ws + m + ws2, "v");
    SliceSplit(s, i, c, ws + m, ws2);
    SliceSplit(s, i, b, ws, m);
    assert s[c] == s[c..c + 1][0];
  }

  /** The indented line `ws + m + ws2 + "v" + rest` at a line start is
      accepted, with the module path `m` as the group. */
  lemma GoLineAccepted(s: string, i: nat, ws: string, m: string, ws2: string, rest: string)
    requires i <= |s| && AtLineStart(s, i)
    requires s[i..] == ws + m + ws2 + "v" + rest
    requires ws != [] && AllSpace(ws) && ws2 != [] && AllSpace(ws2)
    requires m != [] && forall k :: 0 <= k < |m| ==> IsModuleChar(m[k])
    ensures GoRequireAt(s, i) == Some(Hit(i + |ws| + |m| + |ws2| + 1, m))
  {
    var a := i + |ws|;
    var b := a + |m|;
    var c := b + |ws2|;
    GoLineLayout(s, i, ws, m, ws2, rest);
    SliceRun(s, i, a, IsSpace);
    SliceRun(s, a, b, IsModuleChar);
    SliceRun(s, b, c, IsSpace);
    GoLineMatches(s, i, a, b, c);
  }

  /** Such a requirement line is extracted once the matches before it end
      by its start. */
  lemma GoLineFound(s: string, i: nat, ws: string, m: string, ws2: string, rest: string)
    requires i <= |s| && AtLineStart(s, i)
    requires s[i..] == ws + m + ws2 + "v" + rest
    requires ws != [] && AllSpace(ws) && ws2 != [] && AllSpace(ws2)
    requires m != [] && forall k :: 0 <= k < |m| ==> IsModuleChar(m[k])
    requires EarlierMatchesEndBy(GoRequire, s, 0, i)
    ensures m in GoDeps(s)
  {
    GoLineAccepted(s, i, ws, m, ws2, rest);
    MatchFoundAfterEarlierEnd(GoRequire, s, 0, i);
  }

  /** Where the parts of `"image:" + ws + open + r + rest` stand in `s`
      when that text starts at `i`. */
  lemma ImageFieldLayout(s: string, i: nat, ws: string, open: string, r: string, rest: string)
    requires i <= |s| && s[i..] == "image:" + ws + open + r + rest
    ensures var a, b, c := i + 6 + |ws|, i + 6 + |ws| + |open|, i + 6 + |ws| + |open| + |r|;
      c <= |s| && s[i..i + 6] == "image:" && s[i + 6..a] == ws && s[a..b] == open &&
      s[b..c] == r && s[c..] == rest
  {
    var a := i + 6 + |ws|;
    var b := a + |open|;
    var c := b + |r|;
    assert s[i..|s|] == s[i..];
    SliceSplit(s, i, |s|, "image:" + ws + open + r, rest);
    SliceSplit(s, i, c, "image:" + ws + open, r);
    SliceSplit(s, i, b, "image:" + ws, open);
    SliceSplit(s, i, a, "image:", ws);
    assert s[c..] == s[c..|s|];
  }

  /** `"image:" + ws + open + r + rest`, with `open` an optional quote and
      `rest` not continuing the run `r`, is accepted with `r` as the
      group. */
  lemma ImageFieldAccepted(s: string, i: nat, ws: string, open: string, r: string, rest: string)
    requires i <= |s| && s[i..] == "image:" + ws + open + r + rest
    requires AllSpace(ws) && (open == [] || (|open| == 1 && IsQuote(open[0])))
    requires r != [] && forall k :: 0 <= k < |r| ==> IsImageChar(r[k])
    requires rest == [] || !IsImageChar(rest[0])
    ensures ImageAt(s, i) == Some(Hit(i + 6 + |ws| + |open| + |r|, r))
  {
    var a := i + 6 + |ws|;
    var b := a + |open|;
    var c := b + |r|;
    ImageFieldLayout(s, i, ws, open, r, rest);
    assert b == a + 1 ==> s[a] == s[a..b][0];
    assert c < |s| ==> s[c] == s[c..][0];
    SliceRun(s, i + 6, a, IsSpace);
    SliceRun(s, b, c, IsImageChar);
    ImageFieldMatches(s, i, a, b, c);
  }

  /** Such an `image:` value is extracted, without its tag, once the
      matches before it end by where it stands. */
  lemma ImageFieldFound(s: string, i: nat, ws: string, open: string, r: string, rest: string)
    requires i <= |s| && s[i..] == "image:" + ws + open + r + rest
    requires AllSpace(ws) && (open == [] || (|open| == 1 && IsQuote(open[0])))
    requires r != [] && forall k :: 0 <= k < |r| ==> IsImageChar(r[k])
    requires rest == [] || !IsImageChar(rest[0])
    requires EarlierMatchesEndBy(ComposeImage, s, 0, i)
    ensures ImageName(r) in ComposeImages(s)
  {
    ImageFieldAccepted(s, i, ws, open, r, rest);
    MatchFoundAfterEarlierEnd(ComposeImage, s, 0, i);
    var refs := FindAll(ComposeImage, s, 0);
    var k :| 0 <= k < |refs| && refs[k] == r;
    assert ComposeImages(s)[k] == ImageName(r);
  }

  /** `gem 'rails', '7.1'` names the gem `rails`. */
  lemma GemfileExample()
    ensures "rails" in RubyDeps("gem 'rails', '7.1'")
  {
    var g := "gem 'rails', '7.1'";
    assert g[0..] == "" + "gem" + " " + ['\''] + "rails" + ['\''] + ", '7.1'";
    GemLineFound(g, 0, "", " ", '\'', "rails", '\'', ", '7.1'");
  }

  /** An indented `github.com/pkg/errors v0.9.1` requires that module. */
  lemma GoModExample()
    ensures "github.com/pkg/errors" in GoDeps("\tgithub.com/pkg/errors v0.9.1")
  {
    var m := "\tgithub.com/pkg/errors v0.9.1";
    assert m[0..] == "\t" + "github.com/pkg/errors" + " " + "v" + "0.9.1";
    GoLineFound(m, 0, "\t", "github.com/pkg/errors", " ", "0.9.1");
  }

  /** `image: redis` names the image `redis`. */
  lemma ComposeExample()
    ensures "redis" in ComposeImages("image: redis")
  {
    var c := "image: redis";
    assert c[0..] == "image:" + " " + "" + "redis" + "";
    ImageFieldFound(c, 0, " ", "", "redis", "");
    assert ImageName("redis") == "redis";
  }

  /** `FROM node:18` names the image `node`. */
  lemma DockerfileExample()
    ensures DockerfileImages("FROM node:18") == ["node"]
  {
    FromLineExample();
    var r := "node:18";
    assert SpanWhile(r, 4, c => !IsColon(c)) == 4;
    assert SpanWhile(r, 0, c => !IsColon(c)) == 4;
    assert ImageName(r) == "node";
  }

  lemma FromLineExample()
    ensures FindAll(DockerFrom, "FROM node:18", 0) == ["node:18"]
  {
    var s := "FROM node:18";
    assert s[0..4] == "FROM";
    assert s[5..12] == "node:18";
    assert SpanWhile(s, 5, IsSpace) == 5;
    assert SpanWhile(s, 4, IsSpace) == 5;
    assert SpanWhile(s, 12, NotSpace) == 12;
    assert SpanWhile(s, 11, NotSpace) == 12;
    assert SpanWhile(s, 10, NotSpace) == 12;
    assert SpanWhile(s, 9, NotSpace) == 12;
    assert SpanWhile(s, 8, NotSpace) == 12;
    assert SpanWhile(s, 7, NotSpace) == 12;
    assert SpanWhile(s, 6, NotSpace) == 12;
    assert SpanWhile(s, 5, NotSpace) == 12;
    assert FromAt(s, 0) == Some(Hit(12, "node:18"));
  }
}
