/** The line-by-line dependency extractors of the analyser: requirements
    files, `.env` files and the `[dependencies]` sections of Cargo.toml.
    Each is a loop over `content.splitlines()` that appends to a list; the
    loop is proved equal to a function over the lines, and the properties
    the scanner relies on are proved about that function. */
module Extractors {
  import opened Wrappers
  import opened Text
  import opened Seqs

  /** A present value as a one-element list, an absent one as `[]`. */
  function AsSeq<T>(o: Option<T>): (r: seq<T>)
    ensures o.None? ==> r == []
    ensures o.Some? ==> r == [o.value]
  {
    if o.Some? then [o.value] else []
  }

  // ---------------------------------------------------------------------
  // requirements.txt

  /** A character of the class `[><=!~;\[]` that ends a package name. */
  predicate IsVersionMarker(c: char) {
    c == '>' || c == '<' || c == '=' || c == '!' || c == '~' || c == ';' || c == '['
  }

  predicate IsHash(c: char) { c == '#' }

  /** What the extractor accepts as a package name: non-empty, stripped,
      not an option line, free of comments and version markers. */
  predicate IsPackageName(n: string) {
    n != [] && NotSpace(n[0]) && NotSpace(n[|n| - 1]) && n[0] != '-' &&
    forall k :: 0 <= k < |n| ==> !IsVersionMarker(n[k]) && !IsHash(n[k])
  }

  /** The package named on one requirements line: the comment is cut, the
      line stripped, blank and `-` lines skipped, and the name is the
      stripped text before the first version marker. */
  function RequirementName(line: string): (r: Option<string>)
    ensures r.Some? ==> IsPackageName(r.value)
    ensures r.None? <==> (var l := Strip(Before(line, IsHash));
                          l == [] || l[0] == '-' || IsVersionMarker(l[0]))
  {
    var l := Strip(Before(line, IsHash));
    if l == [] || l[0] == '-' then None
    else
      var name := Strip(Before(l, IsVersionMarker));
      StripBeforeHead(l, IsVersionMarker);
      if name == [] then None else Some(name)
  }

  /** A package name read back as a requirements line names itself. */
  lemma RequirementNameFixpoint(n: string)
    requires IsPackageName(n)
    ensures RequirementName(n) == Some(n)
  {
    assert Before(n, IsHash) == n;
    StripOfStripped(n);
    assert Before(n, IsVersionMarker) == n;
  }

  /** Whatever surrounds it, a line names the package written on it: the
      name may be padded with whitespace and followed by a version marker
      or a comment and anything after that. */
  lemma RequirementLine(ws: string, n: string, ws2: string, rest: string)
    requires AllSpace(ws) && AllSpace(ws2) && IsPackageName(n)
    requires rest == [] || IsVersionMarker(rest[0]) || IsHash(rest[0])
    ensures RequirementName(ws + n + ws2 + rest) == Some(n)
  {
    var line := ws + n + ws2 + rest;
    var p := |ws| + |n| + |ws2|;
    forall k | 0 <= k < p
      ensures !IsHash(line[k])
    {
      if k < |ws| {
        assert line[k] == ws[k];
      } else if k < |ws| + |n| {
        assert line[k] == n[k - |ws|];
      } else {
        assert line[k] == ws2[k - |ws| - |n|];
      }
    }
    var h := Before(line, IsHash);
    var cut := if rest == [] || IsHash(rest[0]) then [] else rest[..|h| - p];
    if rest == [] || IsHash(rest[0]) {
      BeforeAt(line, p, IsHash);
      assert line[..p] == ws + n + ws2 + cut;
    } else {
      assert line[p] == rest[0];
      assert |h| > p;
      assert h == ws + n + ws2 + cut;
    }
    StripBeforeStop(ws, n, ws2, cut, IsVersionMarker);
  }

  /** The names of a requirements file given as lines, in line order. */
  function PythonDeps(lines: seq<string>): (names: seq<string>)
    ensures |names| <= |lines|
    ensures forall n :: n in names ==> IsPackageName(n)
  {
    forall n | n in Gather(lines, RequirementName) ensures IsPackageName(n) {
      GatherMembers(lines, RequirementName, n);
    }
    Gather(lines, RequirementName)
  }

  /** A name is extracted exactly when some line names it. */
  lemma PythonDepsFromLines(lines: seq<string>, n: string)
    ensures n in PythonDeps(lines) <==> exists i :: 0 <= i < |lines| && RequirementName(lines[i]) == Some(n)
  {
    GatherMembers(lines, RequirementName, n);
  }

  /** `_extract_python_deps`: the names of a requirements file. */
  method ExtractPythonDeps(content: string) returns (names: seq<string>)
    ensures names == PythonDeps(SplitLines(content))
  {
    var lines := SplitLines(content);
    names := [];
    var i := 0;
    while i < |lines|
      invariant 0 <= i <= |lines|
      invariant names == PythonDeps(lines[..i])
    {
      GatherStep(lines, RequirementName, i);
      var line := Strip(Before(lines[i], IsHash));
      if line != [] && line[0] != '-' {
        var name := Strip(Before(line, IsVersionMarker));
        if name != [] {
          names := names + [name];
        }
      }
      i := i + 1;
    }
    assert lines[..|lines|] == lines;
  }

  // ---------------------------------------------------------------------
  // .env files

  predicate IsEquals(c: char) { c == '=' }

  /** What the extractor accepts as a variable name: non-empty, stripped,
      not a comment, without `=`. */
  predicate IsEnvName(n: string) {
    n != [] && NotSpace(n[0]) && NotSpace(n[|n| - 1]) && n[0] != '#' &&
    forall k :: 0 <= k < |n| ==> !IsEquals(n[k])
  }

  /** The variable named on one `.env` line: blank and `#` lines are
      skipped, the name is the stripped text before the first `=`. */
  function EnvKey(line: string): (r: Option<string>)
    ensures r.Some? ==> IsEnvName(r.value)
    ensures r.None? <==> Strip(line) == [] || Strip(line)[0] == '#' || Strip(line)[0] == '='
  {
    var l := Strip(line);
    if l == [] || l[0] == '#' then None
    else
      var key := Strip(Before(l, IsEquals));
      StripBeforeHead(l, IsEquals);
      if key == [] then None else Some(key)
  }

  /** A variable name read back as a `.env` line names itself. */
  lemma EnvKeyFixpoint(n: string)
    requires IsEnvName(n)
    ensures EnvKey(n) == Some(n)
  {
    StripOfStripped(n);
    assert Before(n, IsEquals) == n;
  }

  /** Whatever surrounds it, `KEY = value` names `KEY`: the key may be
      padded with whitespace, and the `=` and everything after it are
      dropped. */
  lemma EnvLine(ws: string, k: string, ws2: string, rest: string)
    requires AllSpace(ws) && AllSpace(ws2) && IsEnvName(k)
    requires rest == [] || rest[0] == '='
    ensures EnvKey(ws + k + ws2 + rest) == Some(k)
  {
    StripBeforeStop(ws, k, ws2, rest, IsEquals);
  }

  /** The variable names of a `.env` file given as lines, in line order. */
  function EnvNames(lines: seq<string>): (names: seq<string>)
    ensures |names| <= |lines|
    ensures forall n :: n in names ==> IsEnvName(n)
  {
    forall n | n in Gather(lines, EnvKey) ensures IsEnvName(n) {
      GatherMembers(lines, EnvKey, n);
    }
    Gather(lines, EnvKey)
  }

  /** A name is extracted exactly when some line names it. */
  lemma EnvNamesFromLines(lines: seq<string>, n: string)
    ensures n in EnvNames(lines) <==> exists i :: 0 <= i < |lines| && EnvKey(lines[i]) == Some(n)
  {
    GatherMembers(lines, EnvKey, n);
  }

  /** `_extract_env_var_names`: the variable names of a `.env` file. */
  method ExtractEnvNames(content: string) returns (names: seq<string>)
    ensures names == EnvNames(SplitLines(content))
  {
    var lines := SplitLines(content);
    names := [];
    var i := 0;
    while i < |lines|
      invariant 0 <= i <= |lines|
      invariant names == EnvNames(lines[..i])
    {
      GatherStep(lines, EnvKey, i);
      var line := Strip(lines[i]);
      if line != [] && line[0] != '#' {
        var key := Strip(Before(line, IsEquals));
        if key != [] {
          names := names + [key];
        }
      }
      i := i + 1;
    }
    assert lines[..|lines|] == lines;
  }

  // ---------------------------------------------------------------------
  // Cargo.toml

  /** `re.match(r"^\[.*dependencies.*\]", line, re.IGNORECASE)` on a line
      (lines never hold `\n`, so `.` matches every character): an opening
      bracket first, then `dependencies` in any ASCII case, then a closing
      bracket somewhere after it. */
  predicate IsDepsHeader(line: string) {
    |line| > 0 && line[0] == '[' &&
    exists i | 1 <= i <= |line| - 12 :: OccursAt(Lower(line), "dependencies", i) && ClosesAfter(line, i + 12)
  }

  predicate ClosesAfter(line: string, j: int) {
    exists k | 0 <= k < |line| :: j <= k && line[k] == ']'
  }

  /** The `=` that `^(\S+)\s*=` can reach after the non-space prefix
      `line[..p]`: the first character after the spaces that follow. */
  predicate CrateMatch(line: string, p: int) {
    1 <= p <= |line| &&
    (forall k :: 0 <= k < p ==> NotSpace(line[k])) &&
    var q := SpanWhile(line, p, IsSpace);
    q < |line| && line[q] == '='
  }

  /** The largest `p` with `1 <= p < j` and `line[p] == '='`. */
  function LastEqualsBefore(line: string, j: nat): (r: Option<nat>)
    requires j <= |line|
    ensures r.Some? ==> 1 <= r.value < j && line[r.value] == '='
    ensures r.Some? ==> forall p :: r.value < p < j ==> line[p] != '='
    ensures r.None? ==> forall p :: 1 <= p < j ==> line[p] != '='
  {
    if j <= 1 then None
    else if line[j - 1] == '=' then Some(j - 1)
    else LastEqualsBefore(line, j - 1)
  }

  /** Group 1 of `re.match(r"^(\S+)\s*=", line)`. The greedy `\S+` first
      takes the whole non-space prefix; when no `=` follows it after
      optional spaces, the engine backtracks to the last `=` inside that
      prefix. */
  function CrateName(line: string): (r: Option<string>)
    ensures r.Some? ==> r.value != [] && forall k :: 0 <= k < |r.value| ==> NotSpace(r.value[k])
    ensures |line| > 0 && IsSpace(line[0]) ==> r.None?
  {
    var w := SpanWhile(line, 0, NotSpace);
    if w == 0 then None
    else
      var q := SpanWhile(line, w, IsSpace);
      if q < |line| && line[q] == '=' then Some(line[..w])
      else
        match LastEqualsBefore(line, w)
        case Some(p) => Some(line[..p])
        case None => None
  }

  /** `CrateName` is the regular expression's match: the prefix it returns
      is the longest one after which the pattern succeeds, and it returns
      nothing when the pattern fails. */
  lemma CrateNameIsLongestMatch(line: string)
    ensures CrateName(line).Some? ==>
              var p := |CrateName(line).value|;
              CrateMatch(line, p) && CrateName(line).value == line[..p] &&
              forall p' :: p < p' <= |line| ==> !CrateMatch(line, p')
    ensures CrateName(line).None? ==> forall p :: !CrateMatch(line, p)
  {
    var w := SpanWhile(line, 0, NotSpace);
    forall p | w < p <= |line| ensures !CrateMatch(line, p) {
      assert IsSpace(line[w]);
    }
    if w > 0 {
      var q := SpanWhile(line, w, IsSpace);
      if !(q < |line| && line[q] == '=') {
        assert !CrateMatch(line, w);
        forall p | 1 <= p < w && CrateMatch(line, p) ensures line[p] == '=' {
          assert NotSpace(line[p]);
          assert SpanWhile(line, p, IsSpace) == p;
        }
        match LastEqualsBefore(line, w)
        case Some(p) => {
          assert SpanWhile(line, p, IsSpace) == p;
          assert CrateMatch(line, p);
        }
        case None => {}
      }
    }
  }

  /** The scanner's state after some lines: the names so far, and whether
      the last bracket line was a dependencies header. */
  datatype CargoState = CargoState(names: seq<string>, inDeps: bool)

  /** One step of the scan: a header opens a section, any other line that
      starts with `[` closes it, and inside a section a line may name a
      crate. */
  function CargoStep(st: CargoState, line: string): CargoState {
    if IsDepsHeader(line) then CargoState(st.names, true)
    else if StartsWith(line, "[") then CargoState(st.names, false)
    else if st.inDeps then CargoState(st.names + AsSeq(CrateName(line)), true)
    else st
  }

  function CargoScan(lines: seq<string>): CargoState {
    if lines == [] then CargoState([], false)
    else CargoStep(CargoScan(lines[..|lines| - 1]), lines[|lines| - 1])
  }

  /** The crate names of a Cargo.toml given as lines. */
  function CargoDeps(lines: seq<string>): seq<string> {
    CargoScan(lines).names
  }

  predicate IsBracketLine(line: string) { StartsWith(line, "[") }

  /** The section is open after `lines` exactly when the last line that
      starts with `[` is a dependencies header. */
  lemma CargoSectionOpen(lines: seq<string>)
    ensures CargoScan(lines).inDeps <==>
              exists h :: 0 <= h < |lines| && IsDepsHeader(lines[h]) &&
                forall k :: h < k < |lines| ==> !IsBracketLine(lines[k])
  {
    CargoFlagIsSectionOpen(lines);
    SectionOpenIsLastBracket(lines, IsDepsHeader, IsBracketLine);
  }

  lemma {:induction false} CargoFlagIsSectionOpen(lines: seq<string>)
    ensures CargoScan(lines).inDeps == SectionOpen(lines, IsDepsHeader, IsBracketLine)
  {
    if lines != [] {
      CargoFlagIsSectionOpen(lines[..|lines| - 1]);
    }
  }

  /** Whether a section is open after `lines`: a header line opens it and
      any other bracket line closes it. */
  function SectionOpen(lines: seq<string>, header: string -> bool, bracket: string -> bool): bool {
    if lines == [] then false
    else if header(lines[|lines| - 1]) then true
    else if bracket(lines[|lines| - 1]) then false
    else SectionOpen(lines[..|lines| - 1], header, bracket)
  }

  lemma {:induction false} SectionOpenIsLastBracket(lines: seq<string>, header: string -> bool, bracket: string -> bool)
    requires forall l :: header(l) ==> bracket(l)
    ensures SectionOpen(lines, header, bracket) <==>
              exists h :: 0 <= h < |lines| && header(lines[h]) &&
                forall k :: h < k < |lines| ==> !bracket(lines[k])
  {
    if lines != [] {
      var n := |lines| - 1;
      var pre := lines[..n];
      SectionOpenIsLastBracket(pre, header, bracket);
      if header(lines[n]) {
      } else if bracket(lines[n]) {
        forall h | 0 <= h < |lines| && header(lines[h])
          ensures exists k :: h < k < |lines| && bracket(lines[k])
        {
          assert h != n;
          assert h < n && bracket(lines[n]);
        }
      } else {
        if SectionOpen(pre, header, bracket) {
          var h :| 0 <= h < n && header(pre[h]) && forall k :: h < k < n ==> !bracket(pre[k]);
          assert lines[h] == pre[h];
          assert forall k :: h < k < |lines| ==> k == n || lines[k] == pre[k];
        }
        if exists h :: 0 <= h < |lines| && header(lines[h]) && forall k :: h < k < |lines| ==> !bracket(lines[k]) {
          var h :| 0 <= h < |lines| && header(lines[h]) && forall k :: h < k < |lines| ==> !bracket(lines[k]);
          assert h != n;
          assert pre[h] == lines[h];
          assert forall k :: h < k < n ==> pre[k] == lines[k];
        }
      }
    }
  }

  /** Every extracted crate is named on a line that does not start with
      `[` and lies inside a dependencies section. */
  lemma {:induction false} CargoNamesFromSection(lines: seq<string>, name: string)
    requires name in CargoDeps(lines)
    ensures exists i :: 0 <= i < |lines| && !StartsWith(lines[i], "[") &&
              CargoScan(lines[..i]).inDeps && CrateName(lines[i]) == Some(name)
  {
    var n := |lines| - 1;
    var pre := lines[..n];
    if name in CargoDeps(pre) {
      CargoNamesFromSection(pre, name);
      var i :| 0 <= i < |pre| && !StartsWith(pre[i], "[") &&
               CargoScan(pre[..i]).inDeps && CrateName(pre[i]) == Some(name);
      assert pre[..i] == lines[..i] && pre[i] == lines[i];
    } else {
      NamedOnLastLine(lines, name);
    }
  }

  /** A crate that the last line adds is named on that line. */
  lemma NamedOnLastLine(lines: seq<string>, name: string)
    requires lines != [] && name in CargoDeps(lines) && name !in CargoDeps(lines[..|lines| - 1])
    ensures var n := |lines| - 1;
            !StartsWith(lines[n], "[") && CargoScan(lines[..n]).inDeps && CrateName(lines[n]) == Some(name)
  {
    var n := |lines| - 1;
    var st := CargoScan(lines[..n]);
    assert CargoScan(lines) == CargoStep(st, lines[n]);
    assert !IsDepsHeader(lines[n]) && !StartsWith(lines[n], "[") && st.inDeps;
  }

  /** Conversely, the crate named on any line inside a dependencies
      section that does not start with `[` is extracted. */
  lemma {:induction false} SectionLinesExtracted(lines: seq<string>, i: nat, name: string)
    requires i < |lines| && !StartsWith(lines[i], "[")
    requires CargoScan(lines[..i]).inDeps && CrateName(lines[i]) == Some(name)
    ensures name in CargoDeps(lines)
  {
    var n := |lines| - 1;
    var pre := lines[..n];
    assert lines[..|lines| - 1] == pre;
    if i == n {
      assert !IsDepsHeader(lines[i]);
    } else {
      assert pre[..i] == lines[..i];
      SectionLinesExtracted(pre, i, name);
    }
  }

  /** Without a dependencies header nothing is extracted. */
  lemma {:induction false} CargoNeedsHeader(lines: seq<string>)
    requires forall i :: 0 <= i < |lines| ==> !IsDepsHeader(lines[i])
    ensures CargoDeps(lines) == [] && !CargoScan(lines).inDeps
  {
    if lines != [] {
      var pre := lines[..|lines| - 1];
      assert forall i :: 0 <= i < |pre| ==> pre[i] == lines[i];
      CargoNeedsHeader(pre);
    }
  }

  /** A header followed by `diesel = "2.0"` yields `diesel`. */
  lemma CargoExample()
    ensures CargoDeps(["[dependencies]", "diesel = \"2.0\""]) == ["diesel"]
  {
    var header := "[dependencies]";
    var line := "diesel = \"2.0\"";
    var lines := [header, line];
    HeaderExample();
    CrateLineExample();
    assert line[0] == 'd';
    assert !IsDepsHeader(line) && !StartsWith(line, "[");
    assert lines[..1] == [header];
    assert lines[..0] == [];
    assert CargoScan([header]) == CargoState([], true);
    assert CargoScan(lines) == CargoStep(CargoState([], true), line);
  }

  lemma HeaderExample()
    ensures IsDepsHeader("[dependencies]")
  {
    var header := "[dependencies]";
    assert OccursAt(Lower(header), "dependencies", 1);
    assert ClosesAfter(header, 13) by { assert header[13] == ']'; }
  }

  lemma CrateLineExample()
    ensures CrateName("diesel = \"2.0\"") == Some("diesel")
  {
    var line := "diesel = \"2.0\"";
    assert line[6] == ' ' && line[7] == '=';
    assert SpanWhile(line, 6, NotSpace) == 6;
    assert SpanWhile(line, 5, NotSpace) == 6;
    assert SpanWhile(line, 4, NotSpace) == 6;
    assert SpanWhile(line, 3, NotSpace) == 6;
    assert SpanWhile(line, 2, NotSpace) == 6;
    assert SpanWhile(line, 1, NotSpace) == 6;
    assert SpanWhile(line, 0, NotSpace) == 6;
    assert SpanWhile(line, 7, IsSpace) == 7;
    assert SpanWhile(line, 6, IsSpace) == 7;
    assert line[..6] == "diesel";
  }

  /** `_extract_cargo_deps`: the crate names of a Cargo.toml. */
  method ExtractCargoDeps(content: string) returns (names: seq<string>)
    ensures names == CargoDeps(SplitLines(content))
  {
    var lines := SplitLines(content);
    names := [];
    var inDeps := false;
    var i := 0;
    while i < |lines|
      invariant 0 <= i <= |lines|
      invariant CargoScan(lines[..i]) == CargoState(names, inDeps)
    {
      assert lines[..i + 1][..i] == lines[..i];
      var line := lines[i];
      i := i + 1;
      if IsDepsHeader(line) {
        inDeps := true;
        continue;
      }
      if StartsWith(line, "[") {
        inDeps := false;
        continue;
      }
      if inDeps {
        var m := CrateName(line);
        if m.Some? {
          names := names + [m.value];
        }
      }
    }
    assert lines[..|lines|] == lines;
  }
}
