/** The package manifests the analyser reads as structured documents:
    `package.json` and `composer.json` (parsed JSON, sections unioned key by
    key) and the `[project]` dependency array of `pyproject.toml`, which is
    located by a regular expression and then read like a requirements
    file. */
module Manifests {
  import opened Wrappers
  import opened Text
  import opened Seqs
  import opened Json
  import opened Extractors

  const NpmSections: seq<string> := ["dependencies", "devDependencies", "peerDependencies", "optionalDependencies"]
  const ComposerSections: seq<string> := ["require", "require-dev"]

  /** The document parsed, is an object, and each section is absent or an
      object: nothing in the extraction raises. */
  predicate Usable(doc: Option<Json>, sections: seq<string>) {
    doc.Some? && doc.value.Object? && WellShaped(doc.value.members, sections)
  }

  /** The keys of each section in turn; `[]` when parsing or any lookup
      fails, since the extractor catches every exception. */
  function SectionUnion(doc: Option<Json>, sections: seq<string>): (r: seq<string>)
    ensures !Usable(doc, sections) ==> r == []
    ensures forall name :: name in r <==>
              Usable(doc, sections) &&
              exists i :: 0 <= i < |sections| && name in SectionKeys(doc.value.members, sections[i])
  {
    if Usable(doc, sections) then
      var ms := doc.value.members;
      forall name ensures name in Collect(ms, sections) <==>
          exists i :: 0 <= i < |sections| && name in SectionKeys(ms, sections[i]) {
        CollectedNames(ms, sections, name);
      }
      Collect(ms, sections)
    else []
  }

  /** `_extract_npm_deps`; `None` stands for a document `json.loads`
      rejects. */
  function NpmDeps(doc: Option<Json>): seq<string> {
    SectionUnion(doc, NpmSections)
  }

  /** `_extract_composer_deps`. */
  function ComposerDeps(doc: Option<Json>): seq<string> {
    SectionUnion(doc, ComposerSections)
  }

  /** npm names come section by section in the fixed order, each section's
      keys once and in document order. */
  lemma NpmSectionOrder(ms: seq<(string, Json)>)
    requires WellShaped(ms, NpmSections)
    ensures NpmDeps(Some(Object(ms))) ==
              SectionKeys(ms, "dependencies") + SectionKeys(ms, "devDependencies") +
              SectionKeys(ms, "peerDependencies") + SectionKeys(ms, "optionalDependencies")
  {
    var parts := seq(4, i requires 0 <= i < 4 => SectionKeys(ms, NpmSections[i]));
    assert parts[..3][..2][..1][..0] == [];
    assert Flatten(parts) == Flatten(parts[..3]) + parts[3];
    assert Flatten(parts[..3]) == Flatten(parts[..3][..2]) + parts[2];
    assert Flatten(parts[..3][..2]) == Flatten(parts[..3][..2][..1]) + parts[1];
    assert Flatten(parts[..3][..2][..1]) == parts[0];
  }

  /** composer names are the keys of `require`, then of `require-dev`. */
  lemma ComposerSectionOrder(ms: seq<(string, Json)>)
    requires WellShaped(ms, ComposerSections)
    ensures ComposerDeps(Some(Object(ms))) == SectionKeys(ms, "require") + SectionKeys(ms, "require-dev")
  {
    var parts := seq(2, i requires 0 <= i < 2 => SectionKeys(ms, ComposerSections[i]));
    assert parts[..1][..0] == [];
    assert Flatten(parts) == Flatten(parts[..1]) + parts[1];
    assert Flatten(parts[..1]) == parts[0];
  }

  /** A section that is present but not an object (a list, a string,
      `null`) makes the whole extraction yield nothing, even when the other
      sections are fine. */
  lemma BadSectionSpoilsAll(ms: seq<(string, Json)>, sections: seq<string>, i: nat)
    requires i < |sections| && BadSection(ms, sections[i])
    ensures SectionUnion(Some(Object(ms)), sections) == []
  {
    assert !WellShaped(ms, sections);
  }

  // pyproject.toml: `\[project\][\s\S]*?dependencies\s*=\s*\[([\s\S]*?)\]`

  predicate IsCloseBracket(c: char) { c == ']' }

  /** The rest of the pattern tried with `dependencies` at `j`: the lazy
      group runs to the first `]` after the `[`. */
  function AssignmentAt(s: string, j: nat): (r: Option<string>)
    requires j <= |s|
    ensures r.Some? ==> OccursAt(s, "dependencies", j) && ']' !in r.value
  {
    if !OccursAt(s, "dependencies", j) then None
    else
      var a := SpanWhile(s, j + 12, IsSpace);
      if a == |s| || s[a] != '=' then None
      else
        var b := SpanWhile(s, a + 1, IsSpace);
        if b == |s| || s[b] != '[' then None
        else
          var c := SpanWhile(s, b + 1, c => !IsCloseBracket(c));
          if c == |s| then None
          else Some(s[b + 1..c])
  }

  /** The lazy `[\s\S]*?` after `[project]`: the nearest position from `j`
      where the rest of the pattern succeeds. */
  function FirstAssignment(s: string, j: nat): (r: Option<string>)
    requires j <= |s|
    ensures r.Some? ==> exists k :: j <= k <= |s| && AssignmentAt(s, k) == r
    decreases |s| - j
  {
    match AssignmentAt(s, j)
    case Some(block) => Some(block)
    case None => if j == |s| then None else FirstAssignment(s, j + 1)
  }

  /** `re.search`: the first `[project]` from which the rest succeeds, and
      its group. */
  function ProjectBlock(s: string, i: nat): (r: Option<string>)
    requires i <= |s|
    ensures r.Some? ==> exists k :: i <= k && k + 9 <= |s| && OccursAt(s, "[project]", k)
    decreases |s| - i
  {
    if i + 9 > |s| then None
    else if OccursAt(s, "[project]", i) && FirstAssignment(s, i + 9).Some? then
      FirstAssignment(s, i + 9)
    else ProjectBlock(s, i + 1)
  }

  /** `text.replace('"', "")`. */
  function DropQuotes(s: string): (r: string)
    ensures '"' !in r
    ensures multiset(r) == multiset(s)['"' := 0]
    ensures '"' !in s ==> r == s
  {
    if s == [] then []
    else
      assert s == [s[0]] + s[1..];
      (if s[0] == '"' then [] else [s[0]]) + DropQuotes(s[1..])
  }

  /** The characters that stay keep their order: dropping quotes from two
      pieces and joining them is dropping quotes from the whole. */
  lemma {:induction false} DropQuotesAppend(a: string, b: string)
    ensures DropQuotes(a + b) == DropQuotes(a) + DropQuotes(b)
  {
    if a != [] {
      var ab := a + b;
      assert ab[0] == a[0] && ab[1..] == a[1..] + b;
      DropQuotesFirst(a);
      DropQuotesFirst(ab);
      DropQuotesAppend(a[1..], b);
      var h := if a[0] == '"' then "" else [a[0]];
      Regroup(DropQuotes(ab), h, DropQuotes(a[1..]), DropQuotes(b));
    } else {
      assert a + b == b;
    }
  }

  lemma Regroup(whole: string, h: string, x: string, y: string)
    requires whole == h + (x + y)
    ensures whole == (h + x) + y
  {
  }

  lemma DropQuotesFirst(s: string)
    requires s != []
    ensures DropQuotes(s) == (if s[0] == '"' then "" else [s[0]]) + DropQuotes(s[1..])
  {
  }

  /** The names a `pyproject.toml` adds to the Python dependencies: the
      `[project]` dependency array, without its quotes, read line by line
      as a requirements file. */
  function PyprojectDeps(s: string): (names: seq<string>)
    ensures forall n :: n in names ==> IsPackageName(n)
    ensures names != [] ==> ProjectBlock(s, 0).Some?
  {
    match ProjectBlock(s, 0)
    case Some(block) => PythonDeps(SplitLines(DropQuotes(block)))
    case None => []
  }
}
