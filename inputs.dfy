/** The input parser: a repository list is either a JSON array of
    `{"name", "url"}` objects or plain text with one url per line; a
    missing name is derived from the url. Reading the file is left to the
    caller, who hands over its text. */
module InputParser {
  import opened Wrappers
  import opened Text
  import opened Seqs
  import opened Json

  /** One repository to scan. */
  datatype RepoEntry = RepoEntry(name: string, url: string)

  predicate EndsWith(s: string, suffix: string) {
    |suffix| <= |s| && s[|s| - |suffix|..] == suffix
  }

  /** `s.rstrip("/")`. */
  function TrimSlashes(s: string): (r: string)
    ensures |r| <= |s| && r == s[..|r|]
    ensures r == [] || r[|r| - 1] != '/'
    ensures forall k :: |r| <= k < |s| ==> s[k] == '/'
  {
    if s != [] && s[|s| - 1] == '/' then TrimSlashes(s[..|s| - 1]) else s
  }

  /** `s.removesuffix(".git")`. */
  function DropGitSuffix(s: string): (r: string)
    ensures EndsWith(s, ".git") ==> r == s[..|s| - 4]
    ensures !EndsWith(s, ".git") ==> r == s
  {
    if EndsWith(s, ".git") then s[..|s| - 4] else s
  }

  /** `s.rsplit("/", 1)[-1]`: the text after the last `/`, or all of `s`. */
  function LastSegment(s: string): (r: string)
    ensures |r| <= |s| && r == s[|s| - |r|..]
    ensures forall k :: 0 <= k < |r| ==> r[k] != '/'
    ensures |r| < |s| ==> s[|s| - |r| - 1] == '/'
  {
    if s == [] || s[|s| - 1] == '/' then []
    else LastSegment(s[..|s| - 1]) + [s[|s| - 1]]
  }

  /** The name given to a url without a last segment. */
  function UnknownName(): (r: string)
    ensures r != [] && '/' !in r
  {
    "unknown"
  }

  /** `_name_from_url`: trailing slashes and then one `.git` suffix are
      removed, the last path segment is the name, and `"unknown"` stands in
      for an empty one. */
  function NameFromUrl(url: string): (name: string)
    ensures name != [] && '/' !in name
  {
    var last := LastSegment(DropGitSuffix(TrimSlashes(url)));
    if last == [] then UnknownName() else last
  }

  lemma {:induction false} LastSegmentAfterSlash(p: string, n: string)
    requires '/' !in n
    ensures LastSegment(p + "/" + n) == n
  {
    if n == [] {
      assert p + "/" + n == p + "/";
    } else {
      var m := n[..|n| - 1];
      LastSegmentAfterSlash(p, m);
      assert (p + "/" + n)[..|p + "/" + n| - 1] == p + "/" + m;
      assert m + [n[|n| - 1]] == n;
    }
  }

  /** A url whose last segment is a plain name yields that name. */
  lemma NameOfPlainUrl(p: string, n: string)
    requires n != [] && '/' !in n
    requires !EndsWith(n, ".git")
    ensures NameFromUrl(p + "/" + n) == n
  {
    var u := p + "/" + n;
    assert u[|u| - 1] == n[|n| - 1];
    assert TrimSlashes(u) == u;
    if |n| >= 4 {
      assert u[|u| - 4..] == n[|n| - 4..];
    } else if |u| >= 4 {
      assert u[|u| - 4..][3 - |n|] == '/';
    }
    assert DropGitSuffix(u) == u;
    LastSegmentAfterSlash(p, n);
  }

  /** The same name with a `.git` suffix on the url. */
  lemma NameOfGitUrl(p: string, n: string)
    requires n != [] && '/' !in n
    requires !EndsWith(n, ".git")
    ensures NameFromUrl(p + "/" + n + ".git") == n
  {
    var u := p + "/" + n;
    var g := u + ".git";
    assert g[|g| - 1] == 't';
    assert TrimSlashes(g) == g;
    assert g[|g| - 4..] == ".git";
    assert g[..|g| - 4] == u;
    LastSegmentAfterSlash(p, n);
  }

  /** Trailing slashes do not change the name. */
  lemma TrailingSlashIgnored(u: string)
    ensures NameFromUrl(u + "/") == NameFromUrl(u)
  {
    assert (u + "/")[..|u|] == u;
  }

  /** Whatever precedes it, `/repo.git/` names the repository `repo`. */
  lemma NameExample(p: string)
    ensures NameFromUrl(p + "/repo.git/") == "repo"
  {
    var n := "repo";
    var u := p + "/" + n;
    var g := u + ".git";
    assert g + "/" == p + "/repo.git/";
    assert (g + "/")[..|g|] == g;
    assert g[|g| - 1] == 't';
    assert TrimSlashes(g + "/") == g;
    assert g[|g| - 4..] == ".git";
    assert g[..|g| - 4] == u;
    assert '/' !in n;
    LastSegmentAfterSlash(p, n);
  }

  /** An empty url falls back to `unknown`. */
  lemma EmptyUrlName()
    ensures NameFromUrl("") == "unknown"
  {
  }

  // ---------------------------------------------------------------------
  // Plain-text lists

  /** The entry one line contributes: blank and `#` lines none, any other
      line its stripped text as url. */
  function LineEntry(line: string): (r: Option<RepoEntry>)
    ensures r.Some? <==> Strip(line) != [] && Strip(line)[0] != '#'
    ensures r.Some? ==> r.value == RepoEntry(NameFromUrl(Strip(line)), Strip(line))
  {
    var l := Strip(line);
    if l == [] || l[0] == '#' then None else Some(RepoEntry(NameFromUrl(l), l))
  }

  /** The entries of a plain-text list given as lines, in line order. */
  function TextEntries(lines: seq<string>): (repos: seq<RepoEntry>)
    ensures |repos| <= |lines|
  {
    Gather(lines, LineEntry)
  }

  /** Every entry comes from one non-blank, non-comment line: its url is
      that line stripped, its name derived from the url; and every such
      line yields one. */
  lemma TextEntriesFromLines(lines: seq<string>, e: RepoEntry)
    ensures e in TextEntries(lines) <==>
              exists i :: 0 <= i < |lines| && Strip(lines[i]) != [] && Strip(lines[i])[0] != '#' &&
                e == RepoEntry(NameFromUrl(Strip(lines[i])), Strip(lines[i]))
  {
    GatherMembers(lines, LineEntry, e);
  }

  /** Entries keep line order: the entries of two blocks of lines are the
      entries of the first block followed by those of the second. */
  lemma TextEntriesAppend(a: seq<string>, b: seq<string>)
    ensures TextEntries(a + b) == TextEntries(a) + TextEntries(b)
  {
    GatherAppend(a, b, LineEntry);
  }

  /** The plain-text branch of `parse_input_file`: each line stripped,
      blank and `#` lines skipped, the others appended in order. */
  method ParseTextList(raw: string) returns (repos: seq<RepoEntry>)
    ensures repos == TextEntries(SplitLines(raw))
  {
    var lines := SplitLines(raw);
    repos := [];
    for i := 0 to |lines|
      invariant repos == TextEntries(lines[..i])
    {
      assert lines[..i + 1][..i] == lines[..i];
      var line := Strip(lines[i]);
      if line == [] || line[0] == '#' {
        continue;
      }
      repos := repos + [RepoEntry(NameFromUrl(line), line)];
    }
    assert lines[..|lines|] == lines;
  }

  // ---------------------------------------------------------------------
  // JSON lists

  /** Why a JSON list is refused: the text does not parse, the document is
      not an array, or the item at `index` is not an object with a string
      `url` (and, when present, a string `name`). */
  datatype InputError = Unparsable | NotAList | BadItem(index: nat)

  /** One array item: the url is required and the name defaults to the one
      the url gives. */
  function ItemEntry(item: Json): (r: Option<RepoEntry>)
    ensures r.Some? ==> item.Object? && Get(item.members, "url") == Some(Str(r.value.url))
    ensures r.Some? && Get(item.members, "name").None? ==> r.value.name == NameFromUrl(r.value.url)
    ensures r.Some? && Get(item.members, "name").Some? ==> Get(item.members, "name") == Some(Str(r.value.name))
    ensures r.Some? <==> item.Object? && Get(item.members, "url").Some? && Get(item.members, "url").value.Str? &&
                         (Get(item.members, "name").None? || Get(item.members, "name").value.Str?)
  {
    if !item.Object? then None
    else
      match Get(item.members, "url")
      case Some(Str(url)) =>
        (match Get(item.members, "name")
         case None => Some(RepoEntry(NameFromUrl(url), url))
         case Some(Str(name)) => Some(RepoEntry(name, url))
         case Some(_) => None)
      case _ => None
  }

  /** The items in order; the first bad one fails the whole list. */
  function ItemEntries(items: seq<Json>): (r: Result<seq<RepoEntry>, InputError>)
    ensures r.Ok? ==> |r.value| == |items|
    ensures r.Ok? ==> forall i :: 0 <= i < |items| ==> ItemEntry(items[i]) == Some(r.value[i])
    ensures r.Err? ==> r.error.BadItem? && r.error.index < |items|
    ensures r.Err? ==> ItemEntry(items[r.error.index]).None?
    ensures r.Err? ==> forall i :: 0 <= i < r.error.index ==> ItemEntry(items[i]).Some?
  {
    match MapAll(items, ItemEntry)
    case Ok(entries) => Ok(entries)
    case Err(i) => Err(BadItem(i))
  }

  /** What `parse_input_file` makes of the file's text; `parse` stands for
      `json.loads`, `None` where it raises. */
  function ParsedInput(text: string, parse: string -> Option<Json>): Result<seq<RepoEntry>, InputError> {
    var raw := Strip(text);
    if StartsWith(raw, "[") then
      match parse(raw)
      case None => Err(Unparsable)
      case Some(Array(items)) => ItemEntries(items)
      case Some(_) => Err(NotAList)
    else Ok(TextEntries(SplitLines(raw)))
  }

  /** The JSON reading is used exactly when the stripped text starts with
      `[`: otherwise the parser is never consulted and nothing fails. */
  lemma JsonBranchChoice(text: string, parse: string -> Option<Json>, other: string -> Option<Json>)
    ensures !StartsWith(Strip(text), "[") ==> ParsedInput(text, parse) == ParsedInput(text, other)
    ensures !StartsWith(Strip(text), "[") ==> ParsedInput(text, parse).Ok?
    ensures StartsWith(Strip(text), "[") && parse(Strip(text)).None? ==> ParsedInput(text, parse) == Err(Unparsable)
  {
  }

  /** An item without a `name` is named after its url. */
  lemma MissingNameDefaults(url: string, members: seq<(string, Json)>)
    requires Get(members, "url") == Some(Str(url)) && Get(members, "name").None?
    ensures ItemEntry(Object(members)) == Some(RepoEntry(NameFromUrl(url), url))
  {
  }

  /** `parse_input_file` once the file is read. */
  method ParseInput(text: string, parse: string -> Option<Json>) returns (r: Result<seq<RepoEntry>, InputError>)
    ensures r == ParsedInput(text, parse)
  {
    var raw := Strip(text);
    if StartsWith(raw, "[") {
      var doc := parse(raw);
      if doc.None? {
        return Err(Unparsable);
      }
      if !doc.value.Array? {
        return Err(NotAList);
      }
      return ItemEntries(doc.value.items);
    }
    var repos := ParseTextList(raw);
    return Ok(repos);
  }
}
