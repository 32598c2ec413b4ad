/** `analyse`: build the file index, read every manifest once through the
    content cache into the dependency map and the list of environment
    variable names, then evaluate each rule in catalog order and report
    the ones that match. A rule whose evaluation raises is only left out
    of the result. */
module Analyser {
  import opened Wrappers
  import opened Text
  import opened Seqs
  import opened Json
  import opened Rules
  import opened Catalog
  import opened Extractors
  import opened Patterns
  import opened Manifests
  import opened FileSystems
  import opened FileIndex
  import opened ContentCaches
  import opened Evaluator

  const RequirementFiles: seq<string> := ["requirements.txt", "requirements-dev.txt", "requirements-base.txt"]
  const ComposeFiles: seq<string> := ["docker-compose.yml", "docker-compose.yaml", "compose.yml", "compose.yaml"]
  const EnvFiles: seq<string> := [".env", ".env.local", ".env.example", ".env.development", ".env.production", ".env.test"]

  /** `if c:` on a cached read: the file was read and is not empty. */
  predicate HasText(c: Option<string>) {
    c.Some? && c.value != []
  }

  function RequirementsText(c: string): seq<string> { PythonDeps(SplitLines(c)) }

  function EnvText(c: string): seq<string> { EnvNames(SplitLines(c)) }

  /** The names `extract` takes from each of `files` that has text, one
      file after another. */
  function FromFiles(fs: FileSystem, files: seq<string>, extract: string -> seq<string>): seq<string> {
    if files == [] then []
    else
      var c := fs.ReadFile(files[|files| - 1]);
      FromFiles(fs, files[..|files| - 1], extract) + (if HasText(c) then extract(c.value) else [])
  }

  /** The names extracted from one file, `[]` when it has no text. */
  function FromFile(fs: FileSystem, file: string, extract: string -> seq<string>): seq<string> {
    var c := fs.ReadFile(file);
    if HasText(c) then extract(c.value) else []
  }

  /** Reading one more file appends what it yields. */
  lemma FromFilesStep(fs: FileSystem, files: seq<string>, i: nat, extract: string -> seq<string>)
    requires i < |files|
    ensures FromFiles(fs, files[..i + 1], extract) == FromFiles(fs, files[..i], extract) + FromFile(fs, files[i], extract)
  {
    assert files[..i + 1][..i] == files[..i];
  }

  function NpmOf(fs: FileSystem, parse: string -> Option<Json>): seq<string> {
    var c := fs.ReadFile("package.json");
    if HasText(c) then NpmDeps(parse(c.value)) else []
  }

  function PhpOf(fs: FileSystem, parse: string -> Option<Json>): seq<string> {
    var c := fs.ReadFile("composer.json");
    if HasText(c) then ComposerDeps(parse(c.value)) else []
  }

  function CargoText(c: string): seq<string> { CargoDeps(SplitLines(c)) }

  /** Requirements files first, then the `pyproject.toml` array. */
  function PythonOf(fs: FileSystem): seq<string> {
    FromFiles(fs, RequirementFiles, RequirementsText) + FromFile(fs, "pyproject.toml", PyprojectDeps)
  }

  /** Compose files first, then the Dockerfile. */
  function DockerOf(fs: FileSystem): seq<string> {
    FromFiles(fs, ComposeFiles, ComposeImages) + FromFile(fs, "Dockerfile", DockerfileImages)
  }

  /** `deps_map` once every manifest has been read. */
  function DepsMapOf(fs: FileSystem, parse: string -> Option<Json>): map<string, seq<string>> {
    map[
      "npm" := NpmOf(fs, parse),
      "python" := PythonOf(fs),
      "ruby" := FromFile(fs, "Gemfile", RubyDeps),
      "golang" := FromFile(fs, "go.mod", GoDeps),
      "rust" := FromFile(fs, "Cargo.toml", CargoText),
      "docker" := DockerOf(fs),
      "php" := PhpOf(fs, parse)
    ]
  }

  /** `env_var_names` once every dotenv file has been read. */
  function EnvNamesOf(fs: FileSystem): seq<string> {
    FromFiles(fs, EnvFiles, EnvText)
  }

  /** The dependency map has exactly the seven ecosystem keys, so every
      rule dependency's ecosystem is found in it. */
  lemma DepsMapKeys(fs: FileSystem, parse: string -> Option<Json>)
    ensures DepsMapOf(fs, parse).Keys == set t | t in DepTypes
    ensures forall d: DepType :: d.Tag() in DepsMapOf(fs, parse)
  {
    var keys := DepsMapOf(fs, parse).Keys;
    assert keys == {"npm", "python", "ruby", "golang", "rust", "docker", "php"};
    forall d: DepType ensures d.Tag() in keys {
      DepTagsDeclared(d, d);
    }
  }

  /** Everything a rule is evaluated against. */
  datatype Context = Context(ix: Index, fs: FileSystem, deps: map<string, seq<string>>, envNames: seq<string>)

  function ContextOf(fs: FileSystem, parse: string -> Option<Json>): Context {
    Context(IndexOf(fs), fs, DepsMapOf(fs, parse), EnvNamesOf(fs))
  }

  /** One reported technology: `{"name": …, "type": …}`. */
  datatype Detection = Detection(name: string, techType: TechType)

  /** The rule is evaluated without raising and matches. */
  predicate Reported(rule: Rule, ctx: Context, faulty: set<string>) {
    rule.id !in faulty && Matches(rule, ctx.ix, ctx.fs, ctx.deps, ctx.envNames)
  }

  /** The scan over the rules, in order; `faulty` holds the ids of rules
      whose evaluation raises. */
  function Detect(rules: seq<Rule>, ctx: Context, faulty: set<string>): (r: seq<Detection>)
    ensures |r| <= |rules|
  {
    if rules == [] then []
    else
      var rule := rules[|rules| - 1];
      Detect(rules[..|rules| - 1], ctx, faulty) +
        (if Reported(rule, ctx, faulty) then [Detection(rule.name, rule.techType)] else [])
  }

  /** The scan distributes over concatenation: the rules of `a` are
      reported before those of `b`, as in catalog order. */
  lemma {:induction false} DetectAppend(a: seq<Rule>, b: seq<Rule>, ctx: Context, faulty: set<string>)
    ensures Detect(a + b, ctx, faulty) == Detect(a, ctx, faulty) + Detect(b, ctx, faulty)
  {
    if b != [] {
      var pre := b[..|b| - 1];
      var last := b[|b| - 1];
      DetectAppend(a, pre, ctx, faulty);
      assert (a + b)[..|a + b| - 1] == a + pre;
      assert (a + b)[|a + b| - 1] == last;
      var out := if Reported(last, ctx, faulty) then [Detection(last.name, last.techType)] else [];
      assert Detect(a + b, ctx, faulty) == Detect(a + pre, ctx, faulty) + out;
      assert Detect(b, ctx, faulty) == Detect(pre, ctx, faulty) + out;
    } else {
      assert a + b == a;
    }
  }

  /** A detection is reported exactly when some rule produces it. */
  lemma {:induction false} DetectMembers(rules: seq<Rule>, ctx: Context, faulty: set<string>, d: Detection)
    ensures d in Detect(rules, ctx, faulty) <==>
              exists i :: 0 <= i < |rules| && Reported(rules[i], ctx, faulty) &&
                d == Detection(rules[i].name, rules[i].techType)
  {
    if rules != [] {
      var pre := rules[..|rules| - 1];
      DetectMembers(pre, ctx, faulty, d);
      assert forall i :: 0 <= i < |pre| ==> pre[i] == rules[i];
    }
  }

  /** A rule that raises is only omitted: the result is the one the other
      rules give. */
  lemma FaultyRuleOnlyOmitted(rules: seq<Rule>, i: nat, ctx: Context, faulty: set<string>)
    requires i < |rules| && rules[i].id in faulty
    ensures Detect(rules, ctx, faulty) == Detect(rules[..i] + rules[i + 1..], ctx, faulty)
  {
    var before, after := rules[..i], rules[i + 1..];
    assert rules == (before + [rules[i]]) + after;
    DetectAppend(before + [rules[i]], after, ctx, faulty);
    DetectAppend(before, [rules[i]], ctx, faulty);
    DetectAppend(before, after, ctx, faulty);
    DetectFaulty(rules[i], ctx, faulty);
    assert Detect(before, ctx, faulty) + [] == Detect(before, ctx, faulty);
  }

  lemma DetectFaulty(rule: Rule, ctx: Context, faulty: set<string>)
    requires rule.id in faulty
    ensures Detect([rule], ctx, faulty) == []
  {
    assert [rule][..0] == [];
  }

  /** The requirements files, read in turn through the cache. */
  method ReadRequirements(cache: ContentCache) returns (names: seq<string>)
    requires cache.Valid()
    modifies cache
    ensures cache.Valid() && old(cache.entries).Keys <= cache.entries.Keys
    ensures names == FromFiles(cache.fs, RequirementFiles, RequirementsText)
  {
    names := [];
    for i := 0 to |RequirementFiles|
      invariant cache.Valid() && old(cache.entries).Keys <= cache.entries.Keys
      invariant names == FromFiles(cache.fs, RequirementFiles[..i], RequirementsText)
    {
      FromFilesStep(cache.fs, RequirementFiles, i, RequirementsText);
      var c := cache.Read(RequirementFiles[i]);
      if c.Some? && c.value != [] {
        var more := ExtractPythonDeps(c.value);
        names := names + more;
      }
    }
    assert RequirementFiles[..|RequirementFiles|] == RequirementFiles;
  }

  /** The compose files, read in turn through the cache. */
  method ReadComposeImages(cache: ContentCache) returns (images: seq<string>)
    requires cache.Valid()
    modifies cache
    ensures cache.Valid() && old(cache.entries).Keys <= cache.entries.Keys
    ensures images == FromFiles(cache.fs, ComposeFiles, ComposeImages)
  {
    images := [];
    for i := 0 to |ComposeFiles|
      invariant cache.Valid() && old(cache.entries).Keys <= cache.entries.Keys
      invariant images == FromFiles(cache.fs, ComposeFiles[..i], ComposeImages)
    {
      FromFilesStep(cache.fs, ComposeFiles, i, ComposeImages);
      var c := cache.Read(ComposeFiles[i]);
      if c.Some? && c.value != [] {
        images := images + ComposeImages(c.value);
      }
    }
    assert ComposeFiles[..|ComposeFiles|] == ComposeFiles;
  }

  /** The dotenv files, read in turn through the cache. */
  method ReadEnvNames(cache: ContentCache) returns (names: seq<string>)
    requires cache.Valid()
    modifies cache
    ensures cache.Valid() && old(cache.entries).Keys <= cache.entries.Keys
    ensures names == EnvNamesOf(cache.fs)
  {
    names := [];
    for i := 0 to |EnvFiles|
      invariant cache.Valid() && old(cache.entries).Keys <= cache.entries.Keys
      invariant names == FromFiles(cache.fs, EnvFiles[..i], EnvText)
    {
      FromFilesStep(cache.fs, EnvFiles, i, EnvText);
      var c := cache.Read(EnvFiles[i]);
      if c.Some? && c.value != [] {
        var more := ExtractEnvNames(c.value);
        names := names + more;
      }
    }
    assert EnvFiles[..|EnvFiles|] == EnvFiles;
  }

  /** A single manifest read through the cache and handed to `extract`
      when it has text. */
  method ReadFromFile(cache: ContentCache, file: string, extract: string -> seq<string>) returns (names: seq<string>)
    requires cache.Valid()
    modifies cache
    ensures cache.Valid() && old(cache.entries).Keys <= cache.entries.Keys
    ensures names == FromFile(cache.fs, file, extract)
  {
    names := [];
    var c := cache.Read(file);
    if c.Some? && c.value != [] {
      names := extract(c.value);
    }
  }

  method ReadPython(cache: ContentCache) returns (names: seq<string>)
    requires cache.Valid()
    modifies cache
    ensures cache.Valid() && old(cache.entries).Keys <= cache.entries.Keys
    ensures names == PythonOf(cache.fs)
  {
    names := ReadRequirements(cache);
    var more := ReadFromFile(cache, "pyproject.toml", PyprojectDeps);
    names := names + more;
  }

  method ReadDocker(cache: ContentCache) returns (images: seq<string>)
    requires cache.Valid()
    modifies cache
    ensures cache.Valid() && old(cache.entries).Keys <= cache.entries.Keys
    ensures images == DockerOf(cache.fs)
  {
    images := ReadComposeImages(cache);
    var more := ReadFromFile(cache, "Dockerfile", DockerfileImages);
    images := images + more;
  }

  /** `Cargo.toml`, through the imperative section scanner. */
  method ReadCargo(cache: ContentCache) returns (names: seq<string>)
    requires cache.Valid()
    modifies cache
    ensures cache.Valid() && old(cache.entries).Keys <= cache.entries.Keys
    ensures names == FromFile(cache.fs, "Cargo.toml", CargoText)
  {
    names := [];
    var c := cache.Read("Cargo.toml");
    if c.Some? && c.value != [] {
      names := ExtractCargoDeps(c.value);
    }
  }

  method ReadJson(cache: ContentCache, file: string, parse: string -> Option<Json>, sections: seq<string>)
    returns (names: seq<string>)
    requires cache.Valid()
    modifies cache
    ensures cache.Valid() && old(cache.entries).Keys <= cache.entries.Keys
    ensures var c := cache.fs.ReadFile(file);
            names == if HasText(c) then SectionUnion(parse(c.value), sections) else []
  {
    names := [];
    var c := cache.Read(file);
    if c.Some? && c.value != [] {
      names := SectionUnion(parse(c.value), sections);
    }
  }

  /** Step 3 of `analyse`: the dependency map, each manifest read through
      the cache. */
  method CollectDeps(cache: ContentCache, parse: string -> Option<Json>) returns (deps: map<string, seq<string>>)
    requires cache.Valid()
    modifies cache
    ensures cache.Valid() && old(cache.entries).Keys <= cache.entries.Keys
    ensures deps == DepsMapOf(cache.fs, parse)
  {
    var npm := ReadJson(cache, "package.json", parse, NpmSections);
    var python := ReadPython(cache);
    var ruby := ReadFromFile(cache, "Gemfile", RubyDeps);
    var golang := ReadFromFile(cache, "go.mod", GoDeps);
    var rust := ReadCargo(cache);
    var php := ReadJson(cache, "composer.json", parse, ComposerSections);
    var docker := ReadDocker(cache);
    deps := map["npm" := npm, "python" := python, "ruby" := ruby, "golang" := golang,
                "rust" := rust, "docker" := docker, "php" := php];
  }

  /** Step 5 of `analyse`: every rule in order, a raising rule skipped. */
  method ScanRules(rules: seq<Rule>, ix: Index, cache: ContentCache, deps: map<string, seq<string>>,
                   envNames: seq<string>, faulty: set<string>) returns (matched: seq<Detection>)
    requires cache.Valid()
    modifies cache
    ensures cache.Valid()
    ensures matched == Detect(rules, Context(ix, cache.fs, deps, envNames), faulty)
  {
    matched := [];
    for i := 0 to |rules|
      invariant cache.Valid()
      invariant matched == Detect(rules[..i], Context(ix, cache.fs, deps, envNames), faulty)
    {
      assert rules[..i + 1][..i] == rules[..i];
      if rules[i].id in faulty {
        continue;
      }
      var hit := EvaluateRule(rules[i], ix, cache, deps, envNames);
      if hit {
        matched := matched + [Detection(rules[i].name, rules[i].techType)];
      }
    }
    assert rules[..|rules|] == rules;
  }

  /** `analyse` over a given rule list; `parse` stands for `json.loads`
      (`None` where it raises) and `faulty` for the rules whose evaluation
      raises. */
  method Analyse(fs: FileSystem, rules: seq<Rule>, parse: string -> Option<Json>, faulty: set<string>)
    returns (matched: seq<Detection>)
    ensures matched == Detect(rules, ContextOf(fs, parse), faulty)
  {
    var ix := BuildIndex(fs);
    var cache := new ContentCache(fs);
    var deps := CollectDeps(cache, parse);
    var envNames := ReadEnvNames(cache);
    matched := ScanRules(rules, ix, cache, deps, envNames, faulty);
  }

  /** `analyse(repo_path)`: the scan over the catalog. */
  method AnalyseRepository(fs: FileSystem, parse: string -> Option<Json>, faulty: set<string>)
    returns (matched: seq<Detection>)
    ensures matched == Detect(AllRules(), ContextOf(fs, parse), faulty)
  {
    matched := Analyse(fs, AllRules(), parse, faulty);
  }
}
