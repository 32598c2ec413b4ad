/** `_evaluate_rule`: a rule matches when any of its five strategies hits,
    tried in a fixed order (marker files, extensions, content substrings,
    dependency names, dotenv prefixes); the first hit ends the
    evaluation. */
module Evaluator {
  import opened Wrappers
  import opened Text
  import opened Rules
  import opened FileSystems
  import opened FileIndex
  import opened ContentCaches

  /** `deps_map.get(tag, [])`. */
  function Lookup(deps: map<string, seq<string>>, tag: string): (r: seq<string>)
    ensures tag !in deps ==> r == []
    ensures tag in deps ==> r == deps[tag]
  {
    if tag in deps then deps[tag] else []
  }

  /** A marker file is known to the index or exists on disk. */
  predicate FileFound(f: string, ix: Index, fs: FileSystem) {
    f in ix.names || f in ix.paths || fs.Exists(f)
  }

  predicate FileHit(rule: Rule, ix: Index, fs: FileSystem) {
    rule.ruleMatch.Some? &&
    exists i :: 0 <= i < |rule.ruleMatch.value.files| && FileFound(rule.ruleMatch.value.files[i], ix, fs)
  }

  predicate ExtensionHit(rule: Rule, ix: Index) {
    rule.ruleMatch.Some? &&
    exists i :: 0 <= i < |rule.ruleMatch.value.extensions| && rule.ruleMatch.value.extensions[i] in ix.extensions
  }

  /** One of the substrings occurs in the file; an unreadable file is
      skipped. */
  predicate PatternFound(cp: ContentPattern, fs: FileSystem) {
    var content := fs.ReadFile(cp.file);
    content.Some? && exists j :: 0 <= j < |cp.patterns| && Contains(content.value, cp.patterns[j])
  }

  predicate ContentHit(rule: Rule, fs: FileSystem) {
    rule.ruleMatch.Some? &&
    exists i :: 0 <= i < |rule.ruleMatch.value.contentPatterns| && PatternFound(rule.ruleMatch.value.contentPatterns[i], fs)
  }

  /** An extracted name of the dependency's ecosystem equals its name
      exactly. */
  predicate DependencyFound(d: RuleDependency, deps: map<string, seq<string>>) {
    d.name in Lookup(deps, d.depType.Tag())
  }

  predicate DependencyHit(rule: Rule, deps: map<string, seq<string>>) {
    exists i :: 0 <= i < |rule.dependencies| && DependencyFound(rule.dependencies[i], deps)
  }

  /** Some environment variable name starts with the prefix. */
  predicate PrefixFound(prefix: string, envNames: seq<string>) {
    exists j :: 0 <= j < |envNames| && StartsWith(envNames[j], prefix)
  }

  predicate DotenvHit(rule: Rule, envNames: seq<string>) {
    exists i :: 0 <= i < |rule.dotenv| && PrefixFound(rule.dotenv[i], envNames)
  }

  /** What `_evaluate_rule` answers. */
  predicate Matches(rule: Rule, ix: Index, fs: FileSystem, deps: map<string, seq<string>>, envNames: seq<string>) {
    FileHit(rule, ix, fs) || ExtensionHit(rule, ix) || ContentHit(rule, fs) ||
    DependencyHit(rule, deps) || DotenvHit(rule, envNames)
  }

  /** `_evaluate_rule`, reading content files through the cache. The
      strategies run in order and stop at the first hit, so a rule that
      hits on a file or an extension reads nothing. */
  method EvaluateRule(rule: Rule, ix: Index, cache: ContentCache, deps: map<string, seq<string>>, envNames: seq<string>)
    returns (hit: bool)
    requires cache.Valid()
    modifies cache
    ensures cache.Valid()
    ensures hit == Matches(rule, ix, cache.fs, deps, envNames)
    ensures old(cache.entries).Keys <= cache.entries.Keys
    ensures FileHit(rule, ix, cache.fs) || ExtensionHit(rule, ix) ==>
              cache.entries == old(cache.entries) && cache.log == old(cache.log)
  {
    if rule.ruleMatch.Some? {
      var m := rule.ruleMatch.value;
      hit := FilesStrategy(m.files, ix, cache.fs);
      if hit {
        return;
      }
      hit := ExtensionsStrategy(m.extensions, ix);
      if hit {
        return;
      }
      hit := ContentStrategy(m.contentPatterns, cache);
      if hit {
        return;
      }
    }
    hit := DependenciesStrategy(rule.dependencies, deps);
    if hit {
      return;
    }
    hit := DotenvStrategy(rule.dotenv, envNames);
  }

  method FilesStrategy(files: seq<string>, ix: Index, fs: FileSystem) returns (hit: bool)
    ensures hit <==> exists i :: 0 <= i < |files| && FileFound(files[i], ix, fs)
  {
    for i := 0 to |files|
      invariant forall k :: 0 <= k < i ==> !FileFound(files[k], ix, fs)
    {
      var f := files[i];
      if f in ix.names || f in ix.paths {
        return true;
      }
      if fs.Exists(f) {
        return true;
      }
    }
    return false;
  }

  method ExtensionsStrategy(extensions: seq<Extension>, ix: Index) returns (hit: bool)
    ensures hit <==> exists i :: 0 <= i < |extensions| && extensions[i] in ix.extensions
  {
    for i := 0 to |extensions|
      invariant forall k :: 0 <= k < i ==> extensions[k] !in ix.extensions
    {
      if extensions[i] in ix.extensions {
        return true;
      }
    }
    return false;
  }

  method ContentStrategy(cps: seq<ContentPattern>, cache: ContentCache) returns (hit: bool)
    requires cache.Valid()
    modifies cache
    ensures cache.Valid()
    ensures hit <==> exists i :: 0 <= i < |cps| && PatternFound(cps[i], cache.fs)
    ensures old(cache.entries).Keys <= cache.entries.Keys
  {
    for i := 0 to |cps|
      invariant cache.Valid()
      invariant old(cache.entries).Keys <= cache.entries.Keys
      invariant forall k :: 0 <= k < i ==> !PatternFound(cps[k], cache.fs)
    {
      var content := cache.Read(cps[i].file);
      if content.Some? {
        var patterns := cps[i].patterns;
        for j := 0 to |patterns|
          invariant forall k :: 0 <= k < j ==> !Contains(content.value, patterns[k])
        {
          if Contains(content.value, patterns[j]) {
            return true;
          }
        }
      }
    }
    return false;
  }

  method DependenciesStrategy(ds: seq<RuleDependency>, deps: map<string, seq<string>>) returns (hit: bool)
    ensures hit <==> exists i :: 0 <= i < |ds| && DependencyFound(ds[i], deps)
  {
    for i := 0 to |ds|
      invariant forall k :: 0 <= k < i ==> !DependencyFound(ds[k], deps)
    {
      var pkgs := Lookup(deps, ds[i].depType.Tag());
      if pkgs == [] {
        continue;
      }
      for j := 0 to |pkgs|
        invariant ds[i].name !in pkgs[..j]
      {
        if pkgs[j] == ds[i].name {
          return true;
        }
      }
      assert pkgs[..|pkgs|] == pkgs;
    }
    return false;
  }

  method DotenvStrategy(prefixes: seq<string>, envNames: seq<string>) returns (hit: bool)
    ensures hit <==> exists i :: 0 <= i < |prefixes| && PrefixFound(prefixes[i], envNames)
  {
    if prefixes == [] || envNames == [] {
      return false;
    }
    for i := 0 to |prefixes|
      invariant forall k :: 0 <= k < i ==> !PrefixFound(prefixes[k], envNames)
    {
      for j := 0 to |envNames|
        invariant forall k :: 0 <= k < j ==> !StartsWith(envNames[k], prefixes[i])
      {
        if StartsWith(envNames[j], prefixes[i]) {
          return true;
        }
      }
    }
    return false;
  }

  /** A rule with no match, no dependencies and no dotenv prefixes never
      matches. */
  lemma NoStrategyNoMatch(rule: Rule, ix: Index, fs: FileSystem, deps: map<string, seq<string>>, envNames: seq<string>)
    requires rule.ruleMatch.None? || rule.ruleMatch == Some(RuleMatch([], [], []))
    requires rule.dependencies == [] && rule.dotenv == []
    ensures !Matches(rule, ix, fs, deps, envNames)
  {
  }

  /** Dependency names are compared whole: `react` is not found among
      `["react-dom"]`, only among lists holding `react` itself. */
  lemma DependencyNamesExact()
    ensures !DependencyFound(Npm("react"), map["npm" := ["react-dom"]])
    ensures DependencyFound(Npm("react"), map["npm" := ["react-dom", "react"]])
  {
    assert "react" != "react-dom";
    assert ["react-dom", "react"][1] == "react";
  }

  /** Dotenv prefixes anchor at the start: `AWS_` finds `AWS_REGION` but
      not `MY_AWS_REGION`. */
  lemma DotenvPrefixAnchored()
    ensures PrefixFound("AWS_", ["AWS_REGION"])
    ensures !PrefixFound("AWS_", ["MY_AWS_REGION"])
  {
    assert StartsWith(["AWS_REGION"][0], "AWS_");
    assert "MY_AWS_REGION"[..4][0] == 'M';
  }
}
