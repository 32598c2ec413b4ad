# py-scanner technology detection, modelled in Dafny

py-scanner reads a list of repositories, prepares each one locally
(either an existing directory or a shallow clone), and scans it against
a fixed catalog of detection rules. The scan of one repository works like
this:

- It indexes the repository's paths to depth two, the names at depths zero
  and one, and the file extensions at the root.
- It reads each manifest at most once, through a cache.
- It extracts dependency names per ecosystem (npm, Python, Ruby, Go, Rust,
  PHP, Docker) and the variable names of the dotenv files.
- It evaluates every rule in catalog order. The five strategies are marker
  files, extensions, content substrings, dependency names and dotenv
  prefixes. The first hit decides, and a rule that raises is skipped.

The matched technologies are then grouped into report buckets by type,
deduplicated in order, and wrapped in a success or an error report.

The model is organised as follows:

- `FileSystems` and `FileIndex` hold the snapshot and its index.
- `ContentCaches` holds the memoised reader, a class whose map of results
  grows in place.
- `Extractors`, `Patterns` and `Manifests` hold the dependency extractors.
- `Evaluator` holds the rule evaluation.
- `Analyser` holds the whole scan.
- `Rules` and `Catalog` hold the rule records and the catalog of 315
  rules.
- `Reporter` holds the bucketing and the reports.
- `InputParser` holds the repository list.
- `RepoManager` holds the url and path checks.
- `Text`, `Seqs`, `Json` and `Wrappers` hold the shared string, sequence
  and JSON vocabulary.

Loops that update state are methods with invariants. Each is proved equal
to a specification function, and the properties are lemmas about those
functions.

Two details of the index follow the code rather than what a reader might
expect:

- File extensions are collected from the root listing only. The loop over
  root directories records paths and names but no extensions
  (`py-scanner/scanner/analyser.py:177-196`).
- Dot-prefixed names are skipped only when listing the root
  (`py-scanner/scanner/analyser.py:131`). The comment beside that check
  (`py-scanner/scanner/analyser.py:132-133`) says dot-prefixed entries are
  always skipped. The model follows the condition as written, so deeper
  listings keep them.

## Model

| member | source | states |
|---|---|---|
| Text.SplitLines | py-scanner/scanner/analyser.py:43 | no line holds a line break, there are no more lines than characters, and a non-empty text without breaks is its own single line |
| Text.SplitLinesAtBreak | py-scanner/scanner/analyser.py:43 | the first line runs up to the first break, which is dropped; the rest is split the same way |
| Text.SplitLinesAtCrlf | py-scanner/scanner/analyser.py:43 | `\r\n` ends a line as a single break |
| Text.Strip | py-scanner/scanner/analyser.py:44 | the result is a slice of the input with only whitespace removed on either side, and it neither starts nor ends with whitespace |
| Text.StripOfStripped | py-scanner/scanner/analyser.py:44 | stripping a string without outer whitespace leaves it unchanged |
| Text.Before | py-scanner/scanner/analyser.py:47 | `split(...)[0]` is the longest prefix without a separator, and the next character, if any, is a separator |
| Text.BeforeAt | py-scanner/scanner/analyser.py:47 | the cut falls at the first separator, whatever follows it |
| Text.StripBeforeHead | py-scanner/scanner/analyser.py:45-46 | cutting a stripped line at its separators and stripping again leaves nothing exactly when the line starts with a separator, and otherwise starts where the line does |
| Text.StripFrom | py-scanner/scanner/analyser.py:44 | `strip()` starts at the first non-space character and reaches past every later one |
| Text.StripPadded | py-scanner/scanner/analyser.py:44 | text between runs of whitespace strips to itself |
| Text.StripBeforeStop | py-scanner/scanner/analyser.py:42-47 | padding, a text, padding and then a stop character: strip, cut and strip give back the text |
| Text.Lower | py-scanner/build/lib/scanner/repo_manager.py:31 | every character is lower-cased (ASCII) and the length is kept |
| Seqs.Dedup | py-scanner/scanner/reporter.py:66-67 | `dict.fromkeys` keeps exactly the elements of the list, with no repeats |
| Seqs.DedupKeepsFirstOccurrenceOrder | py-scanner/scanner/reporter.py:66-67 | of two kept elements, the one that first occurs earlier in the input comes first |
| Seqs.DedupOfDistinct | py-scanner/scanner/reporter.py:66-67 | deduplicating a list without repeats returns it unchanged |
| Json.GetIsLastBinding | py-scanner/scanner/analyser.py:34 | `get` finds a key exactly when some member has that name, and returns the last such member's value |
| Json.Keys | py-scanner/scanner/analyser.py:34 | `keys()` lists every member name exactly once, with no other names |
| Json.CollectedNames | py-scanner/scanner/analyser.py:33-34 | a name is collected exactly when it is a key of one of the sections |
| Rules.TechTypeNamesDeclared | py-scanner/build/lib/scanner/rules.py:18-24 | every technology type reports a name from `TECH_TYPES` |
| Rules.DepTagsDeclared | py-scanner/build/lib/scanner/rules.py:28 | every ecosystem's tag is in `DEP_TYPES`, and no two ecosystems share a tag |
| Rules.RuleDefaults | py-scanner/build/lib/scanner/rules.py:50-57 | a rule given only id, name and type has no match, no dependencies and no dotenv prefixes |
| Rules.Npm | py-scanner/build/lib/scanner/rules.py:62-63 | `npm(name)` is a dependency tagged `npm` with that name |
| Rules.PipDep | py-scanner/build/lib/scanner/rules.py:65-66 | `pip_dep(name)` is a dependency tagged `python` with that name |
| Rules.Docker | py-scanner/build/lib/scanner/rules.py:68-69 | `docker(name)` is a dependency tagged `docker` with that name |
| Rules.GoMod | py-scanner/build/lib/scanner/rules.py:71-72 | `gomod(name)` is a dependency tagged `golang` with that name |
| Rules.Gem | py-scanner/build/lib/scanner/rules.py:74-75 | `gem(name)` is a dependency tagged `ruby` with that name |
| Rules.Cargo | py-scanner/build/lib/scanner/rules.py:77-78 | `cargo(name)` is a dependency tagged `rust` with that name |
| Rules.Composer | py-scanner/build/lib/scanner/rules.py:80-81 | `composer(name)` is a dependency tagged `php` with that name |
| Rules.OrEmpty | py-scanner/build/lib/scanner/rules.py:89-91 | a list argument that is not given becomes the empty list, and a given one is kept |
| Rules.M | py-scanner/build/lib/scanner/rules.py:86-92 | `_m` fills each list that is not given with `[]` and keeps each given list |
| Catalog.AllRules | py-scanner/build/lib/scanner/rules.py:99-479 | the catalog holds 315 rules in source order |
| Catalog.CatalogRankedBelow | py-scanner/build/lib/scanner/rules.py:99-292 | each rule before the database section sits at the position its id is assigned |
| Catalog.CatalogRankedFrom | py-scanner/build/lib/scanner/rules.py:293-479 | each rule from the database section on sits at the position its id is assigned |
| Catalog.CatalogRanked | py-scanner/build/lib/scanner/rules.py:99-479 | every rule sits at the position its id is assigned |
| Catalog.CatalogIdsDistinct | py-scanner/build/lib/scanner/rules.py:99-479 | no two rules share an id |
| Catalog.CatalogTypesDeclared | py-scanner/build/lib/scanner/rules.py:99-479 | every rule's type is one of `TECH_TYPES` |
| Catalog.CatalogDependencyTagsDeclared | py-scanner/build/lib/scanner/rules.py:99-479 | every rule dependency's type is one of `DEP_TYPES` |
| FileSystems.FileSystem.ReadFile | py-scanner/scanner/analyser.py:146-153 | `read_file` gives the text exactly for the files that open, and `None` otherwise |
| FileSystems.FileSystem.Names | py-scanner/scanner/analyser.py:125-130 | only a directory that can be listed yields names: any other path yields nothing |
| FileSystems.ListableNames | py-scanner/scanner/analyser.py:125-130 | a directory that can be listed yields its whole listing |
| FileSystems.EntriesOf | py-scanner/scanner/analyser.py:130-141 | every entry carries a listed name that is not skipped, its joined path, and whether that path is a directory |
| FileSystems.EntriesOfComplete | py-scanner/scanner/analyser.py:130-141 | every listed name that is not skipped gets an entry |
| FileSystems.DeepListingKeepsAll | py-scanner/scanner/analyser.py:131-136 | below the root nothing is skipped: one entry per name, in order |
| FileSystems.ListDir | py-scanner/scanner/analyser.py:123-144 | `list_dir` returns the entries of the listing, and `[]` for a path that is not a listable directory |
| FileIndex.LastDot | py-scanner/scanner/analyser.py:183 | `rfind(".")` finds the last dot, or reports that there is none |
| FileIndex.ExtensionOf | py-scanner/scanner/analyser.py:183-185 | the extension is the name's suffix from its last dot, starts with `.`, and exists exactly when a dot occurs past the first character |
| FileIndex.DirNamesOf | py-scanner/scanner/analyser.py:180-181 | the queued names are exactly the names of the directory entries |
| FileIndex.IndexRoot | py-scanner/scanner/analyser.py:177-185 | the root loop records every root path and name, the extensions of root files, and the root directories in order |
| FileIndex.AddListedPaths | py-scanner/scanner/analyser.py:194-196 | the grandchild loop adds the path of every entry listed in the directory |
| FileIndex.WalkDir | py-scanner/scanner/analyser.py:189-196 | one root directory adds its children's paths and names and its grandchildren's paths |
| FileIndex.Walk | py-scanner/scanner/analyser.py:188-196 | the walk adds what each root directory contributes |
| FileIndex.BuildIndex | py-scanner/scanner/analyser.py:171-196 | the index-building loops produce the index of the snapshot |
| FileIndex.WalkStep | py-scanner/scanner/analyser.py:188-196 | walking one more directory adds exactly that directory's contribution |
| FileIndex.GrandPathsMembers | py-scanner/scanner/analyser.py:193-196 | a grandchild path is recorded exactly when it is listed inside a child directory |
| FileIndex.DirPathsMembers | py-scanner/scanner/analyser.py:189-196 | one root directory contributes exactly its children's paths and the paths inside its child directories |
| FileIndex.WalkPathsMembers | py-scanner/scanner/analyser.py:188-196 | the walk's paths are exactly those contributed by some root directory |
| FileIndex.IndexedPaths | py-scanner/scanner/analyser.py:171-196 | `all_paths` holds the paths at depths zero, one and two, and nothing else |
| FileIndex.IndexedNames | py-scanner/scanner/analyser.py:172-192 | `root_names` holds the names at depths zero and one only |
| FileIndex.IndexedExtensions | py-scanner/scanner/analyser.py:173-185 | the extensions are exactly those of files listed at the root, and each starts with `.` |
| FileIndex.RootDirsAreListedDirs | py-scanner/scanner/analyser.py:180-181 | the walk visits exactly the directories listed at the root, none of them dot-prefixed |
| ContentCaches.ContentCache.constructor | py-scanner/scanner/analyser.py:199 | the cache starts empty and consistent |
| ContentCaches.ContentCache.Read | py-scanner/scanner/analyser.py:201-206 | `read_cached` returns what the file holds; a cached path reads nothing, and a new one is read once and remembered, even as `None` |
| Extractors.RequirementName | py-scanner/scanner/analyser.py:42-47 | a line yields nothing exactly when, once its comment is cut and it is stripped, it is blank or starts with `-` or a version marker; a name is non-empty, stripped and free of comments and markers |
| Extractors.RequirementLine | py-scanner/scanner/analyser.py:42-47 | a line holding a name, padded with whitespace and followed by nothing, a version marker or a comment, yields that name |
| Extractors.RequirementNameFixpoint | py-scanner/scanner/analyser.py:44-49 | a valid package name, read as a line, names itself |
| Extractors.PythonDeps | py-scanner/scanner/analyser.py:40-50 | there are no more names than lines, and every name is a valid package name |
| Extractors.PythonDepsFromLines | py-scanner/scanner/analyser.py:40-50 | a name is extracted exactly when some line names it |
| Extractors.ExtractPythonDeps | py-scanner/scanner/analyser.py:40-50 | the loop returns the names of the content's lines, in order |
| Extractors.EnvKey | py-scanner/scanner/analyser.py:105-110 | a line yields nothing exactly when, stripped, it is blank or starts with `#` or `=`; a key is non-empty, stripped and without `=` |
| Extractors.EnvLine | py-scanner/scanner/analyser.py:105-110 | `KEY = value`, padded with whitespace, yields `KEY` |
| Extractors.EnvKeyFixpoint | py-scanner/scanner/analyser.py:105-110 | a valid key, read as a line, names itself |
| Extractors.EnvNames | py-scanner/scanner/analyser.py:101-111 | there are no more names than lines, and every name is a valid key |
| Extractors.EnvNamesFromLines | py-scanner/scanner/analyser.py:101-111 | a key is extracted exactly when some line names it |
| Extractors.ExtractEnvNames | py-scanner/scanner/analyser.py:101-111 | the loop returns the keys of the content's lines, in order |
| Extractors.LastEqualsBefore | py-scanner/scanner/analyser.py:75 | finds the last `=` before a bound, or reports that there is none |
| Extractors.CrateName | py-scanner/scanner/analyser.py:75-77 | a crate name is non-empty and free of whitespace, and an indented line yields none |
| Extractors.CrateNameIsLongestMatch | py-scanner/scanner/analyser.py:75 | the name is the longest non-space prefix after which `\s*=` matches, and there is none when the pattern cannot match |
| Extractors.CargoSectionOpen | py-scanner/scanner/analyser.py:66-73 | the flag is set exactly when the last line starting with `[` is a dependencies header |
| Extractors.CargoFlagIsSectionOpen | py-scanner/scanner/analyser.py:66-73 | the scan's flag is the generic open-section state |
| Extractors.SectionOpenIsLastBracket | py-scanner/scanner/analyser.py:66-73 | a section is open exactly when its header is the last bracket line |
| Extractors.CargoNamesFromSection | py-scanner/scanner/analyser.py:67-77 | every crate is named on a non-bracket line inside an open dependencies section |
| Extractors.SectionLinesExtracted | py-scanner/scanner/analyser.py:70-77 | conversely, the crate on every non-bracket line inside an open dependencies section is extracted |
| Extractors.CargoNeedsHeader | py-scanner/scanner/analyser.py:68-74 | without a dependencies header nothing is extracted |
| Extractors.CargoExample | py-scanner/scanner/analyser.py:63-78 | `[dependencies]` then `diesel = "2.0"` yields `diesel` |
| Extractors.HeaderExample | py-scanner/scanner/analyser.py:68 | `[dependencies]` is a header |
| Extractors.CrateLineExample | py-scanner/scanner/analyser.py:75-77 | `diesel = "2.0"` names `diesel` |
| Extractors.ExtractCargoDeps | py-scanner/scanner/analyser.py:63-78 | the flag-driven loop returns the crate names of the content's lines |
| Patterns.GemAt | py-scanner/scanner/analyser.py:55 | a gem match starts at a line start and its group is a non-empty run without quotes |
| Patterns.GoRequireAt | py-scanner/scanner/analyser.py:60 | a go.mod match starts at a line start and its group is a non-empty run of module characters |
| Patterns.ImageAt | py-scanner/scanner/analyser.py:96 | an image match starts with `image:` and its group is a non-empty run without whitespace, quotes or `#` |
| Patterns.FromAt | py-scanner/scanner/analyser.py:253 | a `FROM` match starts at a line start with upper-case `FROM`, and its group is a non-empty run without whitespace |
| Patterns.MatchAt | py-scanner/scanner/analyser.py:53-60 | every match ends after its start and has a group of the pattern's shape |
| Patterns.FindAll | py-scanner/scanner/analyser.py:53-60 | every group found has the pattern's shape |
| Patterns.FoundAtSomePosition | py-scanner/scanner/analyser.py:53-60 | every group found is the group of a match at some position |
| Patterns.FirstMatchFound | py-scanner/scanner/analyser.py:53-60 | the scan misses no match: the first matching position contributes its group |
| Patterns.SkipNoMatch | py-scanner/scanner/analyser.py:53-60 | positions where the pattern does not match add nothing to the scan |
| Patterns.ImageName | py-scanner/scanner/analyser.py:97 | `split(":")[0]` is the longest prefix without `:` |
| Patterns.ImageNames | py-scanner/scanner/analyser.py:96-98 | each reference loses its tag, one name per reference |
| Patterns.GemNamesUnquoted | py-scanner/scanner/analyser.py:53-55 | gem names are non-empty and contain no quote |
| Patterns.LineAnchored | py-scanner/scanner/analyser.py:53-60 | gem and go.mod names come only from matches at a line start |
| Patterns.FromOnlyAtLineStart | py-scanner/scanner/analyser.py:251-254 | every Dockerfile image comes from an upper-case `FROM` at a line start |
| Patterns.DockerfileExample | py-scanner/scanner/analyser.py:251-254 | `FROM node:18` names the image `node` |
| Patterns.FromLineExample | py-scanner/scanner/analyser.py:253 | `FROM node:18` matches with group `node:18` |
| Patterns.MatchFoundAfterEarlierEnd | py-scanner/scanner/analyser.py:53-60 | the scan reaches any position that no earlier match runs past, and a match there contributes its group |
| Patterns.GemLineMatches | py-scanner/scanner/analyser.py:55 | at a line start: spaces, `gem`, at least one space, a quote, a non-empty run without quotes and a quote make a match; its group is the run and it ends after the closing quote |
| Patterns.GoLineMatches | py-scanner/scanner/analyser.py:60 | at a line start: at least one space, a non-empty run of `[\w./-]`, at least one space and `v` make a match; its group is the run and it ends after the `v` |
| Patterns.ImageFieldMatches | py-scanner/scanner/analyser.py:96 | `image:`, spaces, an optional quote and a non-empty run of `[^\s'"#]` that nothing of the class follows make a match; its group is the run |
| Patterns.GemLineAccepted | py-scanner/scanner/analyser.py:55 | a line start followed by `ws + "gem" + ws2 + [q] + n + [q2] + rest` (spaces, non-empty `ws2`, quotes `q` and `q2`, non-empty `n` without quotes) matches with group `n` |
| Patterns.GoLineAccepted | py-scanner/scanner/analyser.py:60 | a line start followed by `ws + m + ws2 + "v" + rest` (non-empty spaces, non-empty module path `m`) matches with group `m` |
| Patterns.ImageFieldAccepted | py-scanner/scanner/analyser.py:96 | `"image:" + ws + open + r + rest` (optional quote `open`, `r` a non-empty run of the class, `rest` not continuing it) matches with group `r` |
| Patterns.GemLineFound | py-scanner/scanner/analyser.py:53-55 | such a gem line, when no earlier match runs past its start, puts `n` among the extracted gems |
| Patterns.GoLineFound | py-scanner/scanner/analyser.py:58-60 | such a requirement line, when no earlier match runs past its start, puts `m` among the extracted modules |
| Patterns.ImageFieldFound | py-scanner/scanner/analyser.py:94-98 | such an `image:` value, when no earlier match runs past it, puts `r` without its tag among the extracted images |
| Patterns.GemfileExample | py-scanner/scanner/analyser.py:53-55 | `gem 'rails', '7.1'` yields the gem `rails` |
| Patterns.GoModExample | py-scanner/scanner/analyser.py:58-60 | an indented `github.com/pkg/errors v0.9.1` yields that module path |
| Patterns.ComposeExample | py-scanner/scanner/analyser.py:94-98 | `image: redis` yields the image `redis` |
| Manifests.SectionUnion | py-scanner/scanner/analyser.py:28-37 | the names are the keys of the sections when nothing raises, and `[]` otherwise |
| Manifests.NpmSectionOrder | py-scanner/scanner/analyser.py:33-34 | npm names come section by section in the fixed order |
| Manifests.ComposerSectionOrder | py-scanner/scanner/analyser.py:86-87 | composer names are the keys of `require`, then of `require-dev` |
| Manifests.BadSectionSpoilsAll | py-scanner/scanner/analyser.py:33-37 | one section that is not an object makes the whole extraction yield nothing |
| Manifests.AssignmentAt | py-scanner/scanner/analyser.py:225 | the group follows a `dependencies` and contains no `]` |
| Manifests.FirstAssignment | py-scanner/scanner/analyser.py:225 | the lazy scan returns the group of some later position where the rest matches |
| Manifests.ProjectBlock | py-scanner/scanner/analyser.py:225 | a match needs a `[project]` occurrence |
| Manifests.DropQuotes | py-scanner/scanner/analyser.py:227 | the text loses every double quote and keeps every other character; a text without quotes is unchanged |
| Manifests.DropQuotesAppend | py-scanner/scanner/analyser.py:227 | the kept characters stay in order: dropping quotes piece by piece is dropping them from the whole |
| Manifests.PyprojectDeps | py-scanner/scanner/analyser.py:223-227 | the `[project]` array yields valid package names, and none without a match |
| Evaluator.Lookup | py-scanner/scanner/analyser.py:317 | `deps_map.get(tag, [])` |
| Evaluator.FilesStrategy | py-scanner/scanner/analyser.py:290-296 | hits exactly when some marker file is indexed or exists |
| Evaluator.ExtensionsStrategy | py-scanner/scanner/analyser.py:298-302 | hits exactly when some extension was seen |
| Evaluator.ContentStrategy | py-scanner/scanner/analyser.py:304-312 | hits exactly when some readable file contains one of its substrings; the cache only grows |
| Evaluator.DependenciesStrategy | py-scanner/scanner/analyser.py:314-322 | hits exactly when some dependency's name is among its ecosystem's names |
| Evaluator.DotenvStrategy | py-scanner/scanner/analyser.py:324-329 | hits exactly when some variable starts with some prefix |
| Evaluator.EvaluateRule | py-scanner/scanner/analyser.py:278-331 | the answer is the disjunction of the five strategies; a file or extension hit reads nothing |
| Evaluator.NoStrategyNoMatch | py-scanner/scanner/analyser.py:278-331 | a rule with no strategy never matches |
| Evaluator.DependencyNamesExact | py-scanner/scanner/analyser.py:320-322 | dependency names are compared whole |
| Evaluator.DotenvPrefixAnchored | py-scanner/scanner/analyser.py:328 | dotenv prefixes anchor at the start of the name |
| Analyser.DepsMapKeys | py-scanner/scanner/analyser.py:209-212 | the dependency map has exactly the seven ecosystem keys |
| Analyser.Detect | py-scanner/scanner/analyser.py:263-272 | at most one detection per rule |
| Analyser.DetectAppend | py-scanner/scanner/analyser.py:265-268 | detections keep catalog order across a split of the rules |
| Analyser.DetectMembers | py-scanner/scanner/analyser.py:264-268 | a detection is reported exactly when some rule evaluates without raising and matches |
| Analyser.FaultyRuleOnlyOmitted | py-scanner/scanner/analyser.py:266-270 | a rule that raises is only left out, and the others report as before |
| Analyser.ReadRequirements | py-scanner/scanner/analyser.py:219-222 | the requirements files are read in turn and their names appended |
| Analyser.ReadComposeImages | py-scanner/scanner/analyser.py:246-249 | the compose files are read in turn and their images appended |
| Analyser.ReadEnvNames | py-scanner/scanner/analyser.py:257-261 | the dotenv files are read in turn and their keys appended |
| Analyser.ReadFromFile | py-scanner/scanner/analyser.py:229-231 | a manifest with text is handed to its extractor, and one without text yields `[]` |
| Analyser.ReadPython | py-scanner/scanner/analyser.py:218-227 | Python names: the requirements files first, then the `pyproject.toml` array |
| Analyser.ReadDocker | py-scanner/scanner/analyser.py:245-254 | Docker names: the compose files first, then the Dockerfile |
| Analyser.ReadCargo | py-scanner/scanner/analyser.py:237-239 | `Cargo.toml` goes through the section scanner |
| Analyser.ReadJson | py-scanner/scanner/analyser.py:214-216 | a JSON manifest with text yields the keys of its sections |
| Analyser.CollectDeps | py-scanner/scanner/analyser.py:208-254 | the dependency map built through the cache is the map of the snapshot |
| Analyser.ScanRules | py-scanner/scanner/analyser.py:263-272 | the rule loop returns the detections of the rules in order |
| Analyser.Analyse | py-scanner/scanner/analyser.py:163-272 | the scan returns the detections of the snapshot |
| Analyser.AnalyseRepository | py-scanner/scanner/analyser.py:163-272 | the scan over the catalog returns the catalog's detections |
| Reporter.Position | py-scanner/scanner/reporter.py:47-54 | every bucket has a place in `ALL_BUCKETS` |
| Reporter.PositionAt | py-scanner/scanner/reporter.py:47-54 | the place of the bucket at place `k` is `k` |
| Reporter.Listed | py-scanner/scanner/reporter.py:47-54 | every bucket is listed |
| Reporter.ListedOnce | py-scanner/scanner/reporter.py:47-54 | no bucket is listed twice |
| Reporter.Category | py-scanner/scanner/reporter.py:62 | an unmapped type goes to `tools` |
| Reporter.TechTypesMapped | py-scanner/scanner/reporter.py:11-45 | every declared technology type has its own entry in `CATEGORY_MAP` |
| Reporter.TechTypeNamesMapped | py-scanner/scanner/reporter.py:11-45 | every name in `TECH_TYPES` is a key of `CATEGORY_MAP` |
| Reporter.CategoriesAreBuckets | py-scanner/scanner/reporter.py:11-54 | every bucket the map or its default names is in `ALL_BUCKETS`, so the append never fails |
| Reporter.Grouped | py-scanner/scanner/reporter.py:61-63 | a bucket holds no more names than there are nodes |
| Reporter.GroupedMembers | py-scanner/scanner/reporter.py:61-63 | a name is in a bucket exactly when a node with that name has a type mapped to it |
| Reporter.SlotsKept | py-scanner/scanner/reporter.py:66-70 | a bucket is kept, with its deduplicated names, exactly when it is listed and non-empty |
| Reporter.CategoriesEntries | py-scanner/scanner/reporter.py:66-70 | no reported bucket is empty, and each holds its deduplicated names without repeats |
| Reporter.CategoriesInBucketOrder | py-scanner/scanner/reporter.py:59-70 | reported buckets come in `ALL_BUCKETS` order, each once |
| Reporter.GroupedNonEmpty | py-scanner/scanner/reporter.py:61-63 | a bucket receives a name exactly when some node's type maps to it |
| Reporter.BucketReported | py-scanner/scanner/reporter.py:57-70 | a bucket is reported exactly when some node's type maps to it |
| Reporter.NameLandsInItsBucket | py-scanner/scanner/reporter.py:61-70 | every node's name is reported in the bucket `CATEGORY_MAP.get(type, "tools")` |
| Reporter.ReportedNamesMatched | py-scanner/scanner/reporter.py:57-70 | every reported name belongs to a node whose type maps to that bucket |
| Reporter.EmptyGroups | py-scanner/scanner/reporter.py:59 | every bucket starts with an empty list |
| Reporter.GroupNames | py-scanner/scanner/reporter.py:61-63 | the append loop leaves each bucket with its names in input order |
| Reporter.DedupGroups | py-scanner/scanner/reporter.py:66-67 | the in-place loop replaces every bucket by its deduplicated list |
| Reporter.DropEmpty | py-scanner/scanner/reporter.py:70 | the comprehension keeps the non-empty buckets in `ALL_BUCKETS` order |
| Reporter.Categorise | py-scanner/scanner/reporter.py:57-70 | `categorise` returns the categories of its input |
| Reporter.BuildSuccessReport | py-scanner/scanner/reporter.py:73-78 | the report has status `success`, the repository name, and the categorised results |
| Reporter.BuildErrorReport | py-scanner/scanner/reporter.py:81-86 | the report has status `error`, the repository name, and the message |
| InputParser.TrimSlashes | py-scanner/build/lib/scanner/input_parser.py:14 | `rstrip("/")` is the prefix left after removing only slashes, and it does not end in `/` |
| InputParser.DropGitSuffix | py-scanner/build/lib/scanner/input_parser.py:14 | `removesuffix(".git")` drops one `.git` exactly when it is there |
| InputParser.LastSegment | py-scanner/build/lib/scanner/input_parser.py:15 | `rsplit("/", 1)[-1]` is the suffix without `/`, preceded by `/` unless it is the whole string |
| InputParser.UnknownName | py-scanner/build/lib/scanner/input_parser.py:16 | the fallback name is non-empty and contains no `/` |
| InputParser.NameFromUrl | py-scanner/build/lib/scanner/input_parser.py:12-16 | the derived name is never empty and never contains `/` |
| InputParser.LastSegmentAfterSlash | py-scanner/build/lib/scanner/input_parser.py:15 | the last segment of `p/n` is `n` when `n` has no slash |
| InputParser.NameOfPlainUrl | py-scanner/build/lib/scanner/input_parser.py:12-16 | a url ending in a plain segment is named after that segment |
| InputParser.NameOfGitUrl | py-scanner/build/lib/scanner/input_parser.py:12-16 | a `.git` suffix does not change the name |
| InputParser.TrailingSlashIgnored | py-scanner/build/lib/scanner/input_parser.py:14 | a trailing slash does not change the name |
| InputParser.NameExample | py-scanner/build/lib/scanner/input_parser.py:12-16 | `…/repo.git/` is named `repo` |
| InputParser.EmptyUrlName | py-scanner/build/lib/scanner/input_parser.py:16 | an empty url is named `unknown` |
| InputParser.LineEntry | py-scanner/build/lib/scanner/input_parser.py:42-45 | a line yields an entry exactly when it is not blank and does not start with `#`; the url is the stripped line and the name is derived from it |
| InputParser.TextEntries | py-scanner/build/lib/scanner/input_parser.py:40-46 | there are no more entries than lines |
| InputParser.TextEntriesFromLines | py-scanner/build/lib/scanner/input_parser.py:40-46 | an entry is listed exactly when some non-blank, non-comment line gives it |
| InputParser.TextEntriesAppend | py-scanner/build/lib/scanner/input_parser.py:40-46 | entries keep line order across blocks of lines |
| InputParser.ParseTextList | py-scanner/build/lib/scanner/input_parser.py:40-46 | the line loop returns the entries of the lines |
| InputParser.ItemEntry | py-scanner/build/lib/scanner/input_parser.py:35 | an item is accepted exactly when it is an object with a string url and a name that is absent or a string; a given name is kept and a missing one defaults to the url's name |
| InputParser.ItemEntries | py-scanner/build/lib/scanner/input_parser.py:34-36 | either one entry per item, in order, or the first bad item's index |
| InputParser.JsonBranchChoice | py-scanner/build/lib/scanner/input_parser.py:29-37 | JSON is consulted exactly when the stripped text starts with `[`; otherwise nothing fails |
| InputParser.MissingNameDefaults | py-scanner/build/lib/scanner/input_parser.py:35 | an item without a name is named after its url |
| InputParser.ParseInput | py-scanner/build/lib/scanner/input_parser.py:28-46 | `parse_input_file`, once the text is read, returns the parsed input |
| RepoManager.StartsWithAny | py-scanner/build/lib/scanner/repo_manager.py:32 | true exactly when one of the prefixes starts the string |
| RepoManager.FindSuspicious | py-scanner/build/lib/scanner/repo_manager.py:34 | finds the first character of `[;&|`$]`, or reports that there is none |
| RepoManager.ValidateUrl | py-scanner/build/lib/scanner/repo_manager.py:28-35 | accepted exactly when the lower-cased url starts with an allowed prefix and no character is suspicious; each refusal carries its reason |
| RepoManager.UpperCaseSchemeAccepted | py-scanner/build/lib/scanner/repo_manager.py:30-32 | `HTTPS://…` is accepted: the protocol check ignores case |
| RepoManager.SuspiciousAlwaysRejected | py-scanner/build/lib/scanner/repo_manager.py:34-35 | a suspicious character is refused whatever the protocol |
| RepoManager.IsLocalPath | py-scanner/build/lib/scanner/repo_manager.py:38-44 | local exactly when the url starts with `/`, `.` or `~`, or with a drive prefix `X:\` |
| RepoManager.ProtocolUrlsAreNotLocal | py-scanner/build/lib/scanner/repo_manager.py:28-44 | a url the protocol check accepts is never a local path |
| RepoManager.CollapseRuns | py-scanner/build/lib/scanner/repo_manager.py:23 | the substitution leaves only `[a-z0-9-]` with no two dashes in a row, and a dash at an end exactly where the input ends in another character |
| RepoManager.CollapseAppend | py-scanner/build/lib/scanner/repo_manager.py:23 | the substitution works piece by piece, and a run of separators spanning the join gives one dash |
| RepoManager.CollapseOfSeparators | py-scanner/build/lib/scanner/repo_manager.py:23 | a non-empty run of separators becomes one dash |
| RepoManager.SeparatorBecomesDash | py-scanner/build/lib/scanner/repo_manager.py:23 | between letters or digits, a run of other characters becomes exactly one dash |
| RepoManager.LeadingDashes | py-scanner/build/lib/scanner/repo_manager.py:23 | counts the dashes `lstrip("-")` removes |
| RepoManager.TrailingDashes | py-scanner/build/lib/scanner/repo_manager.py:23 | counts the dashes `rstrip("-")` removes |
| RepoManager.StripDashes | py-scanner/build/lib/scanner/repo_manager.py:23 | `strip("-")` is a slice with only dashes cut away, neither starting nor ending with a dash |
| RepoManager.Slug | py-scanner/build/lib/scanner/repo_manager.py:23 | the slug holds only `[a-z0-9-]`, has no dash at either end and no two in a row |
| RepoManager.CollapseKeepsAlnums | py-scanner/build/lib/scanner/repo_manager.py:23 | the substitution keeps every letter and digit in order |
| RepoManager.StripKeepsAlnums | py-scanner/build/lib/scanner/repo_manager.py:23 | stripping dashes keeps every letter and digit |
| RepoManager.SlugKeepsAlnums | py-scanner/build/lib/scanner/repo_manager.py:23 | the slug's letters and digits are those of the lower-cased name, in order |
| RepoManager.CollapseOfSlugShaped | py-scanner/build/lib/scanner/repo_manager.py:23 | the substitution leaves a string of slug shape unchanged |
| RepoManager.SlugIdempotent | py-scanner/build/lib/scanner/repo_manager.py:23 | slugging a slug changes nothing |
| RepoManager.FolderName | py-scanner/build/lib/scanner/repo_manager.py:21-25 | the folder name holds only `[a-z0-9-]`: the slug, a dash, then the first eight digest characters |
| RepoManager.FolderNameParts | py-scanner/build/lib/scanner/repo_manager.py:21-25 | equal folder names have equal slugs and equal eight-character digest prefixes |
| RepoManager.PrepareLocal | py-scanner/build/lib/scanner/repo_manager.py:60-69 | a missing path is refused, then a path under a sensitive prefix, and otherwise the resolved path is used |
| RepoManager.SensitivePrefixRefused | py-scanner/build/lib/scanner/repo_manager.py:65-68 | any path that starts with a sensitive prefix is refused, in any case, even `/binaries` |
| RepoManager.SensitiveIgnoresCase | py-scanner/build/lib/scanner/repo_manager.py:67 | the check gives the same answer for a path and its lower-cased form |
| RepoManager.PrepareRepo | py-scanner/build/lib/scanner/repo_manager.py:47-57 | local paths go to the local check, and other urls are validated before a folder is assigned |
| RepoManager.RoutingValidated | py-scanner/build/lib/scanner/repo_manager.py:53-57 | a clone folder is given only to a validated non-local url; local paths bypass validation, and a used local path exists and is not sensitive |

## Left out

- Real filesystem access is not modelled. The repository is an immutable
  snapshot: which paths are directories, what each directory lists, which
  files decode and which paths exist. A directory missing from the
  listing stands for `PermissionError`. Other OS errors and the
  `errors="ignore"` decoding are not modelled.
- `json.loads` is a parameter: `None` where it raises, otherwise the parsed
  document. Objects keep their members in text order with last-wins
  lookup.
- Only the regular expressions the scanner uses are modelled, each as a
  scanner written out by hand. `\w`, `lower()` and `re.IGNORECASE` are
  ASCII-only. Unicode letters, Unicode case mappings and Unicode digits
  are not modelled.
- Exceptions raised while a rule is evaluated are a set of faulty rule ids
  passed in. The logging of those exceptions is left out.
- The thread pool that scans repositories in parallel is not part of this
  model (`scanner.py`). Neither is the command-line front end that writes
  the reports (`cli.py`).
- `build_error_report` takes the message that `str(error)` gives; how
  Python renders an exception is not modelled.
- Reading the input file is not modelled: `os.path.isfile` and `open`.
  The parser starts from the file's text.
- InputParser.ItemEntry: an item whose `name` is present but not a string is refused
  as a bad item. The source copies such a value into the entry.
- `_prepare_remote` and `_clone_fresh` are not modelled: the git
  subprocesses, the origin check, pull and re-clone, and `cleanup_repo`. A
  remote url yields the workspace folder name it would be cloned into.
- The workspace root (`tempfile.gettempdir()`) is not modelled, nor how
  the folder is joined onto it.
- `hashlib.sha256` is not modelled: the url's hex digest is a parameter.
- `os.path.abspath` and `os.path.expanduser` are one resolving function
  passed in. `os.path.exists` is a predicate passed in.
- RepoManager.Slug: `name.lower()` is ASCII lower-casing. The few
  non-ASCII characters that Python lower-cases into ASCII letters (such
  as the Kelvin sign) end up as separators in the model.
