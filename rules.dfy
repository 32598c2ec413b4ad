/** The rule records of the catalog, the two closed vocabularies (technology
    types and dependency ecosystems), the dependency shorthands and the
    match-builder with its `None`-to-empty defaults. */
module Rules {
  import opened Wrappers

  /** A technology type; `Name()` is the string the scanner reports. */
  datatype TechType =
      Language | Framework | UiFramework | Ui | Runtime | Tool | Builder | Linter
    | Test | Ci | Hosting | Cloud | Db | Orm | Queue | Storage
    | Ai | Analytics | Monitoring | Auth | Payment | Notification | Cms | Saas
    | Iac | Security | Automation | Ssg | PackageManager | Validation | App | Network
    | Unknown
  {
    function Name(): string {
      match this
      case Language => "language"
      case Framework => "framework"
      case UiFramework => "ui_framework"
      case Ui => "ui"
      case Runtime => "runtime"
      case Tool => "tool"
      case Builder => "builder"
      case Linter => "linter"
      case Test => "test"
      case Ci => "ci"
      case Hosting => "hosting"
      case Cloud => "cloud"
      case Db => "db"
      case Orm => "orm"
      case Queue => "queue"
      case Storage => "storage"
      case Ai => "ai"
      case Analytics => "analytics"
      case Monitoring => "monitoring"
      case Auth => "auth"
      case Payment => "payment"
      case Notification => "notification"
      case Cms => "cms"
      case Saas => "saas"
      case Iac => "iac"
      case Security => "security"
      case Automation => "automation"
      case Ssg => "ssg"
      case PackageManager => "package_manager"
      case Validation => "validation"
      case App => "app"
      case Network => "network"
      case Unknown => "unknown"
    }
  }

  /** Type `k` in the order the scanner declares the type names. */
  function TechTypeAt(k: nat): TechType
    requires k < 33
  {
    if k == 0 then Language
    else if k == 1 then Framework
    else if k == 2 then UiFramework
    else if k == 3 then Ui
    else if k == 4 then Runtime
    else if k == 5 then Tool
    else if k == 6 then Builder
    else if k == 7 then Linter
    else if k == 8 then Test
    else if k == 9 then Ci
    else if k == 10 then Hosting
    else if k == 11 then Cloud
    else if k == 12 then Db
    else if k == 13 then Orm
    else if k == 14 then Queue
    else if k == 15 then Storage
    else if k == 16 then Ai
    else if k == 17 then Analytics
    else if k == 18 then Monitoring
    else if k == 19 then Auth
    else if k == 20 then Payment
    else if k == 21 then Notification
    else if k == 22 then Cms
    else if k == 23 then Saas
    else if k == 24 then Iac
    else if k == 25 then Security
    else if k == 26 then Automation
    else if k == 27 then Ssg
    else if k == 28 then PackageManager
    else if k == 29 then Validation
    else if k == 30 then App
    else if k == 31 then Network
    else Unknown
  }

  /** The declared type names (`language`, `framework`, ..., `unknown`). */
  const TechTypes: seq<string> := seq(33, k requires 0 <= k < 33 => TechTypeAt(k).Name())

  /** Every technology type reports one of the declared type names. */
  lemma TechTypeNamesDeclared(t: TechType)
    ensures t.Name() in TechTypes
  {
    match t
    case Language => assert TechTypes[0] == TechTypeAt(0).Name();
    case Framework => assert TechTypes[1] == TechTypeAt(1).Name();
    case UiFramework => assert TechTypes[2] == TechTypeAt(2).Name();
    case Ui => assert TechTypes[3] == TechTypeAt(3).Name();
    case Runtime => assert TechTypes[4] == TechTypeAt(4).Name();
    case Tool => assert TechTypes[5] == TechTypeAt(5).Name();
    case Builder => assert TechTypes[6] == TechTypeAt(6).Name();
    case Linter => assert TechTypes[7] == TechTypeAt(7).Name();
    case Test => assert TechTypes[8] == TechTypeAt(8).Name();
    case Ci => assert TechTypes[9] == TechTypeAt(9).Name();
    case Hosting => assert TechTypes[10] == TechTypeAt(10).Name();
    case Cloud => assert TechTypes[11] == TechTypeAt(11).Name();
    case Db => assert TechTypes[12] == TechTypeAt(12).Name();
    case Orm => assert TechTypes[13] == TechTypeAt(13).Name();
    case Queue => assert TechTypes[14] == TechTypeAt(14).Name();
    case Storage => assert TechTypes[15] == TechTypeAt(15).Name();
    case Ai => assert TechTypes[16] == TechTypeAt(16).Name();
    case Analytics => assert TechTypes[17] == TechTypeAt(17).Name();
    case Monitoring => assert TechTypes[18] == TechTypeAt(18).Name();
    case Auth => assert TechTypes[19] == TechTypeAt(19).Name();
    case Payment => assert TechTypes[20] == TechTypeAt(20).Name();
    case Notification => assert TechTypes[21] == TechTypeAt(21).Name();
    case Cms => assert TechTypes[22] == TechTypeAt(22).Name();
    case Saas => assert TechTypes[23] == TechTypeAt(23).Name();
    case Iac => assert TechTypes[24] == TechTypeAt(24).Name();
    case Security => assert TechTypes[25] == TechTypeAt(25).Name();
    case Automation => assert TechTypes[26] == TechTypeAt(26).Name();
    case Ssg => assert TechTypes[27] == TechTypeAt(27).Name();
    case PackageManager => assert TechTypes[28] == TechTypeAt(28).Name();
    case Validation => assert TechTypes[29] == TechTypeAt(29).Name();
    case App => assert TechTypes[30] == TechTypeAt(30).Name();
    case Network => assert TechTypes[31] == TechTypeAt(31).Name();
    case Unknown => assert TechTypes[32] == TechTypeAt(32).Name();
  }

  /** The dependency ecosystem of a `RuleDependency`; `Tag()` is its key in
      the extracted-dependency map. */
  datatype DepType = NpmPackage | PythonPackage | DockerImage | GoModule | RubyGem | RustCrate | PhpPackage
  {
    function Tag(): string {
      match this
      case NpmPackage => "npm"
      case PythonPackage => "python"
      case DockerImage => "docker"
      case GoModule => "golang"
      case RubyGem => "ruby"
      case RustCrate => "rust"
      case PhpPackage => "php"
    }
  }

  /** The seven ecosystem keys, in declaration order. */
  const DepTypes: seq<string> := ["npm", "python", "docker", "golang", "ruby", "rust", "php"]

  /** Every ecosystem has a declared tag and no two share one. */
  lemma DepTagsDeclared(d: DepType, e: DepType)
    ensures d.Tag() in DepTypes
    ensures d.Tag() == e.Tag() ==> d == e
  {
  }

  /** A file whose content is searched for any of the given substrings. */
  datatype ContentPattern = ContentPattern(file: string, patterns: seq<string>)

  /** A file extension as the catalog writes it: a dot and a suffix. */
  type Extension = s: string | |s| > 0 && s[0] == '.' witness "."

  datatype RuleMatch = RuleMatch(
    files: seq<string> := [],
    extensions: seq<Extension> := [],
    contentPatterns: seq<ContentPattern> := [])

  datatype RuleDependency = RuleDependency(depType: DepType, name: string)

  /** A detection rule; omitted trailing fields take the record defaults. */
  datatype Rule = Rule(
    id: string,
    name: string,
    techType: TechType,
    ruleMatch: Option<RuleMatch> := None,
    dependencies: seq<RuleDependency> := [],
    dotenv: seq<string> := [])

  /** A rule built from id, name and type alone has no match, no
      dependencies and no dotenv prefixes. */
  lemma RuleDefaults(id: string, name: string, t: TechType)
    ensures Rule(id, name, t).ruleMatch == None
    ensures Rule(id, name, t).dependencies == []
    ensures Rule(id, name, t).dotenv == []
  {
  }

  // Shorthand dependency constructors, one per ecosystem.

  function Npm(name: string): (d: RuleDependency)
    ensures d.depType.Tag() == "npm" && d.name == name
  {
    RuleDependency(NpmPackage, name)
  }

  function PipDep(name: string): (d: RuleDependency)
    ensures d.depType.Tag() == "python" && d.name == name
  {
    RuleDependency(PythonPackage, name)
  }

  function Docker(name: string): (d: RuleDependency)
    ensures d.depType.Tag() == "docker" && d.name == name
  {
    RuleDependency(DockerImage, name)
  }

  function GoMod(name: string): (d: RuleDependency)
    ensures d.depType.Tag() == "golang" && d.name == name
  {
    RuleDependency(GoModule, name)
  }

  function Gem(name: string): (d: RuleDependency)
    ensures d.depType.Tag() == "ruby" && d.name == name
  {
    RuleDependency(RubyGem, name)
  }

  function Cargo(name: string): (d: RuleDependency)
    ensures d.depType.Tag() == "rust" && d.name == name
  {
    RuleDependency(RustCrate, name)
  }

  function Composer(name: string): (d: RuleDependency)
    ensures d.depType.Tag() == "php" && d.name == name
  {
    RuleDependency(PhpPackage, name)
  }

  /** A missing (or empty) list argument becomes the empty list. */
  function OrEmpty<T>(xs: Option<seq<T>>): (r: seq<T>)
    ensures xs.None? ==> r == []
    ensures xs.Some? ==> r == xs.value
  {
    if xs.Some? then xs.value else []
  }

  /** The match builder: each list that is not given is empty. */
  function M(files: Option<seq<string>> := None,
             extensions: Option<seq<Extension>> := None,
             contentPatterns: Option<seq<ContentPattern>> := None): (m: RuleMatch)
    ensures files.None? ==> m.files == []
    ensures extensions.None? ==> m.extensions == []
    ensures contentPatterns.None? ==> m.contentPatterns == []
    ensures files.Some? ==> m.files == files.value
    ensures extensions.Some? ==> m.extensions == extensions.value
    ensures contentPatterns.Some? ==> m.contentPatterns == contentPatterns.value
  {
    RuleMatch(OrEmpty(files), OrEmpty(extensions), OrEmpty(contentPatterns))
  }
}
