/** The reporter: the matched technologies are grouped into named buckets
    by their type, each bucket is deduplicated keeping first occurrences,
    empty buckets are dropped, and the result is wrapped in a success or an
    error report. */
module Reporter {
  import opened Wrappers
  import opened Seqs
  import Rules

  /** A report bucket; `Key()` is its name in the report. */
  datatype Bucket =
      Languages | Frameworks | Ui | Databases | Orm | Ai | Monitoring | Analytics | Cloud
    | Hosting | Ci | Testing | Auth | Payment | Notification | Cms | Queue | Storage
    | Iac | Security | Automation | Builders | Linters | PackageManagers | Ssg | Validation
    | Tools
  {
    function Key(): string {
      match this
      case Languages => "languages"
      case Frameworks => "frameworks"
      case Ui => "ui"
      case Databases => "databases"
      case Orm => "orm"
      case Ai => "ai"
      case Monitoring => "monitoring"
      case Analytics => "analytics"
      case Cloud => "cloud"
      case Hosting => "hosting"
      case Ci => "ci"
      case Testing => "testing"
      case Auth => "auth"
      case Payment => "payment"
      case Notification => "notification"
      case Cms => "cms"
      case Queue => "queue"
      case Storage => "storage"
      case Iac => "iac"
      case Security => "security"
      case Automation => "automation"
      case Builders => "builders"
      case Linters => "linters"
      case PackageManagers => "packageManagers"
      case Ssg => "ssg"
      case Validation => "validation"
      case Tools => "tools"
    }
  }

  /** `ALL_BUCKETS`: the buckets in report order. */
  const AllBuckets: seq<Bucket> := [
    Languages, Frameworks, Ui, Databases, Orm,
    Ai, Monitoring, Analytics, Cloud, Hosting,
    Ci, Testing, Auth, Payment, Notification,
    Cms, Queue, Storage, Iac, Security,
    Automation, Builders, Linters, PackageManagers,
    Ssg, Validation, Tools]

  /** The place of a bucket in `AllBuckets`. */
  function Position(b: Bucket): (k: nat)
    ensures k < |AllBuckets| && AllBuckets[k] == b
  {
    match b
    case Languages => 0
    case Frameworks => 1
    case Ui => 2
    case Databases => 3
    case Orm => 4
    case Ai => 5
    case Monitoring => 6
    case Analytics => 7
    case Cloud => 8
    case Hosting => 9
    case Ci => 10
    case Testing => 11
    case Auth => 12
    case Payment => 13
    case Notification => 14
    case Cms => 15
    case Queue => 16
    case Storage => 17
    case Iac => 18
    case Security => 19
    case Automation => 20
    case Builders => 21
    case Linters => 22
    case PackageManagers => 23
    case Ssg => 24
    case Validation => 25
    case Tools => 26
  }

  /** `Position` inverts indexing into `AllBuckets`. */
  lemma PositionAt(k: nat)
    requires k < |AllBuckets|
    ensures Position(AllBuckets[k]) == k
  {
    if k < 9 {
      assert k == 0 || k == 1 || k == 2 || k == 3 || k == 4 || k == 5 || k == 6 || k == 7 || k == 8;
    } else if k < 18 {
      assert k == 9 || k == 10 || k == 11 || k == 12 || k == 13 || k == 14 || k == 15 || k == 16 || k == 17;
    } else {
      assert k == 18 || k == 19 || k == 20 || k == 21 || k == 22 || k == 23 || k == 24 || k == 25 || k == 26;
    }
  }

  /** Every bucket is listed in `AllBuckets`. */
  lemma Listed(b: Bucket)
    ensures b in AllBuckets
  {
    assert AllBuckets[Position(b)] == b;
  }

  /** No bucket is listed twice. */
  lemma ListedOnce()
    ensures NoDuplicates(AllBuckets)
  {
    forall i, j | 0 <= i < j < |AllBuckets| ensures AllBuckets[i] != AllBuckets[j] {
      PositionAt(i);
      PositionAt(j);
    }
  }

  /** `CATEGORY_MAP`: the bucket of each technology type name. */
  const CategoryMap: map<string, Bucket> := map[
    "language" := Languages,
    "framework" := Frameworks,
    "ui_framework" := Ui,
    "ui" := Ui,
    "db" := Databases,
    "orm" := Orm,
    "ai" := Ai,
    "monitoring" := Monitoring,
    "analytics" := Analytics,
    "cloud" := Cloud,
    "hosting" := Hosting,
    "ci" := Ci,
    "test" := Testing,
    "auth" := Auth,
    "payment" := Payment,
    "notification" := Notification,
    "cms" := Cms,
    "queue" := Queue,
    "storage" := Storage,
    "iac" := Iac,
    "security" := Security,
    "automation" := Automation,
    "builder" := Builders,
    "linter" := Linters,
    "package_manager" := PackageManagers,
    "ssg" := Ssg,
    "validation" := Validation,
    "tool" := Tools,
    "saas" := Tools,
    "runtime" := Tools,
    "app" := Tools,
    "network" := Tools,
    "unknown" := Tools
  ]

  /** `CATEGORY_MAP.get(type, "tools")`. */
  function Category(typeName: string): (b: Bucket)
    ensures typeName !in CategoryMap ==> b == Tools
  {
    if typeName in CategoryMap then CategoryMap[typeName] else Tools
  }

  /** Every declared technology type has an entry of its own in the
      category map, so no rule's type falls through to the default. */
  lemma TechTypesMapped(t: Rules.TechType)
    ensures t.Name() in CategoryMap
    ensures Category(t.Name()) == CategoryMap[t.Name()]
  {
  }

  /** Every declared type name, as listed, is a key of the category map. */
  lemma TechTypeNamesMapped()
    ensures forall k :: 0 <= k < |Rules.TechTypes| ==> Rules.TechTypes[k] in CategoryMap
  {
    forall k | 0 <= k < |Rules.TechTypes| ensures Rules.TechTypes[k] in CategoryMap {
      TechTypesMapped(Rules.TechTypeAt(k));
    }
  }

  /** Every bucket the map (or its default) names is one of the report's
      buckets, so appending to it never fails. */
  lemma CategoriesAreBuckets(typeName: string)
    ensures Category(typeName) in AllBuckets
  {
  }

  /** One matched technology: `{"name": …, "type": …}`. */
  datatype Node = Node(name: string, typeName: string)

  /** The name a node contributes to bucket `b`, if it belongs there. */
  function NameIn(b: Bucket): Node -> Option<string> {
    (n: Node) => if Category(n.typeName) == b then Some(n.name) else None
  }

  /** The names that land in bucket `b`, in input order, repeats kept. */
  function Grouped(nodes: seq<Node>, b: Bucket): (names: seq<string>)
    ensures |names| <= |nodes|
  {
    Gather(nodes, NameIn(b))
  }

  /** A name is in bucket `b` exactly when a node with that name has a
      type that maps to `b`. */
  lemma GroupedMembers(nodes: seq<Node>, b: Bucket, x: string)
    ensures x in Grouped(nodes, b) <==>
              exists i :: 0 <= i < |nodes| && nodes[i].name == x && Category(nodes[i].typeName) == b
  {
    GatherMembers(nodes, NameIn(b), x);
  }

  /** Bucket `b` with its deduplicated names, or nothing when no name
      lands in it. */
  function Slot(nodes: seq<Node>, b: Bucket): Option<(Bucket, seq<string>)> {
    var names := Dedup(Grouped(nodes, b));
    if names == [] then None else Some((b, names))
  }

  function SlotOf(nodes: seq<Node>): Bucket -> Option<(Bucket, seq<string>)> {
    (b: Bucket) => Slot(nodes, b)
  }

  /** What `categorise` returns: the non-empty buckets in `ALL_BUCKETS`
      order. */
  function Categories(nodes: seq<Node>): seq<(Bucket, seq<string>)> {
    Gather(AllBuckets, SlotOf(nodes))
  }

  /** A bucket and its names are kept from a list of buckets exactly
      when the bucket is listed and the names are the non-empty,
      deduplicated names of the nodes that map to it. */
  lemma SlotsKept(bs: seq<Bucket>, nodes: seq<Node>, y: (Bucket, seq<string>))
    ensures y in Gather(bs, SlotOf(nodes)) <==> y.0 in bs && y.1 != [] && y.1 == Dedup(Grouped(nodes, y.0))
  {
    GatherMembers(bs, SlotOf(nodes), y);
    if y.0 in bs && y.1 != [] && y.1 == Dedup(Grouped(nodes, y.0)) {
      var a :| 0 <= a < |bs| && bs[a] == y.0;
      assert SlotOf(nodes)(bs[a]) == Some(y);
    }
  }

  /** The report's buckets: none is empty, and each holds the
      deduplicated names of the nodes that map to it, so no name twice. */
  lemma CategoriesEntries(nodes: seq<Node>)
    ensures forall i :: 0 <= i < |Categories(nodes)| ==>
              Categories(nodes)[i].1 != [] && NoDuplicates(Categories(nodes)[i].1) &&
              Categories(nodes)[i].1 == Dedup(Grouped(nodes, Categories(nodes)[i].0))
  {
    var r := Categories(nodes);
    forall i | 0 <= i < |r|
      ensures r[i].1 != [] && r[i].1 == Dedup(Grouped(nodes, r[i].0))
    {
      SlotsKept(AllBuckets, nodes, r[i]);
    }
  }

  /** The report's buckets come in `ALL_BUCKETS` order, each at most
      once. */
  lemma CategoriesInBucketOrder(nodes: seq<Node>)
    ensures forall i, j :: 0 <= i < j < |Categories(nodes)| ==>
              Position(Categories(nodes)[i].0) < Position(Categories(nodes)[j].0)
  {
    forall i, j | 0 <= i < j < |Categories(nodes)|
      ensures Position(Categories(nodes)[i].0) < Position(Categories(nodes)[j].0)
    {
      CategoryPairInOrder(nodes, i, j);
    }
  }

  lemma CategoryPairInOrder(nodes: seq<Node>, i: nat, j: nat)
    requires i < j < |Categories(nodes)|
    ensures Position(Categories(nodes)[i].0) < Position(Categories(nodes)[j].0)
  {
    var r := Categories(nodes);
    GatherOrder(AllBuckets, SlotOf(nodes), i, j);
    var a, b :| 0 <= a < b < |AllBuckets| && Slot(nodes, AllBuckets[a]) == Some(r[i]) &&
                Slot(nodes, AllBuckets[b]) == Some(r[j]);
    PositionAt(a);
    PositionAt(b);
  }

  /** Some name lands in bucket `b` exactly when some node's type maps to
      it. */
  lemma GroupedNonEmpty(nodes: seq<Node>, b: Bucket)
    ensures Grouped(nodes, b) != [] <==> exists j :: 0 <= j < |nodes| && Category(nodes[j].typeName) == b
  {
    if exists j :: 0 <= j < |nodes| && Category(nodes[j].typeName) == b {
      var j :| 0 <= j < |nodes| && Category(nodes[j].typeName) == b;
      GroupedMembers(nodes, b, nodes[j].name);
    }
    if Grouped(nodes, b) != [] {
      GroupedMembers(nodes, b, Grouped(nodes, b)[0]);
    }
  }

  /** A bucket is in the report exactly when some node's type maps to it. */
  lemma BucketReported(nodes: seq<Node>, b: Bucket)
    ensures (exists i :: 0 <= i < |Categories(nodes)| && Categories(nodes)[i].0 == b) <==>
              exists j :: 0 <= j < |nodes| && Category(nodes[j].typeName) == b
  {
    GroupedNonEmpty(nodes, b);
    var r := Categories(nodes);
    if exists i :: 0 <= i < |r| && r[i].0 == b {
      var i :| 0 <= i < |r| && r[i].0 == b;
      SlotsKept(AllBuckets, nodes, r[i]);
      assert r[i].1[0] in Grouped(nodes, b);
    }
    if Grouped(nodes, b) != [] {
      var y := (b, Dedup(Grouped(nodes, b)));
      assert Grouped(nodes, b)[0] in y.1;
      Listed(b);
      SlotsKept(AllBuckets, nodes, y);
    }
  }

  /** Every matched name is reported, in the bucket its type maps to. */
  lemma NameLandsInItsBucket(nodes: seq<Node>, j: nat)
    requires j < |nodes|
    ensures var b := Category(nodes[j].typeName);
            (b, Dedup(Grouped(nodes, b))) in Categories(nodes) && nodes[j].name in Dedup(Grouped(nodes, b))
  {
    var b := Category(nodes[j].typeName);
    GroupedMembers(nodes, b, nodes[j].name);
    Listed(b);
    SlotsKept(AllBuckets, nodes, (b, Dedup(Grouped(nodes, b))));
  }

  /** Every reported name comes from a node whose type maps to its
      bucket. */
  lemma ReportedNamesMatched(nodes: seq<Node>, i: nat, x: string)
    requires i < |Categories(nodes)| && x in Categories(nodes)[i].1
    ensures exists j :: 0 <= j < |nodes| && nodes[j].name == x && Category(nodes[j].typeName) == Categories(nodes)[i].0
  {
    SlotsKept(AllBuckets, nodes, Categories(nodes)[i]);
    GroupedMembers(nodes, Categories(nodes)[i].0, x);
  }

  /** Every bucket has a slot in a grouping map. */
  predicate Total(groups: map<Bucket, seq<string>>) {
    forall b: Bucket :: b in groups
  }

  /** `categorise`: every bucket starts empty, each node's name is appended
      to its bucket, each bucket is deduplicated in place, and the
      non-empty buckets are returned in `ALL_BUCKETS` order. */
  method Categorise(matched: seq<Node>) returns (results: seq<(Bucket, seq<string>)>)
    ensures results == Categories(matched)
  {
    var groups := GroupNames(matched);
    groups := DedupGroups(groups);
    results := DropEmpty(matched, groups);
  }

  /** `{b: [] for b in ALL_BUCKETS}`: an empty list for every bucket. */
  function EmptyGroups(): (g: map<Bucket, seq<string>>)
    ensures Total(g) && forall b: Bucket :: g[b] == []
  {
    var g := map b | b in AllBuckets :: [];
    assert Total(g) by {
      forall b: Bucket ensures b in g {
        Listed(b);
      }
    }
    g
  }

  /** The first loop of `categorise`: each name appended to its bucket. */
  method GroupNames(matched: seq<Node>) returns (groups: map<Bucket, seq<string>>)
    ensures Total(groups)
    ensures forall b: Bucket :: groups[b] == Grouped(matched, b)
  {
    groups := EmptyGroups();
    for i := 0 to |matched|
      invariant Total(groups)
      invariant forall b: Bucket :: groups[b] == Grouped(matched[..i], b)
    {
      assert matched[..i + 1][..i] == matched[..i];
      var b := Category(matched[i].typeName);
      groups := groups[b := groups[b] + [matched[i].name]];
    }
    assert matched[..|matched|] == matched;
  }

  /** The second loop of `categorise`: each bucket, in `ALL_BUCKETS` order,
      replaced by its deduplicated list. */
  method DedupGroups(groups: map<Bucket, seq<string>>) returns (deduped: map<Bucket, seq<string>>)
    requires Total(groups)
    ensures Total(deduped)
    ensures forall b: Bucket :: deduped[b] == Dedup(groups[b])
  {
    ListedOnce();
    deduped := groups;
    for i := 0 to |AllBuckets|
      invariant Total(deduped)
      invariant forall k :: 0 <= k < i ==> deduped[AllBuckets[k]] == Dedup(groups[AllBuckets[k]])
      invariant forall k :: i <= k < |AllBuckets| ==> deduped[AllBuckets[k]] == groups[AllBuckets[k]]
    {
      var key := AllBuckets[i];
      deduped := deduped[key := Dedup(deduped[key])];
    }
    forall b: Bucket ensures deduped[b] == Dedup(groups[b]) {
      assert AllBuckets[Position(b)] == b;
    }
  }

  /** The final comprehension of `categorise`: the non-empty buckets, in
      `ALL_BUCKETS` order. */
  method DropEmpty(matched: seq<Node>, groups: map<Bucket, seq<string>>) returns (results: seq<(Bucket, seq<string>)>)
    requires Total(groups)
    requires forall b: Bucket :: groups[b] == Dedup(Grouped(matched, b))
    ensures results == Categories(matched)
  {
    results := [];
    for i := 0 to |AllBuckets|
      invariant results == Gather(AllBuckets[..i], SlotOf(matched))
    {
      GatherStep(AllBuckets, SlotOf(matched), i);
      var key := AllBuckets[i];
      assert SlotOf(matched)(key) == Slot(matched, key);
      if groups[key] != [] {
        results := results + [(key, groups[key])];
      }
    }
    assert AllBuckets[..|AllBuckets|] == AllBuckets;
  }

  /** A per-repository report, as written to the output file. */
  datatype Report =
    | SuccessReport(repo: string, results: seq<(Bucket, seq<string>)>)
    | ErrorReport(repo: string, error: string)
  {
    function Status(): string {
      if SuccessReport? then "success" else "error"
    }
  }

  /** `build_success_report`. */
  method BuildSuccessReport(repoName: string, matched: seq<Node>) returns (r: Report)
    ensures r.Status() == "success" && r.SuccessReport?
    ensures r.repo == repoName && r.results == Categories(matched)
  {
    var results := Categorise(matched);
    r := SuccessReport(repoName, results);
  }

  /** `build_error_report`; `message` is `str(error)`. */
  function BuildErrorReport(repoName: string, message: string): (r: Report)
    ensures r.Status() == "error" && r.ErrorReport?
    ensures r.repo == repoName && r.error == message
  {
    ErrorReport(repoName, message)
  }
}
