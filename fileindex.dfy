/** The bounded-depth file index `analyse` builds before evaluating any
    rule: every path down to the grandchildren of the root, the names of
    the root entries and of their children, and the extensions of the
    files directly at the root. */
module FileIndex {
  import opened Wrappers
  import opened Text
  import opened Seqs
  import opened FileSystems

  /** `all_paths`, `root_names` and `extensions`. */
  datatype Index = Index(paths: set<string>, names: set<string>, extensions: set<string>)

  /** The entries `list_dir(rel)` returns. */
  function Listing(fs: FileSystem, rel: string): seq<Entry> {
    EntriesOf(fs, rel, fs.Names(rel))
  }

  /** `name.rfind(".")`, with `None` for -1. */
  function LastDot(name: string): (r: Option<nat>)
    ensures r.Some? ==> r.value < |name| && name[r.value] == '.'
    ensures r.Some? ==> forall k :: r.value < k < |name| ==> name[k] != '.'
    ensures r.None? ==> forall k :: 0 <= k < |name| ==> name[k] != '.'
  {
    if name == [] then None
    else if name[|name| - 1] == '.' then Some(|name| - 1)
    else LastDot(name[..|name| - 1])
  }

  /** The extension a root file contributes: the suffix from its last `.`,
      unless that dot is the first character (`.bashrc` has none). */
  function ExtensionOf(name: string): (r: Option<string>)
    ensures r.Some? ==> 0 < |r.value| < |name| && r.value[0] == '.'
    ensures r.Some? ==> name[|name| - |r.value|..] == r.value
    ensures r.Some? ==> forall k :: 1 <= k < |r.value| ==> r.value[k] != '.'
    ensures r.None? <==> forall k :: 0 < k < |name| ==> name[k] != '.'
  {
    match LastDot(name)
    case Some(d) => if d > 0 then Some(name[d..]) else None
    case None => None
  }

  function PathsOf(es: seq<Entry>): set<string> {
    UnionOf(es, (e: Entry) => {e.path})
  }

  function NamesOf(es: seq<Entry>): set<string> {
    UnionOf(es, (e: Entry) => {e.name})
  }

  function FileExtension(e: Entry): set<string> {
    if !e.isDir && ExtensionOf(e.name).Some? then {ExtensionOf(e.name).value} else {}
  }

  function ExtensionsOf(es: seq<Entry>): set<string> {
    UnionOf(es, FileExtension)
  }

  /** The names of the directories among `es`, in order. */
  function DirNamesOf(es: seq<Entry>): (r: seq<string>)
    ensures forall d :: d in r <==> exists e :: e in es && e.isDir && e.name == d
  {
    if es == [] then []
    else
      var e := es[|es| - 1];
      var pre := es[..|es| - 1];
      assert es == pre + [e];
      DirNamesOf(pre) + (if e.isDir then [e.name] else [])
  }

  /** The paths listed inside each directory among `children`. */
  function GrandPaths(fs: FileSystem, children: seq<Entry>): set<string> {
    UnionOf(children, (c: Entry) => if c.isDir then PathsOf(Listing(fs, c.path)) else {})
  }

  /** Paths contributed by walking each root directory. */
  function WalkPaths(fs: FileSystem, dirs: seq<string>): set<string> {
    UnionOf(dirs, (d: string) => PathsOf(Listing(fs, d)) + GrandPaths(fs, Listing(fs, d)))
  }

  /** Names contributed by walking each root directory. */
  function WalkNames(fs: FileSystem, dirs: seq<string>): set<string> {
    UnionOf(dirs, (d: string) => NamesOf(Listing(fs, d)))
  }

  /** The root directories the walk visits, in listing order. */
  function RootDirs(fs: FileSystem): seq<string> {
    DirNamesOf(Listing(fs, "."))
  }

  /** `all_paths` once the walk is over. */
  function AllPaths(fs: FileSystem): set<string> {
    PathsOf(Listing(fs, ".")) + WalkPaths(fs, RootDirs(fs))
  }

  /** `root_names` once the walk is over. */
  function RootNames(fs: FileSystem): set<string> {
    NamesOf(Listing(fs, ".")) + WalkNames(fs, RootDirs(fs))
  }

  /** `extensions`: taken from the root listing alone. */
  function RootExtensions(fs: FileSystem): set<string> {
    ExtensionsOf(Listing(fs, "."))
  }

  /** The index `analyse` builds, as one value. */
  function IndexOf(fs: FileSystem): Index {
    Index(AllPaths(fs), RootNames(fs), RootExtensions(fs))
  }

  /** The loop over the root entries: record each path and name, queue
      the directories, and take the extension of each file whose last dot
      is past its first character. */
  method IndexRoot(root: seq<Entry>) returns (paths: set<string>, names: set<string>, extensions: set<string>, dirs: seq<string>)
    ensures paths == PathsOf(root) && names == NamesOf(root)
    ensures extensions == ExtensionsOf(root) && dirs == DirNamesOf(root)
  {
    paths, names, extensions, dirs := {}, {}, {}, [];
    for i := 0 to |root|
      invariant paths == PathsOf(root[..i]) && names == NamesOf(root[..i])
      invariant extensions == ExtensionsOf(root[..i]) && dirs == DirNamesOf(root[..i])
    {
      assert root[..i + 1][..i] == root[..i];
      var e := root[i];
      paths := paths + {e.path};
      names := names + {e.name};
      if e.isDir {
        dirs := dirs + [e.name];
      } else {
        var dot := LastDot(e.name);
        if dot.Some? && dot.value > 0 {
          extensions := extensions + {e.name[dot.value..]};
        }
      }
    }
    assert root[..|root|] == root;
  }

  /** The innermost loop: add the path of every entry listed in `rel`. */
  method AddListedPaths(fs: FileSystem, rel: string, paths: set<string>) returns (r: set<string>)
    ensures r == paths + PathsOf(Listing(fs, rel))
  {
    var entries := ListDir(fs, rel);
    r := paths;
    for m := 0 to |entries|
      invariant r == paths + PathsOf(entries[..m])
    {
      assert entries[..m + 1][..m] == entries[..m];
      r := r + {entries[m].path};
    }
    assert entries[..|entries|] == entries;
  }

  /** One turn of the walk: the children of root directory `d`, and the
      entries of each child directory. */
  method WalkDir(fs: FileSystem, d: string, paths: set<string>, names: set<string>)
    returns (paths': set<string>, names': set<string>)
    ensures paths' == paths + (PathsOf(Listing(fs, d)) + GrandPaths(fs, Listing(fs, d)))
    ensures names' == names + NamesOf(Listing(fs, d))
  {
    var children := ListDir(fs, d);
    paths', names' := paths, names;
    for k := 0 to |children|
      invariant paths' == paths + PathsOf(children[..k]) + GrandPaths(fs, children[..k])
      invariant names' == names + NamesOf(children[..k])
    {
      ChildStep(fs, children, k);
      var c := children[k];
      ghost var grand: set<string> := if c.isDir then PathsOf(Listing(fs, c.path)) else {};
      UnionRegroup(paths, PathsOf(children[..k]), GrandPaths(fs, children[..k]), {c.path}, grand);
      UnionAssoc(names, NamesOf(children[..k]), {c.name});
      paths' := paths' + {c.path};
      names' := names' + {c.name};
      if c.isDir {
        paths' := AddListedPaths(fs, c.path, paths');
      }
    }
    assert children[..|children|] == children;
  }

  /** Taking one more child adds its path, its name and, for a directory,
      the paths listed in it. */
  lemma ChildStep(fs: FileSystem, children: seq<Entry>, k: nat)
    requires k < |children|
    ensures PathsOf(children[..k + 1]) == PathsOf(children[..k]) + {children[k].path}
    ensures NamesOf(children[..k + 1]) == NamesOf(children[..k]) + {children[k].name}
    ensures GrandPaths(fs, children[..k + 1]) ==
              GrandPaths(fs, children[..k]) +
              (if children[k].isDir then PathsOf(Listing(fs, children[k].path)) else {})
  {
    assert children[..k + 1][..k] == children[..k];
  }

  lemma UnionAssoc<T>(a: set<T>, b: set<T>, c: set<T>)
    ensures a + b + c == a + (b + c)
  {
  }

  lemma UnionRegroup<T>(a: set<T>, b: set<T>, c: set<T>, x: set<T>, y: set<T>)
    ensures a + b + c + x + y == a + (b + x) + (c + y)
  {
  }

  /** The walk over the root directories. */
  method Walk(fs: FileSystem, dirs: seq<string>, paths: set<string>, names: set<string>)
    returns (paths': set<string>, names': set<string>)
    ensures paths' == paths + WalkPaths(fs, dirs)
    ensures names' == names + WalkNames(fs, dirs)
  {
    paths', names' := paths, names;
    for j := 0 to |dirs|
      invariant paths' == paths + WalkPaths(fs, dirs[..j])
      invariant names' == names + WalkNames(fs, dirs[..j])
    {
      WalkStep(fs, dirs, j);
      var listing := Listing(fs, dirs[j]);
      UnionAssoc(paths, WalkPaths(fs, dirs[..j]), PathsOf(listing) + GrandPaths(fs, listing));
      UnionAssoc(names, WalkNames(fs, dirs[..j]), NamesOf(listing));
      paths', names' := WalkDir(fs, dirs[j], paths', names');
    }
    assert dirs[..|dirs|] == dirs;
  }

  /** The index-building loops of `analyse`: root entries first, then each
      root directory's children and, for child directories, their
      entries. */
  method BuildIndex(fs: FileSystem) returns (ix: Index)
    ensures ix == IndexOf(fs)
  {
    var root := ListDir(fs, ".");
    var paths, names, extensions, dirs := IndexRoot(root);
    paths, names := Walk(fs, dirs, paths, names);
    ix := Index(paths, names, extensions);
  }

  lemma WalkStep(fs: FileSystem, dirs: seq<string>, j: nat)
    requires j < |dirs|
    ensures WalkPaths(fs, dirs[..j + 1]) ==
              WalkPaths(fs, dirs[..j]) + (PathsOf(Listing(fs, dirs[j])) + GrandPaths(fs, Listing(fs, dirs[j])))
    ensures WalkNames(fs, dirs[..j + 1]) == WalkNames(fs, dirs[..j]) + NamesOf(Listing(fs, dirs[j]))
  {
    assert dirs[..j + 1][..j] == dirs[..j];
  }

  /** A path listed at the root. */
  predicate AtDepth0(fs: FileSystem, p: string) {
    exists e :: e in Listing(fs, ".") && e.path == p
  }

  /** A path listed inside a root directory. */
  predicate AtDepth1(fs: FileSystem, p: string) {
    exists d, c :: d in RootDirs(fs) && c in Listing(fs, d) && c.path == p
  }

  /** A path listed inside a directory inside a root directory. */
  predicate AtDepth2(fs: FileSystem, p: string) {
    exists d, c, g :: d in RootDirs(fs) && c in Listing(fs, d) && c.isDir &&
      g in Listing(fs, c.path) && g.path == p
  }

  lemma PathsOfMembers(es: seq<Entry>, p: string)
    ensures p in PathsOf(es) <==> exists e :: e in es && e.path == p
  {
    UnionOfMembers(es, (e: Entry) => {e.path}, p);
  }

  lemma NamesOfMembers(es: seq<Entry>, n: string)
    ensures n in NamesOf(es) <==> exists e :: e in es && e.name == n
  {
    UnionOfMembers(es, (e: Entry) => {e.name}, n);
  }

  lemma GrandPathsMembers(fs: FileSystem, children: seq<Entry>, p: string)
    ensures p in GrandPaths(fs, children) <==>
              exists c, g :: c in children && c.isDir && g in Listing(fs, c.path) && g.path == p
  {
    UnionOfMembers(children, (c: Entry) => if c.isDir then PathsOf(Listing(fs, c.path)) else {}, p);
    forall c | c in children && c.isDir {
      PathsOfMembers(Listing(fs, c.path), p);
    }
  }

  /** What walking one root directory adds to `all_paths`. */
  lemma DirPathsMembers(fs: FileSystem, d: string, p: string)
    ensures p in PathsOf(Listing(fs, d)) + GrandPaths(fs, Listing(fs, d)) <==>
              (exists c :: c in Listing(fs, d) && c.path == p) ||
              (exists c, g :: c in Listing(fs, d) && c.isDir && g in Listing(fs, c.path) && g.path == p)
  {
    PathsOfMembers(Listing(fs, d), p);
    GrandPathsMembers(fs, Listing(fs, d), p);
  }

  lemma WalkPathsMembers(fs: FileSystem, dirs: seq<string>, p: string)
    ensures p in WalkPaths(fs, dirs) <==>
              exists d :: d in dirs && p in PathsOf(Listing(fs, d)) + GrandPaths(fs, Listing(fs, d))
  {
    UnionOfMembers(dirs, (d: string) => PathsOf(Listing(fs, d)) + GrandPaths(fs, Listing(fs, d)), p);
  }

  /** `all_paths` holds the paths of depth 0, 1 and 2, and nothing else. */
  lemma IndexedPaths(fs: FileSystem, p: string)
    ensures p in AllPaths(fs) <==> AtDepth0(fs, p) || AtDepth1(fs, p) || AtDepth2(fs, p)
  {
    PathsOfMembers(Listing(fs, "."), p);
    WalkPathsMembers(fs, RootDirs(fs), p);
    forall d | d in RootDirs(fs) {
      DirPathsMembers(fs, d, p);
    }
  }

  /** `root_names` holds the names of depth 0 and 1 only: a grandchild
      contributes its path but not its name. */
  lemma IndexedNames(fs: FileSystem, n: string)
    ensures n in RootNames(fs) <==>
              (exists e :: e in Listing(fs, ".") && e.name == n) ||
              (exists d, c :: d in RootDirs(fs) && c in Listing(fs, d) && c.name == n)
  {
    NamesOfMembers(Listing(fs, "."), n);
    UnionOfMembers(RootDirs(fs), (d: string) => NamesOf(Listing(fs, d)), n);
    forall d | d in RootDirs(fs) {
      NamesOfMembers(Listing(fs, d), n);
    }
  }

  /** Extensions come only from files directly at the root, each the
      suffix from the file name's last dot, which is not its first
      character. */
  lemma IndexedExtensions(fs: FileSystem, x: string)
    ensures x in RootExtensions(fs) <==>
              exists e :: e in Listing(fs, ".") && !e.isDir && ExtensionOf(e.name) == Some(x)
    ensures x in RootExtensions(fs) ==> x != [] && x[0] == '.'
  {
    UnionOfMembers(Listing(fs, "."), FileExtension, x);
  }

  /** The walk visits exactly the directories listed at the root. */
  lemma RootDirsAreListedDirs(fs: FileSystem, d: string)
    ensures d in RootDirs(fs) <==> exists e :: e in Listing(fs, ".") && e.isDir && e.name == d
    ensures d in RootDirs(fs) ==> !StartsWith(d, ".")
  {
  }
}
