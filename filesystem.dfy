/** The analyser's view of a repository on disk (`FSProvider`): directory
    listings, file contents and existence, as an immutable value in place
    of the operating-system calls. */
module FileSystems {
  import opened Wrappers
  import opened Text

  /** One listed entry: its path relative to the repository root, its own
      name, and whether it is a directory. */
  datatype Entry = Entry(path: string, name: string, isDir: bool)

  /** A repository snapshot, keyed by paths relative to the root (`"."`
      names the root itself).
      - `dirs`: the paths that are directories (`os.path.isdir`);
      - `listing`: what `os.listdir` returns for each directory it can
        read; a directory missing here raises `PermissionError`;
      - `contents`: the files that open and decode;
      - `present`: the paths `os.path.exists` accepts. */
  datatype FileSystem = FileSystem(
    dirs: set<string>,
    listing: map<string, seq<string>>,
    contents: map<string, string>,
    present: set<string>)
  {
    /** `read_file`: the text, or `None` when opening fails. */
    function ReadFile(path: string): (r: Option<string>)
      ensures r.Some? <==> path in contents
      ensures r.Some? ==> r.value == contents[path]
    {
      if path in contents then Some(contents[path]) else None
    }

    /** `exists`. */
    predicate Exists(path: string) {
      path in present
    }

    /** The listing `list_dir` works from: empty when the target is not a
        directory or cannot be listed. */
    function Names(rel: string): (names: seq<string>)
      ensures names != [] ==> rel in dirs && rel in listing
    {
      if rel in dirs && rel in listing then listing[rel] else []
    }
  }

  /** A directory that can be listed yields its whole listing. */
  lemma ListableNames(fs: FileSystem, rel: string)
    requires rel in fs.dirs && rel in fs.listing
    ensures fs.Names(rel) == fs.listing[rel]
  {
  }

  /** The entry path of `name` inside `rel`. */
  function JoinPath(rel: string, name: string): string {
    if rel == "." then name else rel + "/" + name
  }

  /** Only the root listing drops dot-prefixed names; deeper listings keep
      them. */
  predicate Skipped(rel: string, name: string) {
    rel == "." && StartsWith(name, ".")
  }

  /** The entries `list_dir(rel)` builds from the raw names, in order. */
  function EntriesOf(fs: FileSystem, rel: string, names: seq<string>): (es: seq<Entry>)
    ensures |es| <= |names|
    ensures forall e :: e in es ==>
              e.name in names && !Skipped(rel, e.name) &&
              e.path == JoinPath(rel, e.name) && e.isDir == (e.path in fs.dirs)
  {
    if names == [] then []
    else
      var name := names[|names| - 1];
      var path := JoinPath(rel, name);
      EntriesOf(fs, rel, names[..|names| - 1]) +
        (if Skipped(rel, name) then [] else [Entry(path, name, path in fs.dirs)])
  }

  /** Every name not skipped is listed. */
  lemma {:induction false} EntriesOfComplete(fs: FileSystem, rel: string, names: seq<string>, name: string)
    requires name in names && !Skipped(rel, name)
    ensures exists e :: e in EntriesOf(fs, rel, names) && e.name == name
  {
    var last := names[|names| - 1];
    var pre := names[..|names| - 1];
    if name != last {
      assert name in pre;
      EntriesOfComplete(fs, rel, pre, name);
    } else {
      assert EntriesOf(fs, rel, names)[|EntriesOf(fs, rel, names)| - 1].name == name;
    }
  }

  /** Below the root nothing is skipped: one entry per name, in order. */
  lemma {:induction false} DeepListingKeepsAll(fs: FileSystem, rel: string, names: seq<string>)
    requires rel != "."
    ensures |EntriesOf(fs, rel, names)| == |names|
    ensures forall k :: 0 <= k < |names| ==> EntriesOf(fs, rel, names)[k].name == names[k]
  {
    if names != [] {
      var n := |names| - 1;
      var pre := names[..n];
      DeepListingKeepsAll(fs, rel, pre);
      var path := JoinPath(rel, names[n]);
      assert EntriesOf(fs, rel, names) == EntriesOf(fs, rel, pre) + [Entry(path, names[n], path in fs.dirs)];
      forall k | 0 <= k < n ensures EntriesOf(fs, rel, names)[k].name == names[k] {
        assert pre[k] == names[k];
      }
    }
  }

  /** `list_dir(rel)`, entry by entry. */
  method ListDir(fs: FileSystem, rel: string) returns (es: seq<Entry>)
    ensures es == EntriesOf(fs, rel, fs.Names(rel))
    ensures rel !in fs.dirs || rel !in fs.listing ==> es == []
  {
    var names := fs.Names(rel);
    es := [];
    var i := 0;
    while i < |names|
      invariant 0 <= i <= |names|
      invariant es == EntriesOf(fs, rel, names[..i])
    {
      var name := names[i];
      assert names[..i + 1][..i] == names[..i];
      if !Skipped(rel, name) {
        var path := JoinPath(rel, name);
        es := es + [Entry(path, name, path in fs.dirs)];
      }
      i := i + 1;
    }
    assert names[..i] == names;
  }
}
