/** The memoised file reader of `analyse` (`content_cache` and
    `read_cached`): each path is read from the repository at most once, and
    a failed read is remembered as `None` like any other result. */
module ContentCaches {
  import opened Wrappers
  import opened Seqs
  import opened FileSystems

  class ContentCache {
    /** The repository the cache reads from. */
    const fs: FileSystem
    /** `content_cache`: the result of every read so far. */
    var entries: map<string, Option<string>>
    /** The paths handed to `read_file`, in call order. */
    ghost var log: seq<string>

    /** Every cached result is what the repository gives for that path,
        the cached paths are exactly the paths read, and no path was read
        twice. */
    ghost predicate Valid()
      reads this
    {
      (forall p :: p in entries ==> entries[p] == fs.ReadFile(p)) &&
      (forall p :: p in entries <==> p in log) &&
      NoDuplicates(log)
    }

    constructor(fs: FileSystem)
      ensures Valid()
      ensures this.fs == fs && entries == map[] && log == []
    {
      this.fs := fs;
      entries := map[];
      log := [];
    }

    /** `read_cached(path)`: a cached result is returned without reading;
        otherwise the file is read once and its result (even `None`)
        remembered. */
    method Read(path: string) returns (content: Option<string>)
      requires Valid()
      modifies this
      ensures Valid()
      ensures content == fs.ReadFile(path)
      ensures path in old(entries) ==> entries == old(entries) && log == old(log)
      ensures path !in old(entries) ==>
                entries == old(entries)[path := content] && log == old(log) + [path]
    {
      if path in entries {
        content := entries[path];
        return;
      }
      content := fs.ReadFile(path);
      entries := entries[path := content];
      log := log + [path];
    }
  }
}
