/** The repository manager's checks: which urls count as local paths,
    which remote urls are accepted, the folder a clone is given, and the
    system directories a local path may not lie in. Cloning, pulling and
    removing directories are left to the caller; so are resolving a local
    path, testing that it exists and hashing the url, which come in as
    parameters. */
module RepoManager {
  import opened Wrappers
  import opened Text

  /** Why a repository cannot be prepared. */
  datatype RepoError =
    | UnsupportedProtocol(url: string)
    | SuspiciousCharacters(url: string)
    | PathNotFound(path: string)
    | SensitivePath(path: string)

  // ---------------------------------------------------------------------
  // Url validation (`_validate_url`)

  /** The accepted url prefixes, compared with the lower-cased url. */
  const AllowedPrefixes: seq<string> := ["http:", "https:", "ssh:", "file:", "git@"]

  /** The class `[;&|`$]`. */
  predicate IsSuspicious(c: char) {
    c == ';' || c == '&' || c == '|' || c == '`' || c == '$'
  }

  /** `any(s.startswith(p) for p in prefixes)`. */
  function StartsWithAny(s: string, prefixes: seq<string>): (r: bool)
    ensures r <==> exists i :: 0 <= i < |prefixes| && StartsWith(s, prefixes[i])
  {
    if prefixes == [] then false
    else StartsWith(s, prefixes[0]) || StartsWithAny(s, prefixes[1..])
  }

  /** `re.search(r"[;&|`$]", s)`: the index of the first suspicious
      character, if any. */
  function FindSuspicious(s: string): (r: Option<nat>)
    ensures r.None? <==> forall k :: 0 <= k < |s| ==> !IsSuspicious(s[k])
    ensures r.Some? ==> r.value < |s| && IsSuspicious(s[r.value]) &&
                        forall k :: 0 <= k < r.value ==> !IsSuspicious(s[k])
  {
    if s == [] then None
    else if IsSuspicious(s[0]) then Some(0)
    else match FindSuspicious(s[1..])
      case None => None
      case Some(k) => Some(k + 1)
  }

  /** The lower-cased url starts with one of the accepted prefixes. */
  predicate AllowedProtocol(url: string) {
    exists i :: 0 <= i < |AllowedPrefixes| && StartsWith(Lower(url), AllowedPrefixes[i])
  }

  /** `_validate_url`: `None` when the url is accepted. The protocol is
      checked first, on the lower-cased url; the suspicious characters
      after it, on the url as given. */
  function ValidateUrl(url: string): (r: Option<RepoError>)
    ensures r.None? <==> AllowedProtocol(url) && forall k :: 0 <= k < |url| ==> !IsSuspicious(url[k])
    ensures r == Some(UnsupportedProtocol(url)) <==> !AllowedProtocol(url)
    ensures r == Some(SuspiciousCharacters(url)) <==>
              AllowedProtocol(url) && exists k :: 0 <= k < |url| && IsSuspicious(url[k])
  {
    if !StartsWithAny(Lower(url), AllowedPrefixes) then Some(UnsupportedProtocol(url))
    else if FindSuspicious(url).Some? then Some(SuspiciousCharacters(url))
    else None
  }

  /** The lower-cased form of `a + b` starts with the lower-cased `a`. */
  lemma LowerPrefix(a: string, b: string)
    ensures StartsWith(Lower(a + b), Lower(a))
  {
    assert Lower(a + b)[..|a|] == Lower(a);
  }

  /** The protocol check ignores case: `HTTPS://host/x` is accepted like
      `https://host/x`. */
  lemma UpperCaseSchemeAccepted(rest: string)
    requires forall k :: 0 <= k < |rest| ==> !IsSuspicious(rest[k])
    ensures ValidateUrl("HTTPS://" + rest).None?
  {
    var url := "HTTPS://" + rest;
    LowerPrefix("HTTPS:", "//" + rest);
    assert "HTTPS:" + ("//" + rest) == url;
    assert Lower("HTTPS:") == AllowedPrefixes[1];
    forall k | 0 <= k < |url|
      ensures !IsSuspicious(url[k])
    {
      if k >= 8 {
        assert url[k] == rest[k - 8];
      }
    }
  }

  /** An accepted protocol does not excuse a suspicious character. */
  lemma SuspiciousAlwaysRejected(url: string, k: nat)
    requires k < |url| && IsSuspicious(url[k])
    ensures ValidateUrl(url).Some?
  {
  }

  // ---------------------------------------------------------------------
  // Local paths (`_is_local_path`)

  /** `re.match(r"^[a-zA-Z]:\\", s)`: a Windows drive prefix. */
  predicate HasDrivePrefix(s: string) {
    |s| >= 3 && IsAsciiAlpha(s[0]) && s[1] == ':' && s[2] == '\\'
  }

  /** `_is_local_path`: an absolute, relative or home-relative path, or a
      path behind a drive letter. */
  function IsLocalPath(url: string): (r: bool)
    ensures r <==> url != [] && (url[0] == '/' || url[0] == '.' || url[0] == '~' || HasDrivePrefix(url))
  {
    StartsWith(url, "/") || StartsWith(url, ".") || HasDrivePrefix(url) || StartsWith(url, "~")
  }

  /** The two kinds of url do not overlap: a url the protocol check
      accepts is never taken for a local path, so validation sees every
      url that could be cloned and only those. */
  lemma ProtocolUrlsAreNotLocal(url: string)
    requires AllowedProtocol(url)
    ensures !IsLocalPath(url)
  {
    var i :| 0 <= i < |AllowedPrefixes| && StartsWith(Lower(url), AllowedPrefixes[i]);
    var p := AllowedPrefixes[i];
    assert Lower(url)[0] == p[0] && Lower(url)[1] == p[1];
    assert p[0] == 'h' || p[0] == 's' || p[0] == 'f' || p[0] == 'g';
    assert p[1] == 't' || p[1] == 's' || p[1] == 'i';
    assert LowerChar(url[0]) == p[0] && LowerChar(url[1]) == p[1];
  }

  // ---------------------------------------------------------------------
  // Folder names (`_safe_folder_name`)

  /** A character a folder name may hold: `[a-z0-9-]`. */
  predicate SlugChar(c: char) {
    IsAsciiLowerAlnum(c) || c == '-'
  }

  /** No two `-` in a row. */
  predicate NoDoubleDash(s: string) {
    forall k :: 0 <= k < |s| - 1 ==> !(s[k] == '-' && s[k + 1] == '-')
  }

  /** `re.sub(r"[^a-z0-9]+", "-", s)`: every maximal run of characters
      outside `[a-z0-9]` becomes a single `-`. A character outside the
      class that follows another one belongs to the same run and adds
      nothing. */
  function CollapseRuns(s: string): (r: string)
    ensures forall k :: 0 <= k < |r| ==> SlugChar(r[k])
    ensures NoDoubleDash(r)
    ensures r == [] <==> s == []
    ensures r != [] ==> (r[0] == '-' <==> !IsAsciiLowerAlnum(s[0]))
    ensures r != [] ==> (r[|r| - 1] == '-' <==> !IsAsciiLowerAlnum(s[|s| - 1]))
  {
    if s == [] then []
    else
      var prev := CollapseRuns(s[..|s| - 1]);
      var c := s[|s| - 1];
      if IsAsciiLowerAlnum(c) then prev + [c]
      else if |s| >= 2 && !IsAsciiLowerAlnum(s[|s| - 2]) then prev
      else prev + ['-']
  }

  /** The substitution works piece by piece: joining two pieces joins
      their results, except that a run of separators spanning the join
      yields one dash, not two. */
  lemma {:induction false} CollapseAppend(a: string, b: string)
    requires a != [] && b != []
    ensures CollapseRuns(a + b) ==
              if !IsAsciiLowerAlnum(a[|a| - 1]) && !IsAsciiLowerAlnum(b[0])
              then CollapseRuns(a) + CollapseRuns(b)[1..]
              else CollapseRuns(a) + CollapseRuns(b)
  {
    if |b| == 1 {
      CollapseAppendOne(a, b[0]);
      assert a + b == a + [b[0]];
    } else {
      var b', c := b[..|b| - 1], b[|b| - 1];
      assert b == b' + [c] && a + b == (a + b') + [c];
      assert b'[0] == b[0] && (a + b')[|a + b'| - 1] == b'[|b'| - 1];
      CollapseLast(a + b', c);
      CollapseLast(b', c);
      CollapseAppend(a, b');
      JoinStep(CollapseRuns(a), CollapseRuns(b'), RunPiece(b'[|b'| - 1], c),
               !IsAsciiLowerAlnum(a[|a| - 1]) && !IsAsciiLowerAlnum(b[0]));
    }
  }

  /** What a character adds to the result after the character before it. */
  function RunPiece(prev: char, c: char): string {
    if IsAsciiLowerAlnum(c) then [c] else if !IsAsciiLowerAlnum(prev) then [] else ['-']
  }

  /** One step of the substitution. */
  lemma CollapseLast(x: string, c: char)
    requires x != []
    ensures CollapseRuns(x + [c]) == CollapseRuns(x) + RunPiece(x[|x| - 1], c)
  {
    var s := x + [c];
    assert s[..|s| - 1] == x && s[|s| - 2] == x[|x| - 1];
  }

  /** Sequence bookkeeping for the inductive step of CollapseAppend. */
  lemma JoinStep(ca: string, cb: string, d: string, join: bool)
    requires cb != []
    ensures (if join then ca + cb[1..] else ca + cb) + d ==
            (if join then ca + (cb + d)[1..] else ca + (cb + d))
  {
    assert (cb + d)[1..] == cb[1..] + d;
  }

  lemma CollapseAppendOne(a: string, c: char)
    requires a != []
    ensures CollapseRuns(a + [c]) ==
              if !IsAsciiLowerAlnum(a[|a| - 1]) && !IsAsciiLowerAlnum(c)
              then CollapseRuns(a) + CollapseRuns([c])[1..]
              else CollapseRuns(a) + CollapseRuns([c])
  {
    var s := a + [c];
    assert s[..|s| - 1] == a && s[|s| - 2] == a[|a| - 1];
    assert [c][..0] == [];
  }

  /** A non-empty run of separators becomes a single dash. */
  lemma {:induction false} CollapseOfSeparators(sep: string)
    requires sep != [] && forall k :: 0 <= k < |sep| ==> !IsAsciiLowerAlnum(sep[k])
    ensures CollapseRuns(sep) == "-"
  {
    if |sep| > 1 {
      CollapseOfSeparators(sep[..|sep| - 1]);
    }
  }

  /** Between letters or digits, a run of other characters becomes exactly
      one dash, and the text on either side is collapsed on its own. */
  lemma SeparatorBecomesDash(a: string, sep: string, b: string)
    requires a != [] && IsAsciiLowerAlnum(a[|a| - 1])
    requires b != [] && IsAsciiLowerAlnum(b[0])
    requires sep != [] && forall k :: 0 <= k < |sep| ==> !IsAsciiLowerAlnum(sep[k])
    ensures CollapseRuns(a + sep + b) == CollapseRuns(a) + "-" + CollapseRuns(b)
  {
    CollapseOfSeparators(sep);
    CollapseAppend(a, sep);
    var a' := a + sep;
    assert a'[|a'| - 1] == sep[|sep| - 1];
    CollapseAppend(a', b);
  }

  /** How many dashes `s.lstrip("-")` removes. */
  function LeadingDashes(s: string): (n: nat)
    ensures n <= |s| && (n < |s| ==> s[n] != '-')
    ensures forall k :: 0 <= k < n ==> s[k] == '-'
  {
    if s != [] && s[0] == '-' then 1 + LeadingDashes(s[1..]) else 0
  }

  /** How many dashes `s.rstrip("-")` removes. */
  function TrailingDashes(s: string): (n: nat)
    ensures n <= |s| && (n < |s| ==> s[|s| - n - 1] != '-')
    ensures forall k :: |s| - n <= k < |s| ==> s[k] == '-'
  {
    if s != [] && s[|s| - 1] == '-' then 1 + TrailingDashes(s[..|s| - 1]) else 0
  }

  /** `s.strip("-")`: a slice of `s` with only dashes cut away on either
      side, neither starting nor ending with one. */
  function StripDashes(s: string): (r: string)
    ensures r == [] || (r[0] != '-' && r[|r| - 1] != '-')
    ensures LeadingDashes(s) + |r| <= |s|
    ensures r == s[LeadingDashes(s)..LeadingDashes(s) + |r|]
    ensures forall k :: LeadingDashes(s) + |r| <= k < |s| ==> s[k] == '-'
  {
    var t := s[LeadingDashes(s)..];
    t[..|t| - TrailingDashes(t)]
  }

  /** The slug of `_safe_folder_name`: the name lower-cased, each run of
      other characters turned into `-`, and outer dashes stripped. */
  function Slug(name: string): (slug: string)
    ensures forall k :: 0 <= k < |slug| ==> SlugChar(slug[k])
    ensures slug == [] || (slug[0] != '-' && slug[|slug| - 1] != '-')
    ensures NoDoubleDash(slug)
  {
    var c := CollapseRuns(Lower(name));
    var slug := StripDashes(c);
    var i := LeadingDashes(c);
    assert forall k :: 0 <= k < |slug| ==> slug[k] == c[i + k];
    slug
  }

  /** The letters and digits of a string, in order. */
  function Alnums(s: string): (r: string)
    ensures |r| <= |s|
  {
    if s == [] then []
    else if IsAsciiLowerAlnum(s[|s| - 1]) then Alnums(s[..|s| - 1]) + [s[|s| - 1]]
    else Alnums(s[..|s| - 1])
  }

  lemma {:induction false} AlnumsAppend(a: string, b: string)
    ensures Alnums(a + b) == Alnums(a) + Alnums(b)
  {
    if b == [] {
      assert a + b == a;
    } else {
      var b' := b[..|b| - 1];
      assert (a + b)[..|a + b| - 1] == a + b';
      AlnumsAppend(a, b');
    }
  }

  lemma {:induction false} AlnumsOfDashes(s: string)
    requires forall k :: 0 <= k < |s| ==> s[k] == '-'
    ensures Alnums(s) == []
  {
    if s != [] {
      AlnumsOfDashes(s[..|s| - 1]);
    }
  }

  /** Collapsing runs keeps every letter and digit, in order. */
  lemma {:induction false} CollapseKeepsAlnums(s: string)
    ensures Alnums(CollapseRuns(s)) == Alnums(s)
  {
    if s != [] {
      var p := s[..|s| - 1];
      var c := s[|s| - 1];
      CollapseKeepsAlnums(p);
      AlnumsAppend(CollapseRuns(p), [c]);
      AlnumsAppend(CollapseRuns(p), ['-']);
      assert Alnums([c]) == if IsAsciiLowerAlnum(c) then [c] else [];
      assert Alnums(['-']) == [];
    }
  }

  /** Stripping dashes keeps every letter and digit. */
  lemma StripKeepsAlnums(s: string)
    ensures Alnums(StripDashes(s)) == Alnums(s)
  {
    var r := StripDashes(s);
    var i := LeadingDashes(s);
    var j := i + |r|;
    assert s == s[..i] + r + s[j..];
    AlnumsAppend(s[..i] + r, s[j..]);
    AlnumsAppend(s[..i], r);
    AlnumsOfDashes(s[..i]);
    AlnumsOfDashes(s[j..]);
  }

  /** The slug keeps exactly the letters and digits of the lower-cased
      name, in order; only the separators between them change. */
  lemma SlugKeepsAlnums(name: string)
    ensures Alnums(Slug(name)) == Alnums(Lower(name))
  {
    CollapseKeepsAlnums(Lower(name));
    StripKeepsAlnums(CollapseRuns(Lower(name)));
  }

  /** A string that already has the slug's shape is left as it is. */
  lemma {:induction false} CollapseOfSlugShaped(s: string)
    requires forall k :: 0 <= k < |s| ==> SlugChar(s[k])
    requires NoDoubleDash(s)
    ensures CollapseRuns(s) == s
  {
    if s != [] {
      var p := s[..|s| - 1];
      CollapseOfSlugShaped(p);
      if !IsAsciiLowerAlnum(s[|s| - 1]) && |s| >= 2 {
        assert s[|s| - 2] != '-';
      }
      assert p + [s[|s| - 1]] == s;
    }
  }

  /** The slug is a fixed point: slugging a slug changes nothing. */
  lemma SlugIdempotent(name: string)
    ensures Slug(Slug(name)) == Slug(name)
  {
    var s := Slug(name);
    assert Lower(s) == s;
    CollapseOfSlugShaped(s);
    assert LeadingDashes(s) == 0;
    assert TrailingDashes(s) == 0;
  }

  /** A lower-case hexadecimal digest, as `hexdigest()` of SHA-256 gives. */
  predicate IsHexDigest(d: string) {
    |d| == 64 && forall k :: 0 <= k < |d| ==> ('0' <= d[k] <= '9' || 'a' <= d[k] <= 'f')
  }

  /** `_safe_folder_name`, with the url's SHA-256 hex digest passed in:
      the slug, a `-`, and the digest's first eight characters. */
  function FolderName(name: string, digest: string): (folder: string)
    requires IsHexDigest(digest)
    ensures forall k :: 0 <= k < |folder| ==> SlugChar(folder[k])
    ensures |folder| == |Slug(name)| + 9 && folder[|folder| - 9] == '-'
    ensures folder[..|folder| - 9] == Slug(name) && folder[|folder| - 8..] == digest[..8]
  {
    Slug(name) + "-" + digest[..8]
  }

  /** Two equal folder names come from names with the same slug and
      digests that agree on their first eight characters. */
  lemma FolderNameParts(a: string, da: string, b: string, db: string)
    requires IsHexDigest(da) && IsHexDigest(db)
    requires FolderName(a, da) == FolderName(b, db)
    ensures Slug(a) == Slug(b) && da[..8] == db[..8]
  {
  }

  // ---------------------------------------------------------------------
  // Local preparation (`_prepare_local`)

  /** The system directories a local path may not start with; compared
      lower-cased, as plain string prefixes. */
  const SensitivePrefixes: seq<string> := ["/etc", "/usr", "/bin", "/sbin", "C:\\Windows", "C:\\Program Files"]

  predicate InSensitiveDirectory(path: string) {
    exists i :: 0 <= i < |SensitivePrefixes| && StartsWith(Lower(path), Lower(SensitivePrefixes[i]))
  }

  /** What `_prepare_local` answers for a url that resolves to `resolved`,
      which `present` says exists or not. */
  function LocalOutcome(resolved: string, present: bool): Result<string, RepoError> {
    if !present then Err(PathNotFound(resolved))
    else if InSensitiveDirectory(resolved) then Err(SensitivePath(resolved))
    else Ok(resolved)
  }

  /** `_prepare_local`: `resolve` stands for `abspath(expanduser(...))` and
      `exists` for `os.path.exists`. The sensitive prefixes are tried in
      order and the first hit refuses the path. */
  method PrepareLocal(localUrl: string, resolve: string -> string, present: string -> bool)
    returns (r: Result<string, RepoError>)
    ensures r == LocalOutcome(resolve(localUrl), present(resolve(localUrl)))
  {
    var resolved := resolve(localUrl);
    if !present(resolved) {
      return Err(PathNotFound(resolved));
    }
    var lowered := Lower(resolved);
    for i := 0 to |SensitivePrefixes|
      invariant forall k :: 0 <= k < i ==> !StartsWith(lowered, Lower(SensitivePrefixes[k]))
    {
      if StartsWith(lowered, Lower(SensitivePrefixes[i])) {
        return Err(SensitivePath(resolved));
      }
    }
    return Ok(resolved);
  }

  /** `LowerChar` is idempotent on strings. */
  lemma LowerTwice(s: string)
    ensures Lower(Lower(s)) == Lower(s)
  {
  }

  /** Every path under a sensitive prefix is refused, however its case
      is written and whatever follows the prefix: `/binaries` is refused
      like `/bin/sh`. */
  lemma SensitivePrefixRefused(i: nat, rest: string)
    requires i < |SensitivePrefixes|
    ensures InSensitiveDirectory(SensitivePrefixes[i] + rest)
    ensures InSensitiveDirectory(Lower(SensitivePrefixes[i] + rest))
  {
    var p := SensitivePrefixes[i];
    LowerPrefix(p, rest);
    LowerTwice(p + rest);
  }

  /** The check sees only the lower-cased path. */
  lemma SensitiveIgnoresCase(path: string)
    ensures InSensitiveDirectory(Lower(path)) <==> InSensitiveDirectory(path)
  {
    LowerTwice(path);
  }

  // ---------------------------------------------------------------------
  // Routing (`prepare_repo`)

  /** Where a repository is scanned: a local directory used in place, or
      the workspace folder a clone goes to, which is temporary. */
  datatype Prepared = LocalRepo(path: string) | ClonedRepo(folder: string) {
    function IsTemporary(): (t: bool)
      ensures t <==> this.ClonedRepo?
    {
      match this
      case LocalRepo(_) => false
      case ClonedRepo(_) => true
    }
  }

  /** What `prepare_repo` answers, up to the clone itself. */
  function Preparation(name: string, url: string, resolve: string -> string, present: string -> bool, digest: string)
    : Result<Prepared, RepoError>
    requires IsHexDigest(digest)
  {
    if IsLocalPath(url) then
      match LocalOutcome(resolve(url), present(resolve(url)))
      case Ok(path) => Ok(LocalRepo(path))
      case Err(e) => Err(e)
    else
      match ValidateUrl(url)
      case Some(e) => Err(e)
      case None => Ok(ClonedRepo(FolderName(name, digest)))
  }

  /** `prepare_repo`: a local path goes to `_prepare_local`; any other url
      is validated first and then given its workspace folder. `digest` is
      the SHA-256 hex digest of the url. */
  method PrepareRepo(name: string, url: string, resolve: string -> string, present: string -> bool, digest: string)
    returns (r: Result<Prepared, RepoError>)
    requires IsHexDigest(digest)
    ensures r == Preparation(name, url, resolve, present, digest)
  {
    if IsLocalPath(url) {
      var local := PrepareLocal(url, resolve, present);
      match local
      case Ok(path) => return Ok(LocalRepo(path));
      case Err(e) => return Err(e);
    }
    var invalid := ValidateUrl(url);
    if invalid.Some? {
      return Err(invalid.value);
    }
    return Ok(ClonedRepo(FolderName(name, digest)));
  }

  /** Nothing is cloned without validation, and local paths bypass it: a
      clone folder is handed out only for a non-local url that passed
      `_validate_url`; a local path is never refused for its protocol or
      its characters, and one that is used exists and lies outside the
      sensitive directories. */
  lemma RoutingValidated(name: string, url: string, resolve: string -> string, present: string -> bool, digest: string)
    requires IsHexDigest(digest)
    ensures var r := Preparation(name, url, resolve, present, digest);
            (r.Ok? && r.value.ClonedRepo? ==> !IsLocalPath(url) && ValidateUrl(url).None?) &&
            (r.Ok? && r.value.LocalRepo? ==>
               IsLocalPath(url) && r.value.path == resolve(url) && present(r.value.path) && !InSensitiveDirectory(r.value.path)) &&
            (IsLocalPath(url) ==> r.Ok? || r.error.PathNotFound? || r.error.SensitivePath?) &&
            (!IsLocalPath(url) ==> (r.Ok? <==> ValidateUrl(url).None?))
  {
  }
}
