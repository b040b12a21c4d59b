/** `findMatchingFile` and `findFirstMatchingFile` of the REST launcher: locating a
    packaged artifact by exact path or by a glob on the last path segment. */
module FileLocator {
  import opened Outcomes
  import opened JavaPaths

  /** One directory entry: its name and its last-modified time. */
  datatype Entry = Entry(name: string, lastModified: int)

  /** A read-only snapshot of the filesystem: the working directory, the regular
      files that exist, every existing directory that can be listed with its listing
      (in the order the listing returns it), and the existing directories that cannot
      be listed (no read permission). Paths are spelled as the program spells them. */
  datatype FileSystem = FileSystem(
    cwd: string,
    files: set<string>,
    dirs: map<string, seq<Entry>>,
    unlistable: set<string>)
  {
    predicate Exists(p: string) {
      p in files || p in dirs || p in unlistable
    }

    /** A path is one kind of thing, and every listed entry is a plain name that
        exists inside its directory. */
    predicate Valid() {
      && files !! dirs.Keys && files !! unlistable && dirs.Keys !! unlistable
      && forall d, i :: d in dirs && 0 <= i < |dirs[d]| ==>
           && 0 < |dirs[d][i].name|
           && SEPARATOR !in dirs[d][i].name
           && Exists(Resolve(d, dirs[d][i].name))
    }
  }

  /** The glob matcher, `WildcardGlobs.isGlobMatched(glob, name)`. */
  type GlobMatcher = (string, string) -> bool

  /** `k` is the entry the locator keeps: it matches the glob, no matching entry is
      newer, and every matching entry listed before it is strictly older. */
  predicate IsNewestMatch(entries: seq<Entry>, glob: string, matches: GlobMatcher, k: int) {
    && 0 <= k < |entries|
    && matches(glob, entries[k].name)
    && forall j :: 0 <= j < |entries| && matches(glob, entries[j].name) ==>
         && entries[j].lastModified <= entries[k].lastModified
         && (j < k ==> entries[j].lastModified < entries[k].lastModified)
  }

  /** The scan over the matching entries: a later entry replaces the kept one only
      when it is strictly newer. Returns the index of the kept entry. */
  function NewestMatch(entries: seq<Entry>, glob: string, matches: GlobMatcher): (r: Maybe<nat>)
    ensures r.Absent? <==> forall j :: 0 <= j < |entries| ==> !matches(glob, entries[j].name)
    ensures r.Present? ==> IsNewestMatch(entries, glob, matches, r.value)
  {
    if |entries| == 0 then Absent
    else
      var last := |entries| - 1;
      var kept := NewestMatch(entries[..last], glob, matches);
      if matches(glob, entries[last].name)
         && (kept.Absent? || entries[last].lastModified > entries[kept.value].lastModified)
      then Present(last)
      else kept
  }

  /** Ties are resolved deterministically: at most one index is the newest match. */
  lemma NewestMatchUnique(entries: seq<Entry>, glob: string, matches: GlobMatcher, k1: int, k2: int)
    requires IsNewestMatch(entries, glob, matches, k1)
    requires IsNewestMatch(entries, glob, matches, k2)
    ensures k1 == k2
  {
  }

  /** The listing of the directory that holds `filename`, when that directory exists
      and is a directory. */
  function ParentListing(fs: FileSystem, filename: string): Maybe<seq<Entry>> {
    match ParentOf(filename)
    case Present(dir) => if dir in fs.dirs then Present(fs.dirs[dir]) else Absent
    case Absent => Absent
  }

  /** Some entry of the parent directory matches the glob in the last segment. */
  predicate HasGlobMatch(fs: FileSystem, filename: string, matches: GlobMatcher) {
    && ParentListing(fs, filename).Present?
    && exists j :: 0 <= j < |ParentListing(fs, filename).value|
         && matches(NameOf(filename), ParentListing(fs, filename).value[j].name)
  }

  /** `findMatchingFile` as written: an existing path is returned as given; otherwise
      the parent directory is listed and the absolute path of its newest entry
      matching the glob is returned. A bare name (null parent) and a parent that
      exists but cannot be listed (a regular file, or a directory without read
      permission: a null listing) both end in a NullPointerException. */
  function FindMatchingFileAsWritten(fs: FileSystem, filename: string, matches: GlobMatcher)
    : (r: Result<Maybe<string>>)
    ensures fs.Exists(filename) ==> r == Ok(Present(filename))
    ensures r.Thrown? <==>
      && !fs.Exists(filename)
      && (ParentOf(filename).Absent?
          || (fs.Exists(ParentOf(filename).value) && ParentOf(filename).value !in fs.dirs))
    ensures r.Thrown? ==> r.fault == NullPointer
  {
    if fs.Exists(filename) then Ok(Present(filename))
    else match ParentOf(filename)
      case Absent => Thrown(NullPointer)
      case Present(dir) =>
        if !fs.Exists(dir) then Ok(Absent)
        else if dir !in fs.dirs then Thrown(NullPointer)
        else
          var listing := fs.dirs[dir];
          match NewestMatch(listing, NameOf(filename), matches)
          case Absent => Ok(Absent)
          case Present(k) => Ok(Present(AbsolutePath(fs.cwd, Resolve(dir, listing[k].name))))
  }

  /** `findMatchingFile` as its documentation promises: an existing path as given,
      else the newest glob match in the parent's listing, else nothing. A missing
      parent directory (including none at all) or one that cannot be listed gives
      `Absent` rather than an exception. */
  function FindMatchingFile(fs: FileSystem, filename: string, matches: GlobMatcher): (r: Maybe<string>)
    ensures fs.Exists(filename) ==> r == Present(filename)
    ensures r.Absent? <==> !fs.Exists(filename) && !HasGlobMatch(fs, filename, matches)
    ensures !fs.Exists(filename) && r.Present? ==>
      exists k :: && IsNewestMatch(ParentListing(fs, filename).value, NameOf(filename), matches, k)
                  && r.value == AbsolutePath(fs.cwd, Resolve(ParentOf(filename).value,
                                                          ParentListing(fs, filename).value[k].name))
  {
    if fs.Exists(filename) then Present(filename)
    else match ParentListing(fs, filename)
      case Absent => Absent
      case Present(listing) =>
        match NewestMatch(listing, NameOf(filename), matches)
        case Absent => Absent
        case Present(k) => Present(AbsolutePath(fs.cwd, Resolve(ParentOf(filename).value, listing[k].name)))
  }

  /** Whenever the written version returns, the corrected one returns the same. */
  lemma CorrectedAgreesWhenNoFault(fs: FileSystem, filename: string, matches: GlobMatcher)
    requires FindMatchingFileAsWritten(fs, filename, matches).Ok?
    ensures FindMatchingFile(fs, filename, matches) == FindMatchingFileAsWritten(fs, filename, matches).value
  {
  }

  /** Where the written version throws, the corrected one finds nothing. */
  lemma CorrectedAbsentWhenFault(fs: FileSystem, filename: string, matches: GlobMatcher)
    requires FindMatchingFileAsWritten(fs, filename, matches).Thrown?
    ensures FindMatchingFile(fs, filename, matches) == Absent
  {
  }

  /** An existing exact path is returned unchanged, whatever the directory listings say. */
  lemma ExactPathIgnoresListings(fs1: FileSystem, fs2: FileSystem, filename: string, matches: GlobMatcher)
    requires fs1.Exists(filename) && fs2.Exists(filename)
    ensures FindMatchingFile(fs1, filename, matches) == FindMatchingFile(fs2, filename, matches) == Present(filename)
  {
  }

  /** A bare file name that does not exist: the written version dereferences the null
      parent directory. */
  lemma BareNameThrows(fs: FileSystem, matches: GlobMatcher)
    requires !fs.Exists("brooklyn.war")
    ensures FindMatchingFileAsWritten(fs, "brooklyn.war", matches) == Thrown(NullPointer)
    ensures FindMatchingFile(fs, "brooklyn.war", matches) == Absent
  {
    assert SEPARATOR !in "brooklyn.war";
  }

  /** The example of `ParentIsFileThrows`: one regular file in the working directory. */
  const README_ONLY: FileSystem := FileSystem("/work", {"README.md"}, map[], {})

  /** A path under a regular file: the parent exists, its listing is null, and the
      written version dereferences it. */
  lemma ParentIsFileThrows(matches: GlobMatcher)
    ensures README_ONLY.Valid()
    ensures FindMatchingFileAsWritten(README_ONLY, "README.md/x.war", matches) == Thrown(NullPointer)
    ensures FindMatchingFile(README_ONLY, "README.md/x.war", matches) == Absent
  {
    SplitJoin("README.md", "x.war");
    assert Resolve("README.md", "x.war") == "README.md/x.war";
  }

  /** `findFirstMatchingFile` over the corrected locator: the result for the earliest
      pattern that finds something. */
  function FindFirstMatchingFile(fs: FileSystem, filenames: seq<string>, matches: GlobMatcher)
    : (r: Maybe<string>)
    ensures r.Absent? <==>
      forall i :: 0 <= i < |filenames| ==> FindMatchingFile(fs, filenames[i], matches).Absent?
    ensures r.Present? ==>
      exists i :: && 0 <= i < |filenames|
                  && r == FindMatchingFile(fs, filenames[i], matches)
                  && forall j :: 0 <= j < i ==> FindMatchingFile(fs, filenames[j], matches).Absent?
  {
    if |filenames| == 0 then Absent
    else
      var found := FindMatchingFile(fs, filenames[0], matches);
      if found.Present? then found
      else
        var rest := FindFirstMatchingFile(fs, filenames[1..], matches);
        assert forall i :: 1 <= i < |filenames| ==> filenames[i] == filenames[1..][i - 1];
        rest
  }

  /** The first pattern that finds something decides the result. */
  lemma FindFirstIsEarliest(fs: FileSystem, filenames: seq<string>, matches: GlobMatcher, i: int)
    requires 0 <= i < |filenames|
    requires FindMatchingFile(fs, filenames[i], matches).Present?
    requires forall j :: 0 <= j < i ==> FindMatchingFile(fs, filenames[j], matches).Absent?
    ensures FindFirstMatchingFile(fs, filenames, matches) == FindMatchingFile(fs, filenames[i], matches)
  {
  }

  /** `findFirstMatchingFile` as written: the patterns are tried in order, and an
      exception from one of them ends the search. */
  function FindFirstMatchingFileAsWritten(fs: FileSystem, filenames: seq<string>, matches: GlobMatcher)
    : (r: Result<Maybe<string>>)
    ensures r == Ok(Absent) <==>
      forall i :: 0 <= i < |filenames| ==> FindMatchingFileAsWritten(fs, filenames[i], matches) == Ok(Absent)
    ensures r != Ok(Absent) ==>
      exists i :: && 0 <= i < |filenames|
                  && r == FindMatchingFileAsWritten(fs, filenames[i], matches)
                  && forall j :: 0 <= j < i ==> FindMatchingFileAsWritten(fs, filenames[j], matches) == Ok(Absent)
  {
    if |filenames| == 0 then Ok(Absent)
    else
      var first := FindMatchingFileAsWritten(fs, filenames[0], matches);
      if first != Ok(Absent) then first
      else
        var rest := FindFirstMatchingFileAsWritten(fs, filenames[1..], matches);
        assert forall i :: 1 <= i < |filenames| ==> filenames[i] == filenames[1..][i - 1];
        rest
  }

  /** When no pattern makes the written locator throw, the written search and the
      corrected one give the same result. */
  lemma {:induction false} FindFirstAgreesWhenNoFault(fs: FileSystem, filenames: seq<string>, matches: GlobMatcher)
    requires forall i :: 0 <= i < |filenames| ==> FindMatchingFileAsWritten(fs, filenames[i], matches).Ok?
    ensures FindFirstMatchingFileAsWritten(fs, filenames, matches) == Ok(FindFirstMatchingFile(fs, filenames, matches))
  {
    if |filenames| > 0 {
      CorrectedAgreesWhenNoFault(fs, filenames[0], matches);
      if FindMatchingFileAsWritten(fs, filenames[0], matches) == Ok(Absent) {
        assert forall i :: 0 <= i < |filenames[1..]| ==> filenames[1..][i] == filenames[i + 1];
        FindFirstAgreesWhenNoFault(fs, filenames[1..], matches);
      }
    }
  }

  /** The example of `BareNameAbortsSearch`: a directory `t` holding one archive. */
  const ARCHIVE_IN_T: FileSystem := FileSystem("/w", {"t/a.war"}, map["t" := [Entry("a.war", 1)]], {})

  /** The example is a consistent snapshot. */
  lemma ArchiveInTValid()
    ensures ARCHIVE_IN_T.Valid()
  {
    assert Resolve("t", "a.war") == "t/a.war";
  }

  /** The corrected search finds the archive through the second pattern. */
  lemma SecondPatternFindsArchive(matches: GlobMatcher)
    requires matches("*.war", "a.war")
    ensures FindMatchingFile(ARCHIVE_IN_T, "t/*.war", matches) == Present("/w/t/a.war")
  {
    var fs, pattern := ARCHIVE_IN_T, "t/*.war";
    SplitJoin("t", "*.war");
    assert Resolve("t", "*.war") == pattern;
    assert pattern != "t/a.war" by { assert pattern[2] != "t/a.war"[2]; }
    assert !fs.Exists(pattern);
    assert ParentListing(fs, pattern) == Present([Entry("a.war", 1)]);
    assert NewestMatch(fs.dirs["t"], "*.war", matches) == Present(0);
    assert Resolve("t", "a.war") == "t/a.war";
    assert AbsolutePath("/w", "t/a.war") == "/w/t/a.war";
  }

  /** The two patterns of `BareNameAbortsSearch`: a missing bare name, then a glob in `t`. */
  const BARE_THEN_GLOB: seq<string> := ["brooklyn.war", "t/*.war"]

  /** The written search stops at the exception of its first pattern. */
  lemma AsWrittenSearchThrows(matches: GlobMatcher)
    ensures FindFirstMatchingFileAsWritten(ARCHIVE_IN_T, BARE_THEN_GLOB, matches) == Thrown(NullPointer)
  {
    BareNameThrows(ARCHIVE_IN_T, matches);
    assert BARE_THEN_GLOB[0] == "brooklyn.war";
  }

  /** The corrected search skips the first pattern and finds the archive with the second. */
  lemma CorrectedSearchFindsArchive(matches: GlobMatcher)
    requires matches("*.war", "a.war")
    ensures FindFirstMatchingFile(ARCHIVE_IN_T, BARE_THEN_GLOB, matches) == Present("/w/t/a.war")
  {
    BareNameThrows(ARCHIVE_IN_T, matches);
    SecondPatternFindsArchive(matches);
    SecondOfTwo(ARCHIVE_IN_T, "brooklyn.war", "t/*.war", matches);
  }

  /** With two patterns of which the first finds nothing, the second decides. */
  lemma SecondOfTwo(fs: FileSystem, first: string, second: string, matches: GlobMatcher)
    requires FindMatchingFile(fs, first, matches).Absent?
    ensures FindFirstMatchingFile(fs, [first, second], matches) == FindMatchingFile(fs, second, matches)
  {
    assert [first, second][1..] == [second];
  }

  /** A missing bare name before a pattern that would match: the written search throws
      at the first pattern and never reaches the second, while the corrected search
      finds the archive. */
  lemma BareNameAbortsSearch(matches: GlobMatcher)
    requires matches("*.war", "a.war")
    ensures FindFirstMatchingFileAsWritten(ARCHIVE_IN_T, BARE_THEN_GLOB, matches) == Thrown(NullPointer)
    ensures FindFirstMatchingFile(ARCHIVE_IN_T, BARE_THEN_GLOB, matches) == Present("/w/t/a.war")
  {
    AsWrittenSearchThrows(matches);
    CorrectedSearchFindsArchive(matches);
  }
}
