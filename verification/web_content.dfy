/** `installWar` and `findJsguiWebappInSource`: which static content the launcher's
    web application serves next to the REST API. */
module WebContent {
  import opened Outcomes
  import opened JavaPaths
  import opened FileLocator

  /** The index page of the generated placeholder directory. */
  const PLACEHOLDER_INDEX_HTML: string := "Brooklyn REST API <p> (gui not available)"

  /** The content handed to `setWar`: the GUI found in source, a temporary copy of
      the bundled archive, or a temporary directory with a placeholder index page. */
  datatype WarSource =
    | JsguiInSource(path: string)
    | BundledWar(copy: string)
    | PlaceholderDir(dir: string, indexHtml: string)

  /** The candidate locations of the GUI, as the source lists them: the web app
      folder and then the built archive, each 2, 3, 1 and 0 levels up. The sixth
      entry lacks the separator after its third `..`. */
  const JSGUI_SEARCH_AS_WRITTEN: seq<string> := [
    "../../brooklyn-ui/src/main/webapp",
    "../../../brooklyn-ui/src/main/webapp",
    "../brooklyn-ui/src/main/webapp",
    "./brooklyn-ui/src/main/webapp",
    "../../brooklyn-ui/target/*.war",
    "../../..brooklyn-ui/target/*.war",
    "../brooklyn-ui/target/*.war",
    "./brooklyn-ui/target/*.war"]

  /** The same list with the archive three levels up spelled as intended. */
  const JSGUI_SEARCH: seq<string> := [
    "../../brooklyn-ui/src/main/webapp",
    "../../../brooklyn-ui/src/main/webapp",
    "../brooklyn-ui/src/main/webapp",
    "./brooklyn-ui/src/main/webapp",
    "../../brooklyn-ui/target/*.war",
    "../../../brooklyn-ui/target/*.war",
    "../brooklyn-ui/target/*.war",
    "./brooklyn-ui/target/*.war"]

  /** In the written search the archive three levels up is not the archive two levels
      up with one more `../`. */
  lemma AsWrittenSkipsArchiveThreeUp()
    ensures JSGUI_SEARCH_AS_WRITTEN[5] != "../" + JSGUI_SEARCH_AS_WRITTEN[4]
  {
    assert ("../" + JSGUI_SEARCH_AS_WRITTEN[4])[8] == '/';
  }

  /** The intended search changes only that entry. */
  lemma SearchChangesOnlyThreeUpArchive()
    ensures |JSGUI_SEARCH| == |JSGUI_SEARCH_AS_WRITTEN|
    ensures JSGUI_SEARCH[..5] == JSGUI_SEARCH_AS_WRITTEN[..5]
    ensures JSGUI_SEARCH[6..] == JSGUI_SEARCH_AS_WRITTEN[6..]
  {
  }

  /** In the intended search the archive three levels up is the one two levels up with
      one more `../`, just as the web app folder three levels up is (entries 1 and 0). */
  lemma SearchCoversThreeUp()
    ensures JSGUI_SEARCH[5] == "../" + JSGUI_SEARCH[4]
  {
    var archive2, archive3 := JSGUI_SEARCH[4], JSGUI_SEARCH[5];
    assert |archive3| == 3 + |archive2|;
    assert archive3[..3] == "../";
    assert archive3[3..] == archive2;
  }

  /** `findJsguiWebappInSource` as written: the written search list, with the written
      locator's exceptions. */
  function FindJsguiWebappInSourceAsWritten(fs: FileSystem, matches: GlobMatcher): (r: Result<Maybe<string>>)
    ensures r == Ok(Absent) <==>
      forall i :: 0 <= i < |JSGUI_SEARCH_AS_WRITTEN| ==>
        FindMatchingFileAsWritten(fs, JSGUI_SEARCH_AS_WRITTEN[i], matches) == Ok(Absent)
  {
    FindFirstMatchingFileAsWritten(fs, JSGUI_SEARCH_AS_WRITTEN, matches)
  }

  /** `findJsguiWebappInSource` over the intended search list and the corrected locator. */
  function FindJsguiWebappInSource(fs: FileSystem, matches: GlobMatcher): (r: Maybe<string>)
    ensures r.Absent? <==>
      forall i :: 0 <= i < |JSGUI_SEARCH| ==> FindMatchingFile(fs, JSGUI_SEARCH[i], matches).Absent?
  {
    FindFirstMatchingFile(fs, JSGUI_SEARCH, matches)
  }

  /** The example checkout of `ArchiveThreeUpMissedAsWritten`: the GUI was built
      three levels above the working directory, and nothing else is there. */
  const THREE_UP_DIR: string := "../../../brooklyn-ui/target"
  const THREE_UP_ARCHIVE: string := "../../../brooklyn-ui/target/brooklyn-ui.war"
  const THREE_UP_CHECKOUT: FileSystem :=
    FileSystem("/home/dev/a/b/c", {THREE_UP_ARCHIVE}, map[THREE_UP_DIR := [Entry("brooklyn-ui.war", 1)]], {})

  /** The example checkout is a consistent snapshot. */
  lemma ThreeUpCheckoutValid()
    ensures THREE_UP_CHECKOUT.Valid()
  {
    assert Resolve(THREE_UP_DIR, "brooklyn-ui.war") == THREE_UP_ARCHIVE;
  }

  /** A pattern whose directory does not exist (and that does not exist itself) finds nothing. */
  lemma MissingDirFindsNothing(fs: FileSystem, pattern: string, dir: string, name: string, matches: GlobMatcher)
    requires 0 < |dir| && 0 < |name| && SEPARATOR !in name && pattern == Resolve(dir, name)
    requires !fs.Exists(pattern) && dir !in fs.dirs
    ensures FindMatchingFile(fs, pattern, matches) == Absent
    ensures !fs.Exists(dir) ==> FindMatchingFileAsWritten(fs, pattern, matches) == Ok(Absent)
  {
    SplitJoin(dir, name);
  }

  /** A glob in an existing, listable directory finds the newest matching entry. */
  lemma ListedDirFindsNewest(fs: FileSystem, dir: string, glob: string, matches: GlobMatcher, k: nat)
    requires 0 < |dir| && 0 < |glob| && SEPARATOR !in glob
    requires !fs.Exists(Resolve(dir, glob)) && dir in fs.dirs
    requires NewestMatch(fs.dirs[dir], glob, matches) == Present(k)
    ensures FindMatchingFile(fs, Resolve(dir, glob), matches)
            == Present(AbsolutePath(fs.cwd, Resolve(dir, fs.dirs[dir][k].name)))
  {
    SplitJoin(dir, glob);
  }

  /** A pattern of the example checkout whose directory is not the one that exists:
      shorter than the archive's path, so neither it nor its directory exists. */
  lemma MissingFromCheckout(pattern: string, dir: string, name: string, matches: GlobMatcher)
    requires 0 < |dir| && 0 < |name| && SEPARATOR !in name && pattern == Resolve(dir, name)
    requires |dir| != |THREE_UP_DIR| && |pattern| < |THREE_UP_ARCHIVE| && pattern != THREE_UP_DIR
    ensures FindMatchingFileAsWritten(THREE_UP_CHECKOUT, pattern, matches) == Ok(Absent)
  {
    assert |dir| < |pattern|;
    MissingDirFindsNothing(THREE_UP_CHECKOUT, pattern, dir, name, matches);
  }

  /** In the example checkout no pattern of the written search finds anything. */
  lemma AsWrittenPatternFindsNothing(i: int, matches: GlobMatcher)
    requires 0 <= i < |JSGUI_SEARCH_AS_WRITTEN|
    ensures FindMatchingFileAsWritten(THREE_UP_CHECKOUT, JSGUI_SEARCH_AS_WRITTEN[i], matches) == Ok(Absent)
  {
    var p := JSGUI_SEARCH_AS_WRITTEN;
    if i == 0 { MissingFromCheckout(p[0], "../../brooklyn-ui/src/main", "webapp", matches); }
    else if i == 1 { MissingFromCheckout(p[1], "../../../brooklyn-ui/src/main", "webapp", matches); }
    else if i == 2 { MissingFromCheckout(p[2], "../brooklyn-ui/src/main", "webapp", matches); }
    else if i == 3 { MissingFromCheckout(p[3], "./brooklyn-ui/src/main", "webapp", matches); }
    else if i == 4 { MissingFromCheckout(p[4], "../../brooklyn-ui/target", "*.war", matches); }
    else if i == 5 { MissingFromCheckout(p[5], "../../..brooklyn-ui/target", "*.war", matches); }
    else if i == 6 {
      assert p[6][3] != THREE_UP_DIR[3];
      MissingFromCheckout(p[6], "../brooklyn-ui/target", "*.war", matches);
    }
    else { MissingFromCheckout(p[7], "./brooklyn-ui/target", "*.war", matches); }
  }

  /** In the example checkout the intended search finds the archive through its sixth
      pattern, the first five finding nothing. */
  lemma IntendedFindsArchiveThreeUp(matches: GlobMatcher)
    requires matches("*.war", "brooklyn-ui.war")
    ensures FindJsguiWebappInSource(THREE_UP_CHECKOUT, matches)
            == Present(AbsolutePath(THREE_UP_CHECKOUT.cwd, Resolve(THREE_UP_DIR, "brooklyn-ui.war")))
  {
    var fs, p := THREE_UP_CHECKOUT, JSGUI_SEARCH;
    forall i | 0 <= i < 5
      ensures FindMatchingFile(fs, p[i], matches).Absent?
    {
      AsWrittenPatternFindsNothing(i, matches);
      CorrectedAgreesWhenNoFault(fs, p[i], matches);
    }
    var dir := THREE_UP_DIR;
    assert p[5] == Resolve(dir, "*.war");
    assert NewestMatch(fs.dirs[dir], "*.war", matches) == Present(0);
    ListedDirFindsNewest(fs, dir, "*.war", matches, 0);
    FindFirstIsEarliest(fs, p, matches, 5);
  }

  /** A checkout whose GUI archive sits three levels up: the search as written finds
      nothing (and throws nowhere), the intended search finds the archive. */
  lemma ArchiveThreeUpMissedAsWritten(matches: GlobMatcher)
    requires matches("*.war", "brooklyn-ui.war")
    ensures FindJsguiWebappInSourceAsWritten(THREE_UP_CHECKOUT, matches) == Ok(Absent)
    ensures FindJsguiWebappInSource(THREE_UP_CHECKOUT, matches).Present?
  {
    forall i | 0 <= i < |JSGUI_SEARCH_AS_WRITTEN|
      ensures FindMatchingFileAsWritten(THREE_UP_CHECKOUT, JSGUI_SEARCH_AS_WRITTEN[i], matches) == Ok(Absent)
    {
      AsWrittenPatternFindsNothing(i, matches);
    }
    IntendedFindsArchiveThreeUp(matches);
  }

  /** `installWar`: the GUI found in source when it is wanted and found, else a copy of
      the bundled archive when the classpath has one, else a placeholder directory.
      The temporary paths the I/O would create are given. */
  function ChooseWar(deployJsgui: bool, jsguiInSource: Maybe<string>, bundledWarExists: bool,
                     tempWarFile: string, tempDir: string): (r: WarSource)
    ensures r.JsguiInSource? <==> deployJsgui && jsguiInSource.Present?
    ensures r.JsguiInSource? ==> r.path == jsguiInSource.value
    ensures r.BundledWar? <==> !(deployJsgui && jsguiInSource.Present?) && bundledWarExists
    ensures r.BundledWar? ==> r.copy == tempWarFile
    ensures r.PlaceholderDir? ==> r.dir == tempDir && r.indexHtml == PLACEHOLDER_INDEX_HTML
  {
    if deployJsgui && jsguiInSource.Present? then JsguiInSource(jsguiInSource.value)
    else if bundledWarExists then BundledWar(tempWarFile)
    else PlaceholderDir(tempDir, PLACEHOLDER_INDEX_HTML)
  }

  /** The first available candidate in order of preference, else the fallback. */
  function FirstAvailable(candidates: seq<Maybe<WarSource>>, fallback: WarSource): WarSource {
    if |candidates| == 0 then fallback
    else if candidates[0].Present? then candidates[0].value
    else FirstAvailable(candidates[1..], fallback)
  }

  /** `installWar` is a three-level precedence list with the placeholder as the fallback. */
  lemma ChooseWarIsPrecedence(deployJsgui: bool, jsguiInSource: Maybe<string>, bundledWarExists: bool,
                              tempWarFile: string, tempDir: string)
    ensures ChooseWar(deployJsgui, jsguiInSource, bundledWarExists, tempWarFile, tempDir)
      == FirstAvailable(
           [ if deployJsgui && jsguiInSource.Present? then Present(JsguiInSource(jsguiInSource.value)) else Absent,
             if bundledWarExists then Present(BundledWar(tempWarFile)) else Absent ],
           PlaceholderDir(tempDir, PLACEHOLDER_INDEX_HTML))
  {
    var source := if deployJsgui && jsguiInSource.Present? then Present(JsguiInSource(jsguiInSource.value)) else Absent;
    var bundled := if bundledWarExists then Present(BundledWar(tempWarFile)) else Absent;
    var candidates := [source, bundled];
    assert candidates[1..] == [bundled];
    assert candidates[1..][1..] == [];
    var fallback := PlaceholderDir(tempDir, PLACEHOLDER_INDEX_HTML);
    assert FirstAvailable([bundled], fallback) == if bundled.Present? then bundled.value else fallback by {
      assert FirstAvailable([], fallback) == fallback;
    }
  }
}
