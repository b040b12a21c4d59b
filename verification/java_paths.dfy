/** The parts of `java.io.File` that the file locator relies on, for Unix paths
    that are already in `File`'s normal form. */
module JavaPaths {
  import opened Outcomes

  const SEPARATOR: char := '/'
  const ROOT: string := "/"

  /** Index of the last separator in `p`, or -1 when `p` has none. */
  function LastSeparator(p: string): (i: int)
    ensures -1 <= i < |p|
    ensures 0 <= i ==> p[i] == SEPARATOR
    ensures forall k :: i < k < |p| ==> p[k] != SEPARATOR
  {
    if |p| == 0 then -1
    else if p[|p| - 1] == SEPARATOR then |p| - 1
    else LastSeparator(p[..|p| - 1])
  }

  /** Length of the root prefix: 1 for an absolute path, 0 for a relative one. */
  function PrefixLength(p: string): nat {
    if 0 < |p| && p[0] == SEPARATOR then 1 else 0
  }

  predicate IsAbsolute(p: string) {
    PrefixLength(p) == 1
  }

  /** `File`'s normal form: no doubled separator and no trailing one except for the root. */
  predicate Normalized(p: string) {
    && (forall k :: 0 < k < |p| && p[k] == SEPARATOR ==> p[k - 1] != SEPARATOR)
    && (1 < |p| ==> p[|p| - 1] != SEPARATOR)
  }

  /** `File.getParent`: the path before the last separator, the root for an entry
      directly under the root, and null (`Absent`) for a bare name or the root itself. */
  function ParentOf(p: string): (r: Maybe<string>)
    ensures r.Absent? <==> SEPARATOR !in p || p == ROOT
    ensures r.Present? ==> |r.value| < |p| && r.value == p[..|r.value|]
  {
    var i := LastSeparator(p);
    if i < PrefixLength(p) then
      if 0 < PrefixLength(p) < |p| then Present(p[..PrefixLength(p)]) else Absent
    else
      Present(p[..i])
  }

  /** `File.getName`: the path after the last separator. */
  function NameOf(p: string): (r: string)
    ensures SEPARATOR !in r
    ensures |r| <= |p| && r == p[|p| - |r|..]
    ensures |r| < |p| ==> p[|p| - |r| - 1] == SEPARATOR
  {
    p[LastSeparator(p) + 1..]
  }

  /** `UnixFileSystem.resolve` for a relative child: the path of `child` inside `parent`. */
  function Resolve(parent: string, child: string): string {
    if child == "" then parent
    else if parent == ROOT then parent + child
    else parent + [SEPARATOR] + child
  }

  /** `File.getAbsolutePath`: an absolute path is kept, a relative one is resolved
      against the working directory `cwd`. */
  function AbsolutePath(cwd: string, p: string): (r: string)
    ensures IsAbsolute(p) ==> r == p
    ensures IsAbsolute(cwd) ==> IsAbsolute(r)
    ensures !IsAbsolute(p) ==>
      && |cwd| <= |r| && |p| <= |r|
      && r[..|cwd|] == cwd
      && r[|r| - |p|..] == p
    ensures !IsAbsolute(p) && p != "" && cwd != ROOT ==>
      |r| == |cwd| + 1 + |p| && r[|cwd|] == SEPARATOR
    ensures !IsAbsolute(p) && (p == "" || cwd == ROOT) ==> |r| == |cwd| + |p|
  {
    if IsAbsolute(p) then p else Resolve(cwd, p)
  }

  /** In `a + [SEPARATOR] + n` with no separator in `n`, the last separator is the one after `a`. */
  lemma LastSeparatorOfJoin(a: string, n: string)
    requires SEPARATOR !in n
    ensures LastSeparator(a + [SEPARATOR] + n) == |a|
  {
    var p := a + [SEPARATOR] + n;
    var i := LastSeparator(p);
    assert p[|a|] == SEPARATOR;
  }

  /** Splitting a joined path gives back its parts: the parent and the name. */
  lemma SplitJoin(dir: string, name: string)
    requires 0 < |dir| && 0 < |name| && SEPARATOR !in name
    ensures ParentOf(Resolve(dir, name)) == Present(dir)
    ensures NameOf(Resolve(dir, name)) == name
  {
    if dir == ROOT {
      var p := Resolve(dir, name);
      assert p == [] + [SEPARATOR] + name;
      LastSeparatorOfJoin([], name);
      assert p[1..] == name;
    } else {
      var p := Resolve(dir, name);
      assert p == dir + [SEPARATOR] + name;
      LastSeparatorOfJoin(dir, name);
      assert p[..|dir|] == dir;
      assert p[|dir| + 1..] == name;
    }
  }

  /** Joining the parent and name of a normalised path gives the path back. */
  lemma JoinSplit(p: string)
    requires Normalized(p) && ParentOf(p).Present?
    ensures 0 < |NameOf(p)|
    ensures Resolve(ParentOf(p).value, NameOf(p)) == p
  {
    var i := LastSeparator(p);
    if i < PrefixLength(p) {
      assert p == [p[0]] + p[1..];
    } else {
      assert i < |p| - 1;
      assert p == p[..i] + [SEPARATOR] + p[i + 1..];
    }
  }
}
