/**
 * The ancestor search for `rn-cli.config.js` (`findParentDirectory` and
 * `findConfigPath` in local-cli/util/Config.js). `files` stands for the
 * filesystem: the set of paths for which `fs.existsSync` is true.
 */
module ConfigPath {
  import opened Wrappers
  import opened Paths

  /** The one file name the search looks for. */
  const RnCliConfig: string := "rn-cli.config.js"

  /** `fs.existsSync(path.join(dir, filename))`. */
  predicate HasFile(files: set<Path>, dir: Path, filename: string) {
    dir + [filename] in files
  }

  /**
   * `testDir`: tests the directory named by `parts`, then the one named by
   * `parts` without its last segment, and so on; the empty list stops the
   * search with no result and without a test.
   */
  function TestDir(parts: seq<string>, filename: string, files: set<Path>): (r: Option<Path>)
    ensures r.Some? ==> HasFile(files, r.value, filename)
    ensures r.Some? ==> |r.value| <= |parts|
    decreases |parts|
  {
    if |parts| == 0 then None
    else
      var fullPath := Clean(parts);
      if HasFile(files, fullPath, filename) then Some(fullPath)
      else TestDir(parts[..|parts| - 1], filename, files)
  }

  /** `findParentDirectory(currentFullPath, filename)` for the absolute path `FullPath(current)`. */
  function FindParentDirectory(current: Path, filename: string, files: set<Path>): Option<Path> {
    TestDir(Split(FullPath(current)[|Root|..]), filename, files)
  }

  /** `findConfigPath(cwd)`: the found directory joined with `rn-cli.config.js`, or nothing. */
  function FindConfigPath(cwd: Path, files: set<Path>): (r: Option<Path>)
    ensures r.Some? <==> FindParentDirectory(cwd, RnCliConfig, files).Some?
    ensures r.Some? ==> r.value in files && |r.value| >= 1 && r.value[|r.value| - 1] == RnCliConfig
    ensures r.Some? ==> Dirname(r.value) == FindParentDirectory(cwd, RnCliConfig, files).value
  {
    match FindParentDirectory(cwd, RnCliConfig, files)
    case None => None
    case Some(parentDir) =>
      var p := parentDir + [RnCliConfig];
      assert Dirname(p) == parentDir;
      Some(p)
  }

  /** The shortest prefix length the search tests: 1, except for the root itself, where it is 0. */
  function LowestTested(start: Path): nat {
    if start == [] then 0 else 1
  }

  /**
   * Over segments without empty pieces, `testDir` yields the longest prefix
   * whose directory has the file, and nothing exactly when no prefix of
   * length 1 or more has it.
   */
  lemma {:induction false} TestDirDeepest(parts: seq<string>, filename: string, files: set<Path>)
    requires forall i :: 0 <= i < |parts| ==> parts[i] != ""
    ensures var r := TestDir(parts, filename, files);
      r.Some? ==> 1 <= |r.value| <= |parts| && r.value == parts[..|r.value|]
    ensures var r := TestDir(parts, filename, files);
      r.Some? ==> forall k :: |r.value| < k <= |parts| ==> !HasFile(files, parts[..k], filename)
    ensures TestDir(parts, filename, files).None? <==>
      forall k :: 1 <= k <= |parts| ==> !HasFile(files, parts[..k], filename)
    decreases |parts|
  {
    if |parts| > 0 {
      var n := |parts|;
      var init := parts[..n - 1];
      CleanNoEmpty(parts);
      assert parts[..n] == parts;
      if !HasFile(files, parts, filename) {
        TestDirDeepest(init, filename, files);
        assert forall k :: 1 <= k <= n - 1 ==> init[..k] == parts[..k];
      }
    }
  }

  /**
   * Nearest ancestor wins: a result is the start directory or one of its
   * ancestors, it holds the file, and no deeper tested directory does.
   * There is no result exactly when no tested directory holds the file; the
   * tested directories are the start and its ancestors, the bare root only
   * when the start is the root.
   */
  lemma FindParentDirectoryNearest(start: Path, filename: string, files: set<Path>)
    requires Normalized(start)
    ensures var r := FindParentDirectory(start, filename, files);
      r.Some? ==> r.value <= start && LowestTested(start) <= |r.value| && HasFile(files, r.value, filename)
    ensures var r := FindParentDirectory(start, filename, files);
      r.Some? ==> forall k :: |r.value| < k <= |start| ==> !HasFile(files, start[..k], filename)
    ensures FindParentDirectory(start, filename, files).None? <==>
      forall k :: LowestTested(start) <= k <= |start| ==> !HasFile(files, start[..k], filename)
  {
    SegmentsAfterRoot(start);
    if start == [] {
      assert Clean([""]) == [];
      assert start[..0] == [];
    } else {
      TestDirDeepest(start, filename, files);
    }
  }

  /**
   * The bare root is a result only when the search starts at the root:
   * from anywhere else `rn-cli.config.js` directly under "/" is never found.
   */
  lemma RootOnlyFromRoot(start: Path, filename: string, files: set<Path>)
    requires Normalized(start)
    ensures FindParentDirectory(start, filename, files) == Some([]) <==>
      start == [] && HasFile(files, [], filename)
  {
    FindParentDirectoryNearest(start, filename, files);
    if start == [] {
      assert start[..0] == [];
    }
  }

  /** The plain ancestor search: test a directory, then its parent, up to and including the root. */
  function Ascend(dir: Path, filename: string, files: set<Path>): (r: Option<Path>)
    ensures r.Some? ==> r.value <= dir && HasFile(files, r.value, filename)
    decreases |dir|
  {
    if HasFile(files, dir, filename) then Some(dir)
    else if dir == [] then None
    else Ascend(Dirname(dir), filename, files)
  }

  /**
   * `testDir` over the segments of a path is the one-level-at-a-time ascent
   * with the root left out.
   */
  lemma {:induction false} TestDirIsAscent(parts: Path, filename: string, files: set<Path>)
    requires forall i :: 0 <= i < |parts| ==> parts[i] != ""
    ensures TestDir(parts, filename, files) ==
      if Ascend(parts, filename, files) == Some([]) then None else Ascend(parts, filename, files)
    decreases |parts|
  {
    if |parts| > 0 {
      CleanNoEmpty(parts);
      TestDirIsAscent(parts[..|parts| - 1], filename, files);
    }
  }

  /**
   * The source's search agrees with the ascent from the start directory,
   * except that a file directly under the root is found only when the start
   * is the root.
   */
  lemma FindParentDirectoryIsAscent(start: Path, filename: string, files: set<Path>)
    requires Normalized(start)
    ensures FindParentDirectory(start, filename, files) ==
      if start != [] && Ascend(start, filename, files) == Some([]) then None
      else Ascend(start, filename, files)
  {
    SegmentsAfterRoot(start);
    if start == [] {
      assert Clean([""]) == [];
    } else {
      TestDirIsAscent(start, filename, files);
    }
  }
}
