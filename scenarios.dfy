/**
 * Worked cases of the configuration lookup, for the directory
 * /home/u/app/src.
 */
module Scenarios {
  import opened Wrappers
  import opened Paths
  import opened ConfigPath
  import opened Config

  const AppDir: Path := ["home", "u", "app"]
  const SrcDir: Path := ["home", "u", "app", "src"]

  /**
   * `rn-cli.config.js` in /home/u/app exporting only `getPlatforms`: `find`
   * from /home/u/app/src reports /home/u/app as the project and a
   * configuration whose `getPlatforms` gives ['ios'] and whose other fields
   * are the defaults.
   */
  lemma OverridePlatformsExample(host: Host)
    requires host.files == {AppDir + [RnCliConfig]}
    requires host.load(AppDir + [RnCliConfig]) == Success(map["getPlatforms" := Thunk(List(["ios"]))])
    ensures FindWithPath(SrcDir, host).Success?
    ensures FindWithPath(SrcDir, host).value.projectPath == AppDir
    ensures var c := FindWithPath(SrcDir, host).value.config;
      && c.Keys == DefaultFieldNames
      && c["getPlatforms"] == Thunk(List(["ios"]))
      && forall k :: k in DefaultFieldNames && k != "getPlatforms" ==> c[k] == Defaults(host)[k]
  {
    assert Normalized(SrcDir);
    FindParentDirectoryNearest(SrcDir, RnCliConfig, host.files);
    assert SrcDir[..3] == AppDir;
    var r := FindParentDirectory(SrcDir, RnCliConfig, host.files);
    assert r.Some?;
    assert r.value == AppDir;
  }

  /**
   * No `rn-cli.config.js` anywhere: `findOptional` gives the defaults and
   * `find` fails with a message naming the file and /home/u/app/src.
   */
  lemma NoConfigExample(host: Host)
    requires host.files == {}
    ensures FindOptional(SrcDir, host) == Success(Defaults(host))
    ensures Find(SrcDir, host).Failure? && Find(SrcDir, host).error.Invariant?
    ensures IsInfix(RnCliConfig, Find(SrcDir, host).error.message)
    ensures IsInfix("/home/u/app/src", Find(SrcDir, host).error.message)
  {
    FindParentDirectoryNearest(SrcDir, RnCliConfig, host.files);
    NotFoundOutcomes(SrcDir, host);
    SrcDirString();
  }

  /** The string of the start directory. */
  lemma SrcDirString()
    ensures FullPath(SrcDir) == "/home/u/app/src"
  {
    assert SrcDir[..2] == ["home", "u"];
    assert SrcDir[..3] == AppDir;
    assert Join(["home", "u"]) == "home/u";
    assert Join(AppDir) == "home/u/app";
  }

  /** A config file directly under "/" is not found from /home/u/app/src. */
  lemma RootFileIgnoredExample(files: set<Path>)
    requires files == {[RnCliConfig]}
    ensures FindConfigPath(SrcDir, files) == None
  {
    FindParentDirectoryNearest(SrcDir, RnCliConfig, files);
  }

  /** Started at "/" itself, the search does find the file directly under it. */
  lemma RootFileFoundFromRoot(files: set<Path>)
    requires files == {[RnCliConfig]}
    ensures FindConfigPath([], files) == Some([RnCliConfig])
  {
    RootOnlyFromRoot([], RnCliConfig, files);
    assert [] + [RnCliConfig] == [RnCliConfig];
  }
}
