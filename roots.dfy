/**
 * The project roots of the default configuration: `resolveSymlinksForRoots`,
 * `getProjectPath` and the default `getProjectRoots` of
 * local-cli/util/Config.js.
 */
module Roots {
  import opened Wrappers
  import opened Paths

  /** `findSymlinkedModules(root, roots)`: the linked package directories found under `root`. */
  type Finder = (string, seq<string>) -> seq<string>

  /**
   * The `reduce` step by step: append what `find` reports for each root of
   * `rest`, in order, always giving `find` the full original list `roots`.
   */
  function Reduce(acc: seq<string>, rest: seq<string>, roots: seq<string>, find: Finder): (r: seq<string>)
    ensures acc <= r
    decreases |rest|
  {
    if rest == [] then acc
    else Reduce(acc + find(rest[0], roots), rest[1..], roots, find)
  }

  /** `resolveSymlinksForRoots(roots)`: reduce with `concat`, starting from a copy of `roots`. */
  function ResolveSymlinksForRoots(roots: seq<string>, find: Finder): seq<string> {
    Reduce(roots, roots, roots, find)
  }

  /** The discovered directories of `rs`, one root's list after the other. */
  function Discovered(rs: seq<string>, roots: seq<string>, find: Finder): seq<string>
    decreases |rs|
  {
    if rs == [] then [] else find(rs[0], roots) + Discovered(rs[1..], roots, find)
  }

  /** The total number of directories `find` reports for the roots `rs`. */
  function DiscoveredCount(rs: seq<string>, roots: seq<string>, find: Finder): nat
    decreases |rs|
  {
    if rs == [] then 0 else |find(rs[0], roots)| + DiscoveredCount(rs[1..], roots, find)
  }

  /** The fold appends the concatenation of every remaining root's discoveries. */
  lemma {:induction false} ReduceIsConcat(acc: seq<string>, rest: seq<string>, roots: seq<string>, find: Finder)
    ensures Reduce(acc, rest, roots, find) == acc + Discovered(rest, roots, find)
    decreases |rest|
  {
    if rest != [] {
      ReduceIsConcat(acc + find(rest[0], roots), rest[1..], roots, find);
    }
  }

  /** The concatenated discoveries are as long as the lists they are made of. */
  lemma {:induction false} DiscoveredLength(rs: seq<string>, roots: seq<string>, find: Finder)
    ensures |Discovered(rs, roots, find)| == DiscoveredCount(rs, roots, find)
    decreases |rs|
  {
    if rs != [] {
      DiscoveredLength(rs[1..], roots, find);
    }
  }

  /** Every directory reported for one of `rs` is in their concatenation. */
  lemma {:induction false} DiscoveredContains(rs: seq<string>, roots: seq<string>, find: Finder, i: nat, j: nat)
    requires i < |rs| && j < |find(rs[i], roots)|
    ensures find(rs[i], roots)[j] in Discovered(rs, roots, find)
    decreases |rs|
  {
    if i > 0 {
      DiscoveredContains(rs[1..], roots, find, i - 1, j);
    } else {
      assert Discovered(rs, roots, find)[j] == find(rs[0], roots)[j];
    }
  }

  /**
   * Root expansion is all original roots first, then every root's discovered
   * directories in root order: the originals come back in order, nothing is
   * removed, every discovery is kept, nothing else is added, and an empty
   * list stays empty.
   */
  lemma ResolveSymlinksShape(roots: seq<string>, find: Finder)
    ensures ResolveSymlinksForRoots(roots, find) == roots + Discovered(roots, roots, find)
    ensures ResolveSymlinksForRoots(roots, find)[..|roots|] == roots
    ensures |ResolveSymlinksForRoots(roots, find)| == |roots| + DiscoveredCount(roots, roots, find)
    ensures roots == [] ==> ResolveSymlinksForRoots(roots, find) == []
    ensures forall i, j :: 0 <= i < |roots| && 0 <= j < |find(roots[i], roots)| ==>
      find(roots[i], roots)[j] in ResolveSymlinksForRoots(roots, find)
  {
    ReduceIsConcat(roots, roots, roots, find);
    DiscoveredLength(roots, roots, find);
    forall i, j | 0 <= i < |roots| && 0 <= j < |find(roots[i], roots)|
      ensures find(roots[i], roots)[j] in ResolveSymlinksForRoots(roots, find)
    {
      DiscoveredContains(roots, roots, find, i, j);
    }
  }

  /** How the tool was installed, as `getProjectPath` tells from its own directory. */
  datatype Layout =
    | NestedDependency   // under node_modules/react-native/local-cli/util, as `react-native init` sets up
    | CocoaPods          // under Pods/React/packager
    | Checkout           // anywhere else, such as a development checkout

  const NodeModulesSuffix: seq<string> := ["node_modules", "react-native", "local-cli", "util"]
  const PodsSuffix: seq<string> := ["Pods", "React", "packager"]

  /** Either separator the source's patterns accept, `[\/\\]`. */
  predicate IsSepChar(c: char) {
    c == '/' || c == '\\'
  }

  /**
   * `s.match(/w0[\/\\]w1[\/\\]...wn$/)`: the words, with one separator of
   * either kind between each two, end `s`. The pattern is not anchored at the
   * start, so the first word may be the tail of a longer segment.
   */
  predicate MatchesAtEnd(s: string, words: seq<string>)
    decreases |words|
  {
    if |words| == 0 then true
    else
      var w := words[|words| - 1];
      && |s| >= |w|
      && s[|s| - |w|..] == w
      && (|words| == 1 ||
          (|s| > |w| && IsSepChar(s[|s| - |w| - 1]) && MatchesAtEnd(s[..|s| - |w| - 1], words[..|words| - 1])))
  }

  /** The layout `getProjectPath` picks for the directory it runs from. */
  function InstallLayout(dirname: Path): Layout {
    if MatchesAtEnd(FullPath(dirname), NodeModulesSuffix) then NestedDependency
    else if MatchesAtEnd(FullPath(dirname), PodsSuffix) then CocoaPods
    else Checkout
  }

  /** How many levels above its own directory each layout puts the project. */
  function LevelsUp(layout: Layout): nat {
    match layout
    case NestedDependency => 4
    case CocoaPods => 4
    case Checkout => 2
  }

  /** `getProjectPath()`, for `__dirname` given as `dirname`. */
  function ProjectPath(dirname: Path): string {
    FullPath(Climb(dirname, LevelsUp(InstallLayout(dirname))))
  }

  /** Any string that ends with joined words matches them. */
  lemma {:induction false} MatchesJoined(x: string, ws: seq<string>)
    requires |ws| >= 1
    ensures MatchesAtEnd(x + Join(ws), ws)
    decreases |ws|
  {
    var s := x + Join(ws);
    var w := ws[|ws| - 1];
    if |ws| > 1 {
      var init := ws[..|ws| - 1];
      MatchesJoined(x, init);
      assert s == (x + Join(init)) + [Sep] + w;
      assert s[..|s| - |w| - 1] == x + Join(init);
    }
    assert s[|s| - |w|..] == w;
  }

  /** The string that precedes the join of `ws` in the full path of `prefix + ws`. */
  function Lead(prefix: Path): string {
    if prefix == [] then Root else FullPath(prefix) + [Sep]
  }

  /** The full path of a directory ending in some segments is a string ending in their join. */
  lemma FullPathEndsWithJoin(prefix: Path, ws: seq<string>)
    requires |ws| >= 1
    ensures FullPath(prefix + ws) == Lead(prefix) + Join(ws)
  {
    if prefix == [] {
      assert prefix + ws == ws;
    } else {
      FullPathAppend(prefix, ws);
    }
  }

  /** A directory ending in the given segments matches the pattern made of them. */
  lemma SegmentsMatch(prefix: Path, ws: seq<string>)
    requires |ws| >= 1
    ensures MatchesAtEnd(FullPath(prefix + ws), ws)
  {
    FullPathEndsWithJoin(prefix, ws);
    MatchesJoined(Lead(prefix), ws);
  }

  /** Installed as a dependency, the project is the directory that holds `node_modules`. */
  lemma NestedDependencyProjectPath(prefix: Path)
    ensures InstallLayout(prefix + NodeModulesSuffix) == NestedDependency
    ensures ProjectPath(prefix + NodeModulesSuffix) == FullPath(prefix)
  {
    SegmentsMatch(prefix, NodeModulesSuffix);
    var d := prefix + NodeModulesSuffix;
    assert d[..|d| - 4] == prefix;
  }

  /** A string ending in the joined CocoaPods segments ends in "ager", so not in "util". */
  lemma PodsNotNodeModules(x: string)
    ensures !MatchesAtEnd(x + Join(PodsSuffix), NodeModulesSuffix)
  {
    var j := Join(PodsSuffix[..2]);
    assert Join(PodsSuffix) == j + [Sep] + "packager";
    var s := (x + j + [Sep]) + "packager";
    assert x + Join(PodsSuffix) == s;
    assert s[|s| - 4..] == "ager";
  }

  /** Climbing four levels from a directory ending in the CocoaPods segments. */
  lemma ClimbFromPods(prefix: Path)
    ensures Climb(prefix + PodsSuffix, 4) == Dirname(prefix)
  {
    var d := prefix + PodsSuffix;
    if prefix != [] {
      assert d[..|d| - 4] == Dirname(prefix);
    }
  }

  /** Installed through CocoaPods, the project is one level above the directory that holds `Pods`. */
  lemma CocoaPodsProjectPath(prefix: Path)
    ensures InstallLayout(prefix + PodsSuffix) == CocoaPods
    ensures ProjectPath(prefix + PodsSuffix) == FullPath(Dirname(prefix))
  {
    SegmentsMatch(prefix, PodsSuffix);
    FullPathEndsWithJoin(prefix, PodsSuffix);
    PodsNotNodeModules(Lead(prefix));
    ClimbFromPods(prefix);
  }

  /** Outside both layouts the project is two levels above the tool's directory. */
  lemma CheckoutProjectPath(dirname: Path)
    requires !MatchesAtEnd(FullPath(dirname), NodeModulesSuffix)
    requires !MatchesAtEnd(FullPath(dirname), PodsSuffix)
    ensures InstallLayout(dirname) == Checkout
    ensures ProjectPath(dirname) == FullPath(Climb(dirname, 2))
  {
  }

  /**
   * The seed root of the default `getProjectRoots`: the resolved
   * `REACT_NATIVE_APP_ROOT` when that is set and non-empty, else
   * `getProjectPath()`.
   */
  function ProjectRootSeed(appRoot: Option<string>, dirname: Path, resolvePath: string -> string): string {
    if appRoot.Some? && appRoot.value != "" then resolvePath(appRoot.value)
    else ProjectPath(dirname)
  }

  /** The default `getProjectRoots()`: the single seed root, expanded by its symlinked modules. */
  function DefaultProjectRoots(appRoot: Option<string>, dirname: Path, resolvePath: string -> string, find: Finder): (r: seq<string>)
    ensures var seed := ProjectRootSeed(appRoot, dirname, resolvePath);
      |r| >= 1 && r[0] == seed && r[1..] == find(seed, [seed])
  {
    var seed := ProjectRootSeed(appRoot, dirname, resolvePath);
    ResolveSymlinksShape([seed], find);
    assert Discovered([seed], [seed], find) == find(seed, [seed]);
    ResolveSymlinksForRoots([seed], find)
  }

  /** A non-empty environment root replaces the computed project path as the first root. */
  lemma EnvironmentRootWins(root: string, dirname: Path, resolvePath: string -> string, find: Finder)
    requires root != ""
    ensures DefaultProjectRoots(Some(root), dirname, resolvePath, find)[0] == resolvePath(root)
  {
  }

  /** An unset or empty environment root leaves the computed project path as the first root. */
  lemma NoEnvironmentRoot(appRoot: Option<string>, dirname: Path, resolvePath: string -> string, find: Finder)
    requires appRoot == None || appRoot == Some("")
    ensures DefaultProjectRoots(appRoot, dirname, resolvePath, find)[0] == ProjectPath(dirname)
  {
  }

  /**
   * The pattern is not anchored at the start: a segment that merely ends in
   * `node_modules` still counts as a dependency install.
   */
  lemma UnanchoredPattern(prefix: Path, lead: string)
    ensures InstallLayout(prefix + ([lead + "node_modules"] + NodeModulesSuffix[1..])) == NestedDependency
  {
    var rest := NodeModulesSuffix[1..];
    assert ["node_modules"] + rest == NodeModulesSuffix;
    var ws := [lead + "node_modules"] + rest;
    FullPathEndsWithJoin(prefix, ws);
    LeadingTextIgnored(lead, "node_modules", rest);
    MatchesJoined(Lead(prefix) + lead, NodeModulesSuffix);
    assert (Lead(prefix) + lead) + Join(NodeModulesSuffix) == Lead(prefix) + (lead + Join(NodeModulesSuffix));
  }

  /** Text in front of the first segment comes out in front of the join. */
  lemma LeadingTextIgnored(lead: string, w: string, rest: seq<string>)
    requires |rest| >= 1
    ensures Join([lead + w] + rest) == lead + Join([w] + rest)
  {
    JoinAppend([lead + w], rest);
    JoinAppend([w], rest);
    assert Join([lead + w]) == lead + w;
    assert Join([w]) == w;
    PrependBeforeJoined(lead, w, Join(rest), Join([lead + w] + rest), Join([w] + rest));
  }

  /** Regrouping text in front of a separator-joined pair. */
  lemma PrependBeforeJoined(lead: string, w: string, j: string, x: string, y: string)
    requires x == (lead + w) + [Sep] + j && y == w + [Sep] + j
    ensures x == lead + y
  {
  }

  /** The directory this file sits in when React Native is installed through CocoaPods. */
  const PodsLocalCliSuffix: seq<string> := ["Pods", "React", "local-cli", "util"]

  /** A string whose last character differs from that of the last word does not match. */
  lemma LastCharMismatch(s: string, words: seq<string>)
    requires |words| >= 1 && |words[|words| - 1]| >= 1 && |s| >= 1
    requires s[|s| - 1] != words[|words| - 1][|words[|words| - 1]| - 1]
    ensures !MatchesAtEnd(s, words)
  {
    var w := words[|words| - 1];
    if |s| >= |w| {
      assert s[|s| - |w|..][|w| - 1] == s[|s| - 1];
    }
  }

  /** Matching words after a separator and the last word means matching the other words before it. */
  lemma MatchesPeel(x: string, words: seq<string>)
    requires |words| >= 2
    requires MatchesAtEnd(x + [Sep] + words[|words| - 1], words)
    ensures MatchesAtEnd(x, words[..|words| - 1])
  {
    var s := x + [Sep] + words[|words| - 1];
    assert s[..|s| - |words[|words| - 1]| - 1] == x;
  }

  /** A string ending in `React/local-cli/util` does not end the dependency pattern. */
  lemma ReactLocalCliNotNodeModules(t: string)
    requires |t| >= 1 && t[|t| - 1] == 't'
    ensures !MatchesAtEnd(t + [Sep] + "local-cli" + [Sep] + "util", NodeModulesSuffix)
  {
    var three := NodeModulesSuffix[..3];
    var two := three[..2];
    assert three == ["node_modules", "react-native", "local-cli"];
    assert two == ["node_modules", "react-native"];
    LastCharMismatch(t, two);
    if MatchesAtEnd(t + [Sep] + "local-cli" + [Sep] + "util", NodeModulesSuffix) {
      MatchesPeel(t + [Sep] + "local-cli", NodeModulesSuffix);
      MatchesPeel(t, three);
      assert false;
    }
  }

  /**
   * Installed through CocoaPods, this file runs from `Pods/React/local-cli/util`,
   * which matches neither pattern: the checkout branch climbs two levels, to
   * `Pods/React`, not to the project.
   */
  lemma CocoaPodsInstallIsCheckout(prefix: Path)
    ensures InstallLayout(prefix + PodsLocalCliSuffix) == Checkout
    ensures ProjectPath(prefix + PodsLocalCliSuffix) == FullPath(prefix + ["Pods", "React"])
  {
    var ws := PodsLocalCliSuffix;
    var d := prefix + ws;
    FullPathEndsWithJoin(prefix, ws);
    var t := Lead(prefix) + Join(ws[..2]);
    assert ws[..2] == ["Pods", "React"];
    assert Join(ws[..2]) == "Pods" + [Sep] + "React";
    assert ws[..3][..2] == ws[..2];
    assert Join(ws[..3]) == Join(ws[..2]) + [Sep] + "local-cli";
    assert Join(ws) == Join(ws[..3]) + [Sep] + "util";
    assert FullPath(d) == t + [Sep] + "local-cli" + [Sep] + "util";
    assert t[|t| - 1] == 't';
    ReactLocalCliNotNodeModules(t);
    LastCharMismatch(FullPath(d), PodsSuffix);
    assert d[..|d| - 2] == prefix + ["Pods", "React"];
  }
}
