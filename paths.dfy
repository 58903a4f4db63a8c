/**
 * POSIX paths as the search sees them: the segments below the filesystem
 * root "/", with the string operations the search applies to them
 * (`Array.prototype.join` and `String.prototype.split` on the separator).
 */
module Paths {

  /** A path below the root "/", as its segments; the root itself is []. */
  type Path = seq<string>

  /** `path.sep` on POSIX. */
  const Sep: char := '/'

  /** `path.parse(p).root` of an absolute POSIX path. */
  const Root: string := [Sep]

  /** A normalised path: every segment is non-empty and holds no separator. */
  predicate Normalized(p: Path) {
    forall i :: 0 <= i < |p| ==> p[i] != "" && Sep !in p[i]
  }

  /** `parts.join(path.sep)`. */
  function Join(parts: seq<string>): string
    decreases |parts|
  {
    if |parts| == 0 then ""
    else if |parts| == 1 then parts[0]
    else Join(parts[..|parts| - 1]) + [Sep] + parts[|parts| - 1]
  }

  /** The number of separators in a string. */
  function SepCount(s: string): nat
    decreases |s|
  {
    if |s| == 0 then 0
    else SepCount(s[..|s| - 1]) + (if s[|s| - 1] == Sep then 1 else 0)
  }

  /** `s.split(path.sep)`: one piece more than there are separators, none holding one. */
  function Split(s: string): (r: seq<string>)
    ensures |r| == SepCount(s) + 1
    ensures forall i :: 0 <= i < |r| ==> Sep !in r[i]
    decreases |s|
  {
    if |s| == 0 then [""]
    else
      var init := Split(s[..|s| - 1]);
      if s[|s| - 1] == Sep then init + [""]
      else init[..|init| - 1] + [init[|init| - 1] + [s[|s| - 1]]]
  }

  /** The absolute path string of a segment path: "/" followed by the joined segments. */
  function FullPath(p: Path): string {
    Root + Join(p)
  }

  /** The directory that `path.join` names for some segments: empty segments vanish. */
  function Clean(parts: seq<string>): (r: Path)
    ensures forall i :: 0 <= i < |r| ==> r[i] != ""
    ensures |r| <= |parts|
    decreases |parts|
  {
    if |parts| == 0 then []
    else if parts[|parts| - 1] == "" then Clean(parts[..|parts| - 1])
    else Clean(parts[..|parts| - 1]) + [parts[|parts| - 1]]
  }

  /** `path.dirname` on a segment path; the root is its own parent. */
  function Dirname(p: Path): Path {
    if p == [] then [] else p[..|p| - 1]
  }

  /** `path.resolve(p, '../..')` with `n` levels: each `..` drops a segment, stopping at the root. */
  function Climb(p: Path, n: nat): (r: Path)
    ensures r <= p
    ensures |r| == if |p| <= n then 0 else |p| - n
  {
    if |p| <= n then [] else p[..|p| - n]
  }

  /** Splitting a joined string gives back the string: the pieces keep every character. */
  lemma {:induction false} JoinSplit(s: string)
    ensures Join(Split(s)) == s
    decreases |s|
  {
    if |s| > 0 {
      var s' := s[..|s| - 1];
      var c := s[|s| - 1];
      var init := Split(s');
      JoinSplit(s');
      assert s == s' + [c];
      if c == Sep {
        var r := init + [""];
        assert r[..|r| - 1] == init;
        assert Join(r) == Join(init) + [Sep] + "";
      } else {
        var r := init[..|init| - 1] + [init[|init| - 1] + [c]];
        if |init| == 1 {
          assert Join(init) == init[0];
        } else {
          assert r[..|r| - 1] == init[..|init| - 1];
          assert Join(init) == Join(init[..|init| - 1]) + [Sep] + init[|init| - 1];
          assert Join(r) == Join(init[..|init| - 1]) + [Sep] + (init[|init| - 1] + [c]);
        }
      }
    }
  }

  /** A string without separators splits into itself. */
  lemma {:induction false} SplitSingle(w: string)
    requires Sep !in w
    ensures Split(w) == [w]
    decreases |w|
  {
    if |w| > 0 {
      SplitSingle(w[..|w| - 1]);
      assert w[..|w| - 1] + [w[|w| - 1]] == w;
    }
  }

  /** Appending a separator and a separator-free word appends one piece. */
  lemma {:induction false} SplitAppend(x: string, w: string)
    requires Sep !in w
    ensures Split(x + [Sep] + w) == Split(x) + [w]
    decreases |w|
  {
    var s := x + [Sep] + w;
    if |w| == 0 {
      assert s[..|s| - 1] == x;
    } else {
      var w' := w[..|w| - 1];
      SplitAppend(x, w');
      assert s[..|s| - 1] == x + [Sep] + w';
      assert w' + [w[|w| - 1]] == w;
    }
  }

  /** Joining separator-free segments and splitting again gives the segments back. */
  lemma {:induction false} SplitJoin(parts: seq<string>)
    requires |parts| >= 1
    requires forall i :: 0 <= i < |parts| ==> Sep !in parts[i]
    ensures Split(Join(parts)) == parts
    decreases |parts|
  {
    if |parts| == 1 {
      SplitSingle(parts[0]);
    } else {
      var init := parts[..|parts| - 1];
      SplitJoin(init);
      SplitAppend(Join(init), parts[|parts| - 1]);
      assert init + [parts[|parts| - 1]] == parts;
    }
  }

  /** A path without empty segments is its own clean form. */
  lemma {:induction false} CleanNoEmpty(parts: seq<string>)
    requires forall i :: 0 <= i < |parts| ==> parts[i] != ""
    ensures Clean(parts) == parts
    decreases |parts|
  {
    if |parts| > 0 {
      CleanNoEmpty(parts[..|parts| - 1]);
      assert parts[..|parts| - 1] + [parts[|parts| - 1]] == parts;
    }
  }

  /**
   * What `currentFullPath.substring(root.length).split(path.sep)` gives for a
   * normalised path: its own segments, except that the root gives the one
   * empty piece `[""]`.
   */
  lemma SegmentsAfterRoot(p: Path)
    requires Normalized(p)
    ensures Split(FullPath(p)[|Root|..]) == if p == [] then [""] else p
  {
    assert FullPath(p)[|Root|..] == Join(p);
    if p != [] {
      SplitJoin(p);
    }
  }

  /** Joining a path with more segments behind it puts one separator between the two. */
  lemma {:induction false} JoinAppend(a: seq<string>, b: seq<string>)
    requires |a| >= 1 && |b| >= 1
    ensures Join(a + b) == Join(a) + [Sep] + Join(b)
    decreases |b|
  {
    var ab := a + b;
    if |b| == 1 {
      assert ab[..|ab| - 1] == a;
    } else {
      var b' := b[..|b| - 1];
      JoinAppend(a, b');
      assert ab[..|ab| - 1] == a + b';
      assert ab[|ab| - 1] == b[|b| - 1];
    }
  }

  /** Moving the root in front of a separator-joined pair of strings. */
  lemma RootBeforeJoined(a: string, b: string, j: string)
    requires j == a + [Sep] + b
    ensures Root + j == (Root + a + [Sep]) + b
  {
  }

  /** The full path of a longer path is the shorter one's, a separator, and the added segments. */
  lemma FullPathAppend(a: Path, b: seq<string>)
    requires |a| >= 1 && |b| >= 1
    ensures FullPath(a + b) == (FullPath(a) + [Sep]) + Join(b)
  {
    JoinAppend(a, b);
    RootBeforeJoined(Join(a), Join(b), Join(a + b));
  }

  /** A single segment names itself, unless it is empty. */
  lemma CleanSingle(s: string)
    ensures Clean([s]) == if s == "" then [] else [s]
  {
    assert [s][..0] == [];
  }

  /**
   * Cleaning works segment by segment: the clean form of two lists of parts
   * put together is their clean forms put together. With `CleanSingle` this
   * says that `Clean` keeps exactly the non-empty parts, in order.
   */
  lemma {:induction false} CleanAppend(a: seq<string>, b: seq<string>)
    ensures Clean(a + b) == Clean(a) + Clean(b)
    decreases |b|
  {
    if |b| > 0 {
      var b' := b[..|b| - 1];
      CleanAppend(a, b');
      var ab := a + b;
      assert ab[..|ab| - 1] == a + b';
      assert ab[|ab| - 1] == b[|b| - 1];
    } else {
      assert a + b == a;
    }
  }
}
