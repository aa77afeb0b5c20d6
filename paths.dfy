/** String and path helpers of internal/helm: `strings.SplitN(name, "/", 2)`,
    `strings.Split(url, "/")`, and the lexical part of
    `securejoin.SecureJoin(root, unsafePath)`, which resolves `unsafePath` as
    if `root` were the filesystem root. A filesystem path is a sequence of
    segments; the root directory is `[]`. */
module Paths {
  import opened Errors

  type Path = seq<string>

  /** A segment that names a directory entry: not empty, not `.` or `..`,
      and free of separators. */
  predicate IsName(x: string) {
    x != "" && x != "." && x != ".." && '/' !in x
  }

  /** A path made of names only, as `filepath.Clean` leaves an absolute path. */
  predicate IsClean(p: Path) {
    forall i :: 0 <= i < |p| ==> IsName(p[i])
  }

  predicate NoSeparators(segs: seq<string>) {
    forall i :: 0 <= i < |segs| ==> '/' !in segs[i]
  }

  /** The directory holding `p` (`filepath.Dir`); the root is its own parent. */
  function Parent(p: Path): (r: Path)
    ensures r <= p
    ensures p != [] ==> |r| == |p| - 1
  {
    if p == [] then [] else p[..|p| - 1]
  }

  /** `strings.SplitN(s, "/", 2)`: None when s has no separator (one part),
      otherwise the text before the first `/` and everything after it. */
  function SplitFirst(s: string): (r: Option<(string, string)>)
    ensures r.None? <==> '/' !in s
    ensures r.Some? ==> '/' !in r.value.0 && s == r.value.0 + "/" + r.value.1
  {
    if s == [] then None
    else if s[0] == '/' then Some(([], s[1..]))
    else
      match SplitFirst(s[1..])
      case None => None
      case Some(parts) =>
        assert s == [s[0]] + s[1..];
        Some(([s[0]] + parts.0, parts.1))
  }

  /** `strings.Join(segs, "/")`. */
  function Join(segs: seq<string>): string
  {
    if segs == [] then ""
    else if |segs| == 1 then segs[0]
    else segs[0] + "/" + Join(segs[1..])
  }

  /** `strings.Split(s, "/")`: the separator-free pieces of s, at least one,
      that `Join` puts back together into s. */
  function Split(s: string): (r: seq<string>)
    ensures |r| >= 1
    ensures NoSeparators(r)
    ensures Join(r) == s
    decreases |s|
  {
    match SplitFirst(s)
    case None => [s]
    case Some(parts) => [parts.0] + Split(parts.1)
  }

  /** `cURL[len(cURL)-1]` for `cURL := strings.Split(url, "/")`: the text after
      the last separator, or all of url when it has none. */
  function LastSegment(url: string): (r: string)
    ensures '/' !in r
    ensures |r| <= |url| && url[|url| - |r|..] == r
    ensures |r| < |url| ==> url[|url| - |r| - 1] == '/'
  {
    var segs := Split(url);
    JoinEndsWithLast(segs);
    segs[|segs| - 1]
  }

  /** One segment of lexical resolution: `.` and empty segments are dropped,
      `..` removes the last name but never goes above the start, and a name
      is appended. */
  function Step(acc: Path, seg: string): Path
  {
    if seg == "" || seg == "." then acc
    else if seg == ".." then Parent(acc)
    else acc + [seg]
  }

  function Fold(acc: Path, segs: seq<string>): Path
    decreases |segs|
  {
    if segs == [] then acc else Fold(Step(acc, segs[0]), segs[1..])
  }

  /** The lexical clamp: resolve segs from the root, where `..` at the root
      stays at the root. */
  function Normalize(segs: seq<string>): (r: Path)
    ensures NoSeparators(segs) ==> IsClean(r)
    ensures |r| <= |segs|
  {
    FoldBounds([], segs);
    Fold([], segs)
  }

  /** The segment path a string names once cleaned and resolved from `/`. */
  function ToPath(s: string): (r: Path)
    ensures IsClean(r)
  {
    Normalize(Split(s))
  }

  /** `securejoin.SecureJoin(root, unsafe)` without symbolic links: unsafe is
      resolved as if root were the filesystem root, so the result is root
      followed by names only. */
  function SecureJoin(root: Path, unsafe: string): (r: Path)
    ensures root <= r
    ensures IsClean(root) ==> IsClean(r)
    ensures IsClean(r[|root|..])
  {
    var tail := Normalize(Split(unsafe));
    assert (root + tail)[|root|..] == tail;
    root + tail
  }

  // ---------------------------------------------------------------------
  // Lemmas about splitting

  lemma {:induction false} JoinEndsWithLast(segs: seq<string>)
    requires |segs| >= 1
    ensures var s := Join(segs); var l := segs[|segs| - 1];
      |l| <= |s| && s[|s| - |l|..] == l &&
      (|l| < |s| ==> s[|s| - |l| - 1] == '/')
  {
    if |segs| > 1 {
      JoinEndsWithLast(segs[1..]);
      var rest := Join(segs[1..]);
      assert Join(segs) == segs[0] + "/" + rest;
      assert segs[|segs| - 1] == segs[1..][|segs[1..]| - 1];
    }
  }

  /** The first separator of `a + "/" + b` is the one after a, when a has none. */
  lemma {:induction false} SplitFirstAt(a: string, b: string)
    requires '/' !in a
    ensures SplitFirst(a + "/" + b) == Some((a, b))
  {
    var s := a + "/" + b;
    if a == [] {
      assert s[0] == '/' && s[1..] == b;
    } else {
      assert s[0] == a[0] && s[1..] == a[1..] + "/" + b;
      SplitFirstAt(a[1..], b);
      assert [a[0]] + a[1..] == a;
    }
  }

  /** Splitting undoes joining separator-free segments. */
  lemma {:induction false} SplitJoin(segs: seq<string>)
    requires |segs| >= 1 && NoSeparators(segs)
    ensures Split(Join(segs)) == segs
  {
    if |segs| == 1 {
      assert Join(segs) == segs[0];
    } else {
      SplitFirstAt(segs[0], Join(segs[1..]));
      SplitJoin(segs[1..]);
      assert segs == [segs[0]] + segs[1..];
    }
  }

  /** Splitting at a first separator: the piece before it, then the pieces
      of the rest. */
  lemma SplitAt(a: string, b: string)
    requires '/' !in a
    ensures Split(a + "/" + b) == [a] + Split(b)
  {
    SplitFirstAt(a, b);
  }

  /** Splitting `a + "/" + b` splits a and b separately. */
  lemma {:induction false} SplitConcat(a: string, b: string)
    ensures Split(a + "/" + b) == Split(a) + Split(b)
    decreases |a|
  {
    match SplitFirst(a)
    case None =>
      SplitAt(a, b);
    case Some(parts) =>
      var a0, a1 := parts.0, parts.1;
      var rest := a1 + "/" + b;
      assert a + "/" + b == a0 + "/" + rest;
      SplitAt(a0, rest);
      SplitConcat(a1, b);
  }

  // ---------------------------------------------------------------------
  // Lemmas about lexical resolution

  lemma {:induction false} FoldBounds(acc: Path, segs: seq<string>)
    ensures |Fold(acc, segs)| <= |acc| + |segs|
    ensures IsClean(acc) && NoSeparators(segs) ==> IsClean(Fold(acc, segs))
    decreases |segs|
  {
    if segs != [] {
      FoldBounds(Step(acc, segs[0]), segs[1..]);
    }
  }

  lemma {:induction false} FoldAppend(acc: Path, a: seq<string>, b: seq<string>)
    ensures Fold(acc, a + b) == Fold(Fold(acc, a), b)
    decreases |a|
  {
    if a != [] {
      assert (a + b)[0] == a[0] && (a + b)[1..] == a[1..] + b;
      FoldAppend(Step(acc, a[0]), a[1..], b);
    } else {
      assert a + b == b;
    }
  }

  /** Names are appended unchanged. */
  lemma {:induction false} FoldClean(acc: Path, p: Path)
    requires IsClean(p)
    ensures Fold(acc, p) == acc + p
    decreases |p|
  {
    if p != [] {
      FoldClean(acc + [p[0]], p[1..]);
      assert acc + [p[0]] + p[1..] == acc + p;
    }
  }

  /** A clean path is its own normal form, so Normalize is idempotent. */
  lemma NormalizeClean(p: Path)
    requires IsClean(p)
    ensures Normalize(p) == p
  {
    FoldClean([], p);
  }

  lemma NormalizeIdempotent(segs: seq<string>)
    requires NoSeparators(segs)
    ensures Normalize(Normalize(segs)) == Normalize(segs)
  {
    NormalizeClean(Normalize(segs));
  }

  /** Without `..`, resolving after a prefix is resolving alone and
      appending: the clamp plays no part. */
  lemma {:induction false} FoldWithoutParent(acc: Path, segs: seq<string>)
    requires forall i :: 0 <= i < |segs| ==> segs[i] != ".."
    ensures Fold(acc, segs) == acc + Fold([], segs)
    decreases |segs|
  {
    if segs != [] {
      FoldWithoutParent(Step(acc, segs[0]), segs[1..]);
      FoldWithoutParent(Step([], segs[0]), segs[1..]);
      assert Step(acc, segs[0]) == acc + Step([], segs[0]);
    }
  }

  /** A leading `..` of the untrusted path is absorbed at root: it cannot
      leave root. */
  lemma SecureJoinClampsParent(root: Path, unsafe: string)
    ensures SecureJoin(root, "../" + unsafe) == SecureJoin(root, unsafe)
  {
    assert "../" + unsafe == ".." + "/" + unsafe;
    SplitConcat("..", unsafe);
    assert Split("..") == [".."];
    calc {
      Normalize(Split("../" + unsafe));
      Fold([], [".."] + Split(unsafe));
      { assert ([".."] + Split(unsafe))[1..] == Split(unsafe); }
      Fold([], Split(unsafe));
    }
  }

  /** An ordinary relative path (names joined by `/`) lands at root/path. */
  lemma SecureJoinNames(root: Path, names: Path)
    requires |names| >= 1 && IsClean(names)
    ensures SecureJoin(root, Join(names)) == root + names
  {
    SplitJoin(names);
    NormalizeClean(names);
  }

  /** When the untrusted path has no `..` segment, SecureJoin agrees with
      the plain lexical join `filepath.Join(root, unsafe)`; it differs only
      where `..` would climb above root. */
  lemma SecureJoinIsPlainJoinWithoutParent(root: Path, unsafe: string)
    requires IsClean(root)
    requires forall i :: 0 <= i < |Split(unsafe)| ==> Split(unsafe)[i] != ".."
    ensures SecureJoin(root, unsafe) == Normalize(root + Split(unsafe))
  {
    var segs := Split(unsafe);
    FoldAppend([], root, segs);
    FoldClean([], root);
    assert [] + root == root;
    FoldWithoutParent(root, segs);
  }
}
