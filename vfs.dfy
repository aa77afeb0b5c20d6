/** The part of the operating system the extractor and the copier use:
    `os.MkdirAll`, `os.OpenFile(p, O_CREATE|O_RDWR, mode)`, `os.Create`,
    `os.Open` and writes through an open file. The filesystem is a map from
    clean absolute paths to nodes; there are no symbolic links, since the
    extractor never creates one. */
module Vfs {
  import opened Errors
  import opened Paths

  newtype byte = x: int | 0 <= x < 256

  datatype Node = Dir(mode: nat) | File(mode: nat, data: seq<byte>)

  type FS = map<Path, Node>

  /** The fixed mode `0o750` of every directory the core creates. */
  const DirMode: nat := 488
  /** The mode `0o666` that `os.Create` gives a new file. */
  const CreateMode: nat := 438

  datatype FsResult = Done(fs: FS) | Fail(code: IoError)

  /** A tree: the root is a directory and every other node sits in one. */
  ghost predicate WellFormed(fs: FS) {
    && [] in fs && fs[[]].Dir?
    && forall p :: p in fs && p != [] ==> Parent(p) in fs && fs[Parent(p)].Dir?
  }

  /** Every node that exists on the way from the root to p (p included) is a
      directory. */
  ghost predicate DirsAlong(fs: FS, p: Path) {
    forall q :: q <= p && q in fs ==> fs[q].Dir?
  }

  /** Some node on the way to p (p included) is a regular file. */
  function HasFileOn(fs: FS, p: Path): bool
    decreases |p|
  {
    (p in fs && fs[p].File?) || (p != [] && HasFileOn(fs, Parent(p)))
  }

  /** The error of a path walk that does not reach p: ENOTDIR when a file
      is in the way, otherwise ENOENT. */
  function LookupError(fs: FS, p: Path): IoError
  {
    if HasFileOn(fs, p) then NotDir else NotExist
  }

  /** `os.MkdirAll(p, perm)`: succeed when p is a directory, fail when it is
      a file, otherwise create the parent first and then p. */
  function AfterMkdirAll(fs: FS, p: Path, perm: nat): FsResult
    decreases |p|
  {
    if p in fs then (if fs[p].Dir? then Done(fs) else Fail(NotDir))
    else if p == [] then Done(fs[[] := Dir(perm)])
    else
      match AfterMkdirAll(fs, Parent(p), perm)
      case Fail(e) => Fail(e)
      case Done(fs1) => Done(fs1[p := Dir(perm)])
  }

  /** `os.MkdirAll(name, perm)` on a path string as the caller wrote it:
      the empty name fails with ENOENT, as `Stat("")` and `Mkdir("")` do;
      any other name is resolved lexically from the root. */
  function AfterMkdirAllName(fs: FS, name: string, perm: nat): FsResult
  {
    if name == "" then Fail(NotExist) else AfterMkdirAll(fs, ToPath(name), perm)
  }

  /** `os.OpenFile(p, os.O_CREATE|os.O_RDWR, perm)`: an existing file is
      opened as it is (no truncation, its mode kept); a missing one is
      created empty with perm inside an existing directory. */
  function AfterOpenFile(fs: FS, p: Path, perm: nat): (r: FsResult)
    ensures WellFormed(fs) && r.Done? ==> WellFormed(r.fs)
    ensures r.Done? ==> p in r.fs && r.fs[p].File?
    ensures r.Done? && p in fs ==> r.fs == fs
    ensures r.Done? && p !in fs ==> r.fs == fs[p := File(perm, [])]
    ensures r.Fail? ==> (p in fs && fs[p].Dir? && r.code == IsDir) || p !in fs
    ensures p in fs ==> (r.Done? <==> fs[p].File?)
    ensures p !in fs && Parent(p) in fs && fs[Parent(p)].Dir? ==> r.Done?
    ensures r.Fail? && p !in fs ==> r.code == LookupError(fs, Parent(p))
  {
    if p in fs then (if fs[p].Dir? then Fail(IsDir) else Done(fs))
    else if Parent(p) in fs && fs[Parent(p)].Dir? then Done(fs[p := File(perm, [])])
    else Fail(LookupError(fs, Parent(p)))
  }

  /** `os.Create(p)`: like OpenFile with O_TRUNC, new files get 0o666. */
  function AfterCreate(fs: FS, p: Path): (r: FsResult)
    ensures WellFormed(fs) && r.Done? ==> WellFormed(r.fs)
    ensures r.Done? ==> p in r.fs && r.fs[p].File? && r.fs[p].data == []
    ensures r.Done? ==> r.fs.Keys == fs.Keys + {p}
    ensures r.Done? ==> forall q :: q in fs && q != p ==> r.fs[q] == fs[q]
  {
    if p in fs then
      (if fs[p].Dir? then Fail(IsDir) else Done(fs[p := File(fs[p].mode, [])]))
    else if Parent(p) in fs && fs[Parent(p)].Dir? then Done(fs[p := File(CreateMode, [])])
    else Fail(LookupError(fs, Parent(p)))
  }

  /** `os.Open(p)` for reading: the error of the path walk, if any. A
      directory can be opened; reading it fails later. */
  function OpenError(fs: FS, p: Path): (r: Option<IoError>)
    ensures r.None? <==> p in fs
  {
    if p in fs then None else Some(LookupError(fs, p))
  }

  /** Writing w at offset 0 of a file holding prev: the first |w| bytes are
      replaced, the rest of prev stays. */
  function Overwrite(prev: seq<byte>, w: seq<byte>): (r: seq<byte>)
    ensures |r| == if |w| < |prev| then |prev| else |w|
    ensures r[..|w|] == w
    ensures r[|w|..] == if |w| < |prev| then prev[|w|..] else []
  {
    if |w| < |prev| then w + prev[|w|..] else w
  }

  /** Writing w from the start of the open file p. */
  function AfterWrite(fs: FS, p: Path, w: seq<byte>): (r: FS)
    requires p in fs && fs[p].File?
    ensures WellFormed(fs) ==> WellFormed(r)
    ensures r.Keys == fs.Keys
    ensures r[p] == File(fs[p].mode, Overwrite(fs[p].data, w))
    ensures forall q :: q in fs && q != p ==> r[q] == fs[q]
  {
    fs[p := File(fs[p].mode, Overwrite(fs[p].data, w))]
  }

  // ---------------------------------------------------------------------
  // Lemmas about MkdirAll

  lemma ProperPrefixOfParent(q: Path, p: Path)
    requires q <= p && q != p
    ensures p != [] && q <= Parent(p)
  {
    assert |q| < |p|;
    assert q == p[..|q|];
    assert Parent(p)[..|q|] == p[..|q|];
  }

  /** In a tree, all ancestors of an existing node are directories. */
  lemma {:induction false} AncestorsAreDirs(fs: FS, p: Path)
    requires WellFormed(fs) && p in fs
    ensures forall q :: q <= p && q != p ==> q in fs && fs[q].Dir?
    decreases |p|
  {
    if p != [] {
      AncestorsAreDirs(fs, Parent(p));
      forall q | q <= p && q != p
        ensures q in fs && fs[q].Dir?
      {
        ProperPrefixOfParent(q, p);
      }
    }
  }

  /** MkdirAll fails only with ENOTDIR; on success p is a directory, no
      existing node changes, and the new nodes are directories with perm on
      the way to p. */
  lemma {:induction false} MkdirAllFrame(fs: FS, p: Path, perm: nat)
    ensures var r := AfterMkdirAll(fs, p, perm);
      && (r.Fail? ==> r.code == NotDir)
      && (r.Done? ==> p in r.fs && r.fs[p].Dir?)
      && (r.Done? ==> forall q :: q in fs ==> q in r.fs && r.fs[q] == fs[q])
      && (r.Done? ==> forall q :: q in r.fs && q !in fs ==> q <= p && r.fs[q] == Dir(perm))
    decreases |p|
  {
    if p !in fs && p != [] {
      MkdirAllFrame(fs, Parent(p), perm);
    }
  }

  /** In a tree, MkdirAll succeeds exactly when no file lies on the way to p,
      and it leaves a tree. */
  lemma {:induction false} MkdirAllSucceeds(fs: FS, p: Path, perm: nat)
    requires WellFormed(fs)
    ensures var r := AfterMkdirAll(fs, p, perm);
      && (r.Done? <==> DirsAlong(fs, p))
      && (r.Done? ==> WellFormed(r.fs))
    decreases |p|
  {
    if p in fs {
      AncestorsAreDirs(fs, p);
    } else {
      assert p != [];
      MkdirAllSucceeds(fs, Parent(p), perm);
      MkdirAllFrame(fs, Parent(p), perm);
      assert DirsAlong(fs, p) <==> DirsAlong(fs, Parent(p)) by {
        forall q | q <= p && q != p && q in fs ensures q <= Parent(p) { ProperPrefixOfParent(q, p); }
      }
    }
  }

  /** The error a path walk reports agrees with the tree: ENOTDIR exactly
      when an existing node on the way is a file. */
  lemma {:induction false} LookupErrorIsNotDir(fs: FS, p: Path)
    ensures LookupError(fs, p) == NotDir <==> !DirsAlong(fs, p)
    decreases |p|
  {
    if p != [] {
      LookupErrorIsNotDir(fs, Parent(p));
      forall q | q <= p && q != p && q in fs ensures q <= Parent(p) { ProperPrefixOfParent(q, p); }
    }
  }

  /** In a tree, MkdirAll of a path string succeeds exactly when the name
      is not empty and no file lies on the way; it fails with ENOENT for
      the empty name and with ENOTDIR otherwise, changing nothing, and on
      success leaves a tree. */
  lemma MkdirAllNameSucceeds(fs: FS, name: string, perm: nat)
    requires WellFormed(fs)
    ensures var r := AfterMkdirAllName(fs, name, perm);
      && (r.Done? <==> name != "" && DirsAlong(fs, ToPath(name)))
      && (r.Done? ==> WellFormed(r.fs))
      && (r.Fail? ==> r.code == if name == "" then NotExist else NotDir)
  {
    if name != "" {
      MkdirAllSucceeds(fs, ToPath(name), perm);
      MkdirAllFrame(fs, ToPath(name), perm);
    }
  }

  /** The filesystem as a mutable object: each method is one system call
      and changes `nodes` exactly as the function of the same name says. */
  class FileSystem {
    var nodes: FS

    ghost predicate Valid()
      reads this
    {
      WellFormed(nodes)
    }

    /** An empty filesystem: the root directory only. */
    constructor ()
      ensures Valid() && nodes == map[[] := Dir(DirMode)]
    {
      nodes := map[[] := Dir(DirMode)];
    }

    method MkdirAll(p: Path, perm: nat) returns (err: Option<IoError>)
      requires Valid()
      modifies this
      ensures Valid()
      ensures match AfterMkdirAll(old(nodes), p, perm)
        case Done(fs) => err == None && nodes == fs
        case Fail(e) => err == Some(e) && nodes == old(nodes)
    {
      MkdirAllSucceeds(nodes, p, perm);
      match AfterMkdirAll(nodes, p, perm)
      case Done(fs) => nodes := fs; err := None;
      case Fail(e) => err := Some(e);
    }

    method MkdirAllName(name: string, perm: nat) returns (err: Option<IoError>)
      requires Valid()
      modifies this
      ensures Valid()
      ensures match AfterMkdirAllName(old(nodes), name, perm)
        case Done(fs) => err == None && nodes == fs
        case Fail(e) => err == Some(e) && nodes == old(nodes)
    {
      if name == "" {
        return Some(NotExist);
      }
      err := MkdirAll(ToPath(name), perm);
    }

    method OpenFile(p: Path, perm: nat) returns (err: Option<IoError>)
      requires Valid()
      modifies this
      ensures Valid()
      ensures match AfterOpenFile(old(nodes), p, perm)
        case Done(fs) => err == None && nodes == fs
        case Fail(e) => err == Some(e) && nodes == old(nodes)
    {
      match AfterOpenFile(nodes, p, perm)
      case Done(fs) => nodes := fs; err := None;
      case Fail(e) => err := Some(e);
    }

    method Create(p: Path) returns (err: Option<IoError>)
      requires Valid()
      modifies this
      ensures Valid()
      ensures match AfterCreate(old(nodes), p)
        case Done(fs) => err == None && nodes == fs
        case Fail(e) => err == Some(e) && nodes == old(nodes)
    {
      match AfterCreate(nodes, p)
      case Done(fs) => nodes := fs; err := None;
      case Fail(e) => err := Some(e);
    }

    /** A write of w from offset 0 through a handle opened on file p. */
    method Write(p: Path, w: seq<byte>)
      requires Valid() && p in nodes && nodes[p].File?
      modifies this
      ensures Valid()
      ensures nodes == AfterWrite(old(nodes), p, w)
    {
      nodes := AfterWrite(nodes, p, w);
    }
  }
}
