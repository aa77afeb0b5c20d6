/** What the chart archive lander promises, proved about the specification
    functions of module Archive (and so, through the methods' postconditions,
    about `ExtractTar`, `ExtractTarGz`, `ExtractChartTgz` and `CopyChart`). */
module ArchiveLemmas {
  import opened Errors
  import opened Paths
  import opened Vfs
  import opened Archive

  // ---------------------------------------------------------------------
  // Strip and skip

  /** The first segment of the name is dropped and the rest is securely
      joined onto the destination. */
  lemma StripTopLevel(root: Path, top: string, rest: string)
    requires '/' !in top
    ensures EntryTarget(root, top + "/" + rest) == Some(SecureJoin(root, rest))
  {
    SplitFirstAt(top, rest);
  }

  /** A name with no `/` is skipped, whatever its type. */
  lemma SkipWithoutSeparator(fs: FS, root: Path, h: Header)
    requires '/' !in h.name
    ensures EntryTarget(root, h.name) == None
    ensures EntryStep(fs, root, h) == Next(fs)
  {
  }

  /** An entry such as `chart/` is not skipped: it names the destination
      itself. */
  lemma TopLevelEntryIsRoot(root: Path, top: string)
    requires '/' !in top
    ensures EntryTarget(root, top + "/") == Some(root)
  {
    assert top + "/" == top + "/" + "";
    StripTopLevel(root, top, "");
    assert SplitFirst("") == None;
    assert Split("") == [""];
    assert Fold([], [""]) == Fold(Step([], ""), []) == [];
    assert SecureJoin(root, "") == root + [] == root;
  }

  /** Processing the directory entry `chart/` only makes sure the
      destination exists. */
  lemma TopLevelDirectoryEntry(fs: FS, root: Path, top: string, h: Header)
    requires WellFormed(fs)
    requires '/' !in top && h.name == top + "/" && h.typeflag == TypeDir
    ensures EntryStep(fs, root, h).Next? <==> DirsAlong(fs, root)
    ensures EntryStep(fs, root, h)
         == match AfterMkdirAll(fs, root, DirMode)
            case Done(fs1) => Next(fs1)
            case Fail(_) => Halt(fs, Wrap(CreateDirMsg, Io(NotDir)))
  {
    TopLevelEntryIsRoot(root, top);
    MkdirAllSucceeds(fs, root, DirMode);
    MkdirAllFrame(fs, root, DirMode);
  }

  // ---------------------------------------------------------------------
  // Entry types

  /** A directory entry creates its directory and the missing ancestors,
      all with mode 0o750, and changes nothing else; it fails, changing
      nothing, exactly when a file is in the way. */
  lemma DirectoryEntry(fs: FS, root: Path, h: Header, p: Path)
    requires WellFormed(fs)
    requires h.typeflag == TypeDir && EntryTarget(root, h.name) == Some(p)
    ensures EntryStep(fs, root, h).Next? <==> DirsAlong(fs, p)
    ensures match EntryStep(fs, root, h)
      case Next(fs1) =>
        && WellFormed(fs1) && p in fs1 && fs1[p].Dir?
        && (forall q :: q in fs ==> q in fs1 && fs1[q] == fs[q])
        && (forall q :: q in fs1 && q !in fs ==> q <= p && fs1[q] == Dir(DirMode))
      case Halt(fs1, e) => fs1 == fs && e == Wrap(CreateDirMsg, Io(NotDir))
  {
    MkdirAllSucceeds(fs, p, DirMode);
    MkdirAllFrame(fs, p, DirMode);
  }

  /** A regular file at a new path: its parents are created and it holds
      the first Size bytes of the entry with the entry's mode; when the
      entry has fewer bytes, what there is was written and the step fails
      with "cannot copy file". No existing node changes, and the only other
      new nodes are its missing ancestors, as directories. */
  lemma RegularFileFresh(fs: FS, root: Path, h: Header, p: Path)
    requires WellFormed(fs)
    requires h.typeflag == TypeReg && EntryTarget(root, h.name) == Some(p)
    requires p !in fs && DirsAlong(fs, Parent(p))
    ensures var r := EntryStep(fs, root, h);
      && Parent(p) in r.fs && r.fs[Parent(p)].Dir?
      && p in r.fs && r.fs[p] == File(FileMode(h.mode), Copied(h))
      && (r.Next? <==> h.size <= |h.data|)
      && (r.Next? ==> r.fs[p].data == h.data[..h.size])
      && (r.Halt? ==> r.err == Wrap(CopyFileMsg, Io(UnexpectedEof)))
      && (forall q :: q in fs ==> q in r.fs && r.fs[q] == fs[q])
      && (forall q :: q in r.fs && q !in fs && q != p ==> q <= Parent(p) && r.fs[q] == Dir(DirMode))
  {
    MkdirAllSucceeds(fs, Parent(p), DirMode);
    MkdirAllFrame(fs, Parent(p), DirMode);
    var fs1 := AfterMkdirAll(fs, Parent(p), DirMode).fs;
    assert p != [];
    assert p !in fs1 by {
      assert !(p <= Parent(p));
    }
    var fs2 := fs1[p := File(FileMode(h.mode), [])];
    assert AfterOpenFile(fs1, p, FileMode(h.mode)) == Done(fs2);
    var w := Copied(h);
    assert Overwrite([], w) == w;
    var fs3 := AfterWrite(fs2, p, w);
    assert fs3[p] == File(FileMode(h.mode), w);
    assert EntryStep(fs, root, h)
        == if |w| < h.size then Halt(fs3, Wrap(CopyFileMsg, Io(UnexpectedEof))) else Next(fs3);
    if h.size <= |h.data| {
      assert w == h.data[..h.size];
    }
  }

  /** A regular file at a path that already holds a file: the file is not
      truncated, so the entry's bytes replace its beginning, any longer old
      content stays after them, and its mode is kept. */
  lemma RegularFileExisting(fs: FS, root: Path, h: Header, p: Path)
    requires WellFormed(fs)
    requires h.typeflag == TypeReg && EntryTarget(root, h.name) == Some(p)
    requires p in fs && fs[p].File?
    ensures var r := EntryStep(fs, root, h);
      && r.fs == fs[p := File(fs[p].mode, Overwrite(fs[p].data, Copied(h)))]
      && (r.Next? <==> h.size <= |h.data|)
      && (h.size < |fs[p].data| ==> r.fs[p].data[h.size..] == fs[p].data[h.size..])
  {
    AncestorsAreDirs(fs, p);
    assert Parent(p) in fs && fs[Parent(p)].Dir?;
    assert AfterMkdirAll(fs, Parent(p), DirMode) == Done(fs);
    assert AfterOpenFile(fs, p, FileMode(h.mode)) == Done(fs);
    var w := Copied(h);
    var fs3 := AfterWrite(fs, p, w);
    assert EntryStep(fs, root, h)
        == if |w| < h.size then Halt(fs3, Wrap(CopyFileMsg, Io(UnexpectedEof))) else Next(fs3);
    assert fs3 == fs[p := File(fs[p].mode, Overwrite(fs[p].data, w))];
    if h.size < |fs[p].data| {
      var prev := fs[p].data;
      assert Overwrite(prev, w) == w + prev[|w|..];
      assert (w + prev[|w|..])[h.size..] == prev[h.size..];
    }
  }

  /** The two ways a regular-file entry fails before writing: a file on the
      way to its directory, and a directory at its own path. */
  lemma RegularFileRejected(fs: FS, root: Path, h: Header, p: Path)
    requires WellFormed(fs)
    requires h.typeflag == TypeReg && EntryTarget(root, h.name) == Some(p)
    ensures !DirsAlong(fs, Parent(p))
      ==> EntryStep(fs, root, h) == Halt(fs, Wrap(CreateParentMsg, Io(NotDir)))
    ensures p in fs && fs[p].Dir?
      ==> EntryStep(fs, root, h) == Halt(fs, Wrap(OpenFileMsg, Io(IsDir)))
  {
    MkdirAllSucceeds(fs, Parent(p), DirMode);
    MkdirAllFrame(fs, Parent(p), DirMode);
    if p in fs && fs[p].Dir? {
      AncestorsAreDirs(fs, p);
      if p != [] {
        assert Parent(p) in fs && fs[Parent(p)].Dir?;
      }
    }
  }

  /** Extended headers leave the filesystem as it is. */
  lemma PaxHeaderSkipped(fs: FS, root: Path, h: Header)
    requires h.typeflag == TypeXGlobalHeader || h.typeflag == TypeXHeader
    ensures EntryStep(fs, root, h) == Next(fs)
  {
  }

  /** Every other type is rejected, naming the type and the entry. */
  lemma UnknownTypeRejected(fs: FS, root: Path, h: Header)
    requires '/' in h.name
    requires h.typeflag !in {TypeReg, TypeDir, TypeXGlobalHeader, TypeXHeader}
    ensures EntryStep(fs, root, h) == Halt(fs, UnknownHeaderType(h.typeflag as int, h.name))
  {
  }

  // ---------------------------------------------------------------------
  // Archive order

  /** Extracting a + b is extracting a, then b unless a failed. */
  lemma {:induction false} ExtractEntriesAppend(fs: FS, root: Path, a: seq<Header>, b: seq<Header>)
    ensures ExtractEntries(fs, root, a + b)
         == var o := ExtractEntries(fs, root, a);
            if o.err.Some? then o else ExtractEntries(o.fs, root, b)
    decreases |a|
  {
    if a == [] {
      assert a + b == b;
    } else {
      assert (a + b)[0] == a[0] && (a + b)[1..] == a[1..] + b;
      match EntryStep(fs, root, a[0])
      case Halt(_, _) =>
      case Next(fs1) => ExtractEntriesAppend(fs1, root, a[1..], b);
    }
  }

  /** The first failing entry ends the extraction: what the earlier entries
      did stays, and nothing after it (entries or the end of the stream)
      has any effect. */
  lemma StopsAtFailingEntry(fs: FS, root: Path, before: seq<Header>, h: Header, after: seq<Header>, tail: Tail)
    requires ExtractEntries(fs, root, before).err.None?
    requires EntryStep(ExtractEntries(fs, root, before).fs, root, h).Halt?
    ensures var s := EntryStep(ExtractEntries(fs, root, before).fs, root, h);
      TarOutcome(fs, root, TarStream(before + [h] + after, tail)) == Outcome(s.fs, Some(s.err))
  {
    assert before + [h] + after == before + ([h] + after);
    ExtractEntriesAppend(fs, root, before, [h] + after);
  }

  /** The tar stream succeeds exactly when every entry succeeds and it ends
      with the end-of-archive marker; a read failure after good entries
      keeps their effects. */
  lemma TarSucceedsIff(fs: FS, root: Path, t: TarStream)
    ensures TarOutcome(fs, root, t).err.None?
        <==> ExtractEntries(fs, root, t.entries).err.None? && t.tail == EndOfArchive
    ensures TarOutcome(fs, root, t).fs == ExtractEntries(fs, root, t.entries).fs
    ensures ExtractEntries(fs, root, t.entries).err.None? && t.tail.Corrupt?
      ==> TarOutcome(fs, root, t).err == Some(Wrap(TarReadMsg, t.tail.cause))
  {
  }

  /** A gzip stream that does not decode fails before any entry. */
  lemma BadGzipChangesNothing(fs: FS, root: Path, cause: Error)
    ensures TarGzOutcome(fs, root, BadGzip(cause)) == Outcome(fs, Some(Wrap(GzipMsg, cause)))
  {
  }

  // ---------------------------------------------------------------------
  // Containment

  /** Going from fs to fs1, no node disappears, and every node that is new
      or changed lies at or below root, except missing ancestors of root,
      which are created as directories. */
  ghost predicate ChangesOnlyUnder(fs: FS, fs1: FS, root: Path) {
    && (forall q :: q in fs ==> q in fs1)
    && (forall q :: q in fs1 && (q !in fs || fs1[q] != fs[q]) ==>
          root <= q || (q !in fs && q < root && fs1[q].Dir?))
  }

  lemma ChangesOnlyUnderTrans(a: FS, b: FS, c: FS, root: Path)
    requires ChangesOnlyUnder(a, b, root) && ChangesOnlyUnder(b, c, root)
    ensures ChangesOnlyUnder(a, c, root)
  {
    forall q | q in c && (q !in a || c[q] != a[q])
      ensures root <= q || (q !in a && q < root && c[q].Dir?)
    {
      if q in b && c[q] == b[q] {
        assert q !in a || b[q] != a[q];
      }
    }
  }

  lemma PrefixesComparable(a: Path, b: Path, p: Path)
    requires a <= p && b <= p
    ensures b <= a || a < b
  {
    if |b| <= |a| {
      assert b == p[..|b|] && a == p[..|a|];
      assert a[..|b|] == b;
    } else {
      assert a == p[..|a|] && b == p[..|b|];
      assert b[..|a|] == a;
    }
  }

  lemma MkdirAllUnder(fs: FS, p: Path, root: Path)
    requires root <= p
    requires AfterMkdirAll(fs, p, DirMode).Done?
    ensures ChangesOnlyUnder(fs, AfterMkdirAll(fs, p, DirMode).fs, root)
  {
    MkdirAllFrame(fs, p, DirMode);
    var fs1 := AfterMkdirAll(fs, p, DirMode).fs;
    forall q | q in fs1 && q !in fs
      ensures root <= q || (q < root && fs1[q].Dir?)
    {
      PrefixesComparable(q, root, p);
    }
  }

  /** A regular-file entry for p, a path at or below root, changes
      nothing outside root. */
  lemma RegularFileStaysUnder(fs: FS, root: Path, h: Header, p: Path)
    requires h.typeflag == TypeReg && EntryTarget(root, h.name) == Some(p)
    ensures ChangesOnlyUnder(fs, EntryStep(fs, root, h).fs, root)
  {
    assert root <= p;
    match AfterMkdirAll(fs, Parent(p), DirMode)
    case Fail(_) =>
    case Done(fs1) =>
      ParentsStayUnder(fs, root, p);
      match AfterOpenFile(fs1, p, FileMode(h.mode))
      case Fail(_) =>
      case Done(fs2) =>
        assert ChangesOnlyUnder(fs1, fs2, root);
        var fs3 := AfterWrite(fs2, p, Copied(h));
        assert ChangesOnlyUnder(fs2, fs3, root);
        ChangesOnlyUnderTrans(fs1, fs2, fs3, root);
        ChangesOnlyUnderTrans(fs, fs1, fs3, root);
  }

  /** Creating the parents of p, a path at or below root, changes nothing
      outside root but root's missing ancestors. */
  lemma ParentsStayUnder(fs: FS, root: Path, p: Path)
    requires root <= p && AfterMkdirAll(fs, Parent(p), DirMode).Done?
    ensures ChangesOnlyUnder(fs, AfterMkdirAll(fs, Parent(p), DirMode).fs, root)
  {
    if root <= Parent(p) {
      MkdirAllUnder(fs, Parent(p), root);
    } else {
      // p is root itself, so its parent is an ancestor of root
      assert p == root by { PrefixesComparable(root, Parent(p), p); }
      MkdirAllFrame(fs, Parent(p), DirMode);
      var fs1 := AfterMkdirAll(fs, Parent(p), DirMode).fs;
      forall q | q in fs1 && q !in fs
        ensures q < root && fs1[q].Dir?
      {
        assert q <= Parent(p);
      }
    }
  }

  /** One entry changes nothing outside the destination. */
  lemma StepStaysUnder(fs: FS, root: Path, h: Header)
    ensures ChangesOnlyUnder(fs, EntryStep(fs, root, h).fs, root)
  {
    match EntryTarget(root, h.name)
    case None =>
    case Some(p) =>
      if h.typeflag == TypeDir {
        if AfterMkdirAll(fs, p, DirMode).Done? { MkdirAllUnder(fs, p, root); }
      } else if h.typeflag == TypeReg {
        RegularFileStaysUnder(fs, root, h, p);
      }
  }

  lemma {:induction false} EntriesStayUnder(fs: FS, root: Path, hs: seq<Header>)
    ensures ChangesOnlyUnder(fs, ExtractEntries(fs, root, hs).fs, root)
    decreases |hs|
  {
    if hs != [] {
      StepStaysUnder(fs, root, hs[0]);
      match EntryStep(fs, root, hs[0])
      case Halt(_, _) =>
      case Next(fs1) =>
        EntriesStayUnder(fs1, root, hs[1..]);
        ChangesOnlyUnderTrans(fs, fs1, ExtractEntries(fs1, root, hs[1..]).fs, root);
    }
  }

  /** Containment of a whole chart archive: whatever the entry names (`..`
      included), extracting into dst creates or changes files only at or
      below dst, and outside it creates at most the missing ancestors of
      dst, as directories. */
  lemma ChartTgzStaysUnder(fs: FS, decode: seq<byte> -> GzipStream, src: string, dst: string)
    ensures ChangesOnlyUnder(fs, ChartTgzOutcome(fs, decode, src, dst).fs, ToPath(dst))
  {
    var s := ToPath(src);
    if OpenError(fs, s).None? && fs[s].File? {
      match decode(fs[s].data)
      case BadGzip(_) =>
      case Gzip(t) => EntriesStayUnder(fs, ToPath(dst), t.entries);
    }
  }

  // ---------------------------------------------------------------------
  // The tree stays a tree

  lemma StepKeepsTree(fs: FS, root: Path, h: Header)
    requires WellFormed(fs)
    ensures WellFormed(EntryStep(fs, root, h).fs)
  {
    match EntryTarget(root, h.name)
    case None =>
    case Some(p) =>
      MkdirAllSucceeds(fs, p, DirMode);
      MkdirAllSucceeds(fs, Parent(p), DirMode);
  }

  lemma {:induction false} TarKeepsTree(fs: FS, root: Path, hs: seq<Header>, tail: Tail)
    requires WellFormed(fs)
    ensures WellFormed(TarOutcome(fs, root, TarStream(hs, tail)).fs)
    decreases |hs|
  {
    if hs != [] {
      StepKeepsTree(fs, root, hs[0]);
      match EntryStep(fs, root, hs[0])
      case Halt(_, _) =>
      case Next(fs1) =>
        TarKeepsTree(fs1, root, hs[1..], tail);
    }
  }

  // ---------------------------------------------------------------------
  // Opening the cached archive

  /** A missing cached archive is reported before anything is written. */
  lemma ChartTgzMissingSource(fs: FS, decode: seq<byte> -> GzipStream, src: string, dst: string)
    requires ToPath(src) !in fs
    ensures ChartTgzOutcome(fs, decode, src, dst)
         == Outcome(fs, Some(Wrap(OpenCacheMsg, Io(LookupError(fs, ToPath(src))))))
  {
  }

  /** Invalid gzip data fails with "unable to read gzip" and writes nothing;
      otherwise the outcome is that of the decoded tar stream. */
  lemma ChartTgzDecoded(fs: FS, decode: seq<byte> -> GzipStream, src: string, dst: string)
    requires ToPath(src) in fs && fs[ToPath(src)].File?
    ensures var o := ChartTgzOutcome(fs, decode, src, dst);
      match decode(fs[ToPath(src)].data)
      case BadGzip(c) => o == Outcome(fs, Some(Wrap(ExtractTgzMsg, Wrap(GzipMsg, c))))
      case Gzip(t) =>
        var u := TarOutcome(fs, ToPath(dst), t);
        && o.fs == u.fs && (o.err.None? <==> u.err.None?)
        && (u.err.Some? ==> o.err == Some(Wrap(ExtractTgzMsg, u.err.value)))
  {
  }

  /** A directory at the cache path opens, and the gzip reader's first read
      fails with EISDIR; nothing is written. */
  lemma ChartTgzDirectorySource(fs: FS, decode: seq<byte> -> GzipStream, src: string, dst: string)
    requires ToPath(src) in fs && fs[ToPath(src)].Dir?
    ensures ChartTgzOutcome(fs, decode, src, dst)
         == Outcome(fs, Some(Wrap(ExtractTgzMsg, Wrap(GzipMsg, Io(IsDir)))))
  {
  }

  // ---------------------------------------------------------------------
  // copyChart

  /** A missing source is reported before any destination is created. */
  lemma CopyMissingSource(fs: FS, src: string, dst: string)
    requires ToPath(src) !in fs
    ensures CopyOutcome(fs, src, dst)
         == Outcome(fs, Some(Wrap(OpenCacheMsg, Io(LookupError(fs, ToPath(src))))))
  {
  }

  /** A destination whose directory does not exist cannot be created; the
      error is ENOENT, or ENOTDIR when a file is in the way. */
  lemma CopyMissingParent(fs: FS, src: string, dst: string)
    requires WellFormed(fs)
    requires ToPath(src) in fs && Parent(ToPath(dst)) !in fs
    ensures CopyOutcome(fs, src, dst)
         == Outcome(fs, Some(Wrap(CreateTargetMsg,
              Io(if DirsAlong(fs, Parent(ToPath(dst))) then NotExist else NotDir))))
  {
    var d := ToPath(dst);
    assert d != [] && d !in fs;
    LookupErrorIsNotDir(fs, Parent(d));
  }

  /** The copy succeeds exactly when the source is a file and the
      destination is a file or a new name in an existing directory. */
  lemma CopySucceedsIff(fs: FS, src: string, dst: string)
    requires WellFormed(fs)
    ensures var s, d := ToPath(src), ToPath(dst);
      CopyOutcome(fs, src, dst).err.None? <==>
             (&& s in fs && fs[s].File?
              && (d in fs ==> fs[d].File?)
              && (d !in fs ==> Parent(d) in fs && fs[Parent(d)].Dir?))
  {
  }

  /** Copying a file to another path that is a file or a new name in an
      existing directory succeeds; the destination then holds exactly the
      source's bytes, and nothing else changed. */
  lemma CopyContents(fs: FS, src: string, dst: string)
    requires WellFormed(fs)
    requires ToPath(src) != ToPath(dst)
    requires ToPath(src) in fs && fs[ToPath(src)].File?
    requires ToPath(dst) in fs ==> fs[ToPath(dst)].File?
    requires ToPath(dst) !in fs ==> Parent(ToPath(dst)) in fs && fs[Parent(ToPath(dst))].Dir?
    ensures CopyOutcome(fs, src, dst).err.None?
    ensures var s, d, o := ToPath(src), ToPath(dst), CopyOutcome(fs, src, dst).fs;
      && d in o && o[d].File? && o[d].data == fs[s].data
      && o.Keys == fs.Keys + {d}
      && (forall q :: q in fs && q != d ==> o[q] == fs[q])
  {
  }

  /** Copying a file onto itself truncates it: the destination handle is
      created (and truncated) before the source is read. */
  lemma CopyOntoItself(fs: FS, src: string)
    requires ToPath(src) in fs && fs[ToPath(src)].File?
    ensures var s := ToPath(src);
      CopyOutcome(fs, src, src) == Outcome(fs[s := File(fs[s].mode, [])], None)
  {
  }
}
