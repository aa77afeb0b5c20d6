/** The chart archive lander of internal/helm/filesystem.go: `extractTar`,
    `extractTarGz`, `extractChartTgz` and `copyChart`. Decompression and tar
    header parsing are outside the model: a tar stream is the sequence of
    entries `tar.Reader.Next` returns, followed by the end-of-archive marker
    or a read failure, and a gzip stream is either a bad gzip header or the
    tar stream it carries. Each operation has a specification function
    (`TarOutcome`, ...) on filesystem values and a method on a `FileSystem`
    object that is proved to behave as the function says. */
module Archive {
  import opened Errors
  import opened Paths
  import opened Vfs

  /** The typeflags of archive/tar the extractor distinguishes. */
  const TypeReg: byte := 48            // '0'
  const TypeDir: byte := 53            // '5'
  const TypeXGlobalHeader: byte := 103 // 'g'
  const TypeXHeader: byte := 120       // 'x'

  /** One entry as `tar.Reader.Next` returns it, with the bytes the reader
      yields for it; `data` is shorter than `size` when the stream ends
      inside the entry. */
  datatype Header = Header(name: string, typeflag: byte, mode: int, size: nat, data: seq<byte>)

  /** What `Next` reports after the last entry: `io.EOF`, or another error. */
  datatype Tail = EndOfArchive | Corrupt(cause: Error)

  datatype TarStream = TarStream(entries: seq<Header>, tail: Tail)

  /** What `gzip.NewReader` finds: a header it rejects, or a tar stream. */
  datatype GzipStream = BadGzip(cause: Error) | Gzip(tar: TarStream)

  datatype Outcome = Outcome(fs: FS, err: Option<Error>)

  datatype StepResult = Next(fs: FS) | Halt(fs: FS, err: Error)

  /** `os.FileMode(header.Mode)`: the int64 mode keeps its low 32 bits. */
  function FileMode(mode: int): (m: nat)
    ensures m < 0x1_0000_0000
    ensures (mode - m) % 0x1_0000_0000 == 0
  {
    mode % 0x1_0000_0000
  }

  /** The bytes `io.CopyN(outFile, tarReader, header.Size)` moves: the
      first Size bytes, or all there are when the entry is short. */
  function Copied(h: Header): (w: seq<byte>)
    ensures |w| <= h.size && w <= h.data
    ensures |w| < h.size <==> |h.data| < h.size
    ensures |h.data| < h.size ==> w == h.data
  {
    if |h.data| < h.size then h.data else h.data[..h.size]
  }

  /** Where an entry lands: the first `/`-separated segment of its name is
      dropped and the rest is securely joined onto root; None when the name
      has no `/`. */
  function EntryTarget(root: Path, name: string): Option<Path>
  {
    match SplitFirst(name)
    case None => None
    case Some(parts) => Some(SecureJoin(root, parts.1))
  }

  /** One turn of the loop in `extractTar` for the entry h. */
  function EntryStep(fs: FS, root: Path, h: Header): StepResult
  {
    match EntryTarget(root, h.name)
    case None => Next(fs)
    case Some(p) =>
      if h.typeflag == TypeDir then
        match AfterMkdirAll(fs, p, DirMode)
        case Fail(e) => Halt(fs, Wrap(CreateDirMsg, Io(e)))
        case Done(fs1) => Next(fs1)
      else if h.typeflag == TypeReg then
        match AfterMkdirAll(fs, Parent(p), DirMode)
        case Fail(e) => Halt(fs, Wrap(CreateParentMsg, Io(e)))
        case Done(fs1) =>
          match AfterOpenFile(fs1, p, FileMode(h.mode))
          case Fail(e) => Halt(fs1, Wrap(OpenFileMsg, Io(e)))
          case Done(fs2) =>
            var fs3 := AfterWrite(fs2, p, Copied(h));
            if |Copied(h)| < h.size then Halt(fs3, Wrap(CopyFileMsg, Io(UnexpectedEof)))
            else Next(fs3)
      else if h.typeflag == TypeXGlobalHeader || h.typeflag == TypeXHeader then Next(fs)
      else Halt(fs, UnknownHeaderType(h.typeflag as int, h.name))
  }

  /** The entries in archive order, up to the first that fails. */
  function ExtractEntries(fs: FS, root: Path, hs: seq<Header>): Outcome
    decreases |hs|
  {
    if hs == [] then Outcome(fs, None)
    else
      match EntryStep(fs, root, hs[0])
      case Halt(fs1, e) => Outcome(fs1, Some(e))
      case Next(fs1) => ExtractEntries(fs1, root, hs[1..])
  }

  /** `extractTar(r, dst)` with root the path dst names. */
  function TarOutcome(fs: FS, root: Path, t: TarStream): Outcome
  {
    var o := ExtractEntries(fs, root, t.entries);
    if o.err.Some? then o
    else
      match t.tail
      case EndOfArchive => o
      case Corrupt(c) => Outcome(o.fs, Some(Wrap(TarReadMsg, c)))
  }

  /** `extractTarGz(r, dst)`. */
  function TarGzOutcome(fs: FS, root: Path, g: GzipStream): Outcome
  {
    match g
    case BadGzip(c) => Outcome(fs, Some(Wrap(GzipMsg, c)))
    case Gzip(t) => TarOutcome(fs, root, t)
  }

  /** `extractChartTgz(src, dst)`; decode stands for the gzip and tar
      readers applied to the bytes of the file src. Opening a directory
      succeeds and the first read, by the gzip reader, fails. */
  function ChartTgzOutcome(fs: FS, decode: seq<byte> -> GzipStream, src: string, dst: string): Outcome
  {
    var s := ToPath(src);
    match OpenError(fs, s)
    case Some(e) => Outcome(fs, Some(Wrap(OpenCacheMsg, Io(e))))
    case None =>
      if fs[s].Dir? then Outcome(fs, Some(Wrap(ExtractTgzMsg, Wrap(GzipMsg, Io(IsDir)))))
      else
        var o := TarGzOutcome(fs, ToPath(dst), decode(fs[s].data));
        if o.err.Some? then Outcome(o.fs, Some(Wrap(ExtractTgzMsg, o.err.value))) else o
  }

  /** `copyChart(srcPath, dstPath)`: open the source, create (truncate) the
      destination, then copy what the source holds at that point. */
  function CopyOutcome(fs: FS, src: string, dst: string): Outcome
  {
    var s, d := ToPath(src), ToPath(dst);
    match OpenError(fs, s)
    case Some(e) => Outcome(fs, Some(Wrap(OpenCacheMsg, Io(e))))
    case None =>
      match AfterCreate(fs, d)
      case Fail(e) => Outcome(fs, Some(Wrap(CreateTargetMsg, Io(e))))
      case Done(fs1) =>
        if fs1[s].Dir? then Outcome(fs1, Some(Wrap(CopyStreamMsg, Io(IsDir))))
        else Outcome(AfterWrite(fs1, d, fs1[s].data), None)
  }

  // ---------------------------------------------------------------------
  // The operations

  method ExtractTar(fs: FileSystem, t: TarStream, dst: string) returns (err: Option<Error>)
    requires fs.Valid()
    modifies fs
    ensures fs.Valid()
    ensures Outcome(fs.nodes, err) == TarOutcome(old(fs.nodes), ToPath(dst), t)
  {
    var root := ToPath(dst);
    var i := 0;
    while i < |t.entries|
      invariant 0 <= i <= |t.entries|
      invariant fs.Valid()
      invariant TarOutcome(old(fs.nodes), root, t)
             == TarOutcome(fs.nodes, root, TarStream(t.entries[i..], t.tail))
    {
      var h := t.entries[i];
      assert t.entries[i..][0] == h && t.entries[i..][1..] == t.entries[i + 1..];
      i := i + 1;
      var parts := SplitFirst(h.name);
      if parts.None? {
        continue;
      }
      var p := SecureJoin(root, parts.value.1);
      if h.typeflag == TypeDir {
        var e := fs.MkdirAll(p, DirMode);
        if e.Some? {
          return Some(Wrap(CreateDirMsg, Io(e.value)));
        }
      } else if h.typeflag == TypeReg {
        var e := fs.MkdirAll(Parent(p), DirMode);
        if e.Some? {
          return Some(Wrap(CreateParentMsg, Io(e.value)));
        }
        e := fs.OpenFile(p, FileMode(h.mode));
        if e.Some? {
          return Some(Wrap(OpenFileMsg, Io(e.value)));
        }
        var w := Copied(h);
        fs.Write(p, w);
        if |w| < h.size {
          return Some(Wrap(CopyFileMsg, Io(UnexpectedEof)));
        }
      } else if h.typeflag == TypeXGlobalHeader || h.typeflag == TypeXHeader {
        continue;
      } else {
        return Some(UnknownHeaderType(h.typeflag as int, h.name));
      }
    }
    match t.tail
    case EndOfArchive => err := None;
    case Corrupt(c) => err := Some(Wrap(TarReadMsg, c));
  }

  method ExtractTarGz(fs: FileSystem, g: GzipStream, dst: string) returns (err: Option<Error>)
    requires fs.Valid()
    modifies fs
    ensures fs.Valid()
    ensures Outcome(fs.nodes, err) == TarGzOutcome(old(fs.nodes), ToPath(dst), g)
  {
    match g
    case BadGzip(c) =>
      err := Some(Wrap(GzipMsg, c));
    case Gzip(t) =>
      err := ExtractTar(fs, t, dst);
  }

  method ExtractChartTgz(fs: FileSystem, decode: seq<byte> -> GzipStream, src: string, dst: string)
    returns (err: Option<Error>)
    requires fs.Valid()
    modifies fs
    ensures fs.Valid()
    ensures Outcome(fs.nodes, err) == ChartTgzOutcome(old(fs.nodes), decode, src, dst)
  {
    var s := ToPath(src);
    var openErr := OpenError(fs.nodes, s);
    if openErr.Some? {
      return Some(Wrap(OpenCacheMsg, Io(openErr.value)));
    }
    var node := fs.nodes[s];
    if node.Dir? {
      return Some(Wrap(ExtractTgzMsg, Wrap(GzipMsg, Io(IsDir))));
    }
    err := ExtractTarGz(fs, decode(node.data), dst);
    if err.Some? {
      err := Some(Wrap(ExtractTgzMsg, err.value));
    }
  }

  method CopyChart(fs: FileSystem, src: string, dst: string) returns (err: Option<Error>)
    requires fs.Valid()
    modifies fs
    ensures fs.Valid()
    ensures Outcome(fs.nodes, err) == CopyOutcome(old(fs.nodes), src, dst)
  {
    var s := ToPath(src);
    var openErr := OpenError(fs.nodes, s);
    if openErr.Some? {
      return Some(Wrap(OpenCacheMsg, Io(openErr.value)));
    }
    var d := ToPath(dst);
    var createErr := fs.Create(d);
    if createErr.Some? {
      return Some(Wrap(CreateTargetMsg, Io(createErr.value)));
    }
    var node := fs.nodes[s];
    if node.Dir? {
      return Some(Wrap(CopyStreamMsg, Io(IsDir)));
    }
    fs.Write(d, node.data);
    err := None;
  }
}
