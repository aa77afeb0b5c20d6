/** The fetch logic of internal/helm/fetch.go: `getChartURL`, `getVerify`,
    the body of each chart's task in `FetchCharts` and the result of the
    whole run. The Helm library is a record of functions (`Helm`) the model
    does not look into. The tasks, which the source runs as goroutines of
    an `errgroup.Group`, run one after another in an arbitrary order that
    is a parameter. */
module Fetch {
  import opened Errors
  import opened Paths
  import opened Vfs
  import opened Archive

  /** One entry of the vendor configuration, with the `extract` switch the
      fetcher reads. */
  datatype VendorChart = VendorChart(
    name: string,
    repository: string,
    version: string,
    destination: string,
    insecure: bool,
    verify: bool,
    extract: bool)

  /** The HELM_* paths the fetcher hands to the Helm library. */
  datatype Settings = Settings(
    registryConfig: string,
    repositoryConfig: string,
    repositoryCache: string,
    contentCache: string,
    debug: bool)

  /** `downloader.VerificationStrategy`. */
  datatype VerificationStrategy = VerifyNever | VerifyIfPossible | VerifyAlways | VerifyLater

  /** The arguments of `repo.FindChartInRepoURL`. */
  datatype ChartQuery = ChartQuery(repository: string, name: string, version: string, insecure: bool)

  /** What `ChartDownloader.DownloadToCache` is asked, including the
      downloader's configuration. */
  datatype DownloadQuery = DownloadQuery(
    url: string,
    version: string,
    verify: VerificationStrategy,
    registryConfig: string,
    repositoryConfig: string,
    repositoryCache: string,
    contentCache: string)

  /** A downloaded archive: the cache path `DownloadToCache` returns and the
      bytes it saved there. */
  datatype Fetched = Fetched(path: string, archive: seq<byte>)

  /** The Helm library: `registry.NewClient` with a credentials file,
      `repo.FindChartInRepoURL`, the download itself, and the gzip and tar
      readers that turn archive bytes into entries. */
  datatype Helm = Helm(
    newClient: string -> Option<Error>,
    findChart: ChartQuery -> Result<string>,
    download: DownloadQuery -> Result<Fetched>,
    decode: seq<byte> -> GzipStream)

  // ---------------------------------------------------------------------
  // Pure decisions

  /** `registry.IsOCI`: the reference starts with `oci://`. */
  predicate IsOCI(repository: string) {
    "oci://" <= repository
  }

  /** `getChartURL`: an OCI chart is the repository and the name joined by
      `/`; any other chart is looked up in the repository index. */
  function ChartUrl(h: Helm, vc: VendorChart): Result<string>
  {
    if IsOCI(vc.repository) then Ok(vc.repository + "/" + vc.name)
    else
      match h.findChart(ChartQuery(vc.repository, vc.name, vc.version, vc.insecure))
      case Err(e) => Err(Wrap(FindChartMsg, e))
      case Ok(url) => Ok(url)
  }

  /** `getVerify`: only the two extreme strategies occur. */
  function GetVerify(vc: VendorChart): (v: VerificationStrategy)
    ensures v == VerifyAlways <==> vc.verify
    ensures v == VerifyNever <==> !vc.verify
    ensures v != VerifyIfPossible && v != VerifyLater
  {
    if vc.verify then VerifyAlways else VerifyNever
  }

  /** `path.Join(destination, last segment of url)` before cleaning; the
      model resolves it with `ToPath`, which cleans it. */
  function CopyTarget(destination: string, url: string): string
  {
    destination + "/" + LastSegment(url)
  }

  function Query(s: Settings, vc: VendorChart, url: string): DownloadQuery
  {
    DownloadQuery(url, vc.version, GetVerify(vc),
                  s.registryConfig, s.repositoryConfig, s.repositoryCache, s.contentCache)
  }

  // ---------------------------------------------------------------------
  // One chart

  /** The stages of a chart's task, in the order the source runs them. */
  datatype Stage = MakeDestination | ResolveUrl | Download | Extract | Copy

  /** The error context each stage puts in front of its failure. */
  function StageContext(stage: Stage): Context
  {
    match stage
    case MakeDestination => TargetDirMsg
    case ResolveUrl => ChartUrlMsg
    case Download => DownloadMsg
    case Extract => LandMsg
    case Copy => LandMsg
  }

  /** All steps of a task for vc: the landing is extraction or a copy as
      vc.extract says. */
  function Pipeline(vc: VendorChart): seq<Stage>
  {
    [MakeDestination, ResolveUrl, Download, if vc.extract then Extract else Copy]
  }

  /** The filesystem after a task, the steps it ran, and its error. */
  datatype TaskResult = TaskResult(fs: FS, steps: seq<Stage>, err: Option<Error>)

  /** The write of a downloaded archive into the cache: its directory is
      created, then the file is created and filled. */
  function AfterStore(fs: FS, p: Path, archive: seq<byte>): Outcome
  {
    match AfterMkdirAll(fs, Parent(p), DirMode)
    case Fail(e) => Outcome(fs, Some(Io(e)))
    case Done(fs1) =>
      match AfterCreate(fs1, p)
      case Fail(e) => Outcome(fs1, Some(Io(e)))
      case Done(fs2) => Outcome(AfterWrite(fs2, p, archive), None)
  }

  /** The landing of lines 70-81: extraction into the destination, or a
      copy of the archive named after the last segment of the URL. */
  function LandOutcome(h: Helm, fs: FS, vc: VendorChart, url: string, cached: string): Outcome
  {
    if vc.extract then ChartTgzOutcome(fs, h.decode, cached, vc.destination)
    else CopyOutcome(fs, cached, CopyTarget(vc.destination, url))
  }

  /** The body of the goroutine for vc. The destination is the configured
      string itself, so an empty one fails as `os.MkdirAll("")` does. */
  function TaskOutcome(h: Helm, s: Settings, fs: FS, vc: VendorChart): TaskResult
  {
    match AfterMkdirAllName(fs, vc.destination, DirMode)
    case Fail(e) => TaskResult(fs, [MakeDestination], Some(Wrap(TargetDirMsg, Io(e))))
    case Done(fs1) => ResolveOutcome(h, s, fs1, vc)
  }

  /** The task from the URL resolution on, once the destination exists. */
  function ResolveOutcome(h: Helm, s: Settings, fs: FS, vc: VendorChart): TaskResult
  {
    match ChartUrl(h, vc)
    case Err(e) => TaskResult(fs, [MakeDestination, ResolveUrl], Some(Wrap(ChartUrlMsg, e)))
    case Ok(url) => DownloadOutcome(h, s, fs, vc, url)
  }

  /** The task from the download on, once the destination exists and the
      URL is known. */
  function DownloadOutcome(h: Helm, s: Settings, fs: FS, vc: VendorChart, url: string): TaskResult
  {
    var steps := [MakeDestination, ResolveUrl, Download];
    match h.download(Query(s, vc, url))
    case Err(e) => TaskResult(fs, steps, Some(Wrap(DownloadMsg, e)))
    case Ok(f) =>
      var stored := AfterStore(fs, ToPath(f.path), f.archive);
      if stored.err.Some? then TaskResult(stored.fs, steps, Some(Wrap(DownloadMsg, stored.err.value)))
      else LandingOutcome(vc, LandOutcome(h, stored.fs, vc, url, f.path))
  }

  /** The task once its last step, the landing, had the outcome o. */
  function LandingOutcome(vc: VendorChart, o: Outcome): TaskResult
  {
    TaskResult(o.fs, Pipeline(vc), if o.err.Some? then Some(Wrap(LandMsg, o.err.value)) else None)
  }

  // ---------------------------------------------------------------------
  // The whole run

  /** order lists every chart index exactly once. */
  predicate IsSchedule(order: seq<nat>, n: nat) {
    && |order| == n
    && (forall i :: 0 <= i < |order| ==> order[i] < n)
    && (forall k :: 0 <= k < n ==> k in order)
  }

  /** A task body: what running it for a chart does to a filesystem. */
  type Task = (FS, VendorChart) -> TaskResult

  /** The goroutine body of `FetchCharts`, for the library h and settings s. */
  function ChartTask(h: Helm, s: Settings): Task
  {
    (fs: FS, vc: VendorChart) => TaskOutcome(h, s, fs, vc)
  }

  /** The tasks run in the order order gives, each on the filesystem the
      previous one left; every task runs, whatever the others returned. */
  function RunTasks(task: Task, fs: FS, vcs: seq<VendorChart>, order: seq<nat>): (rs: seq<TaskResult>)
    requires forall i :: 0 <= i < |order| ==> order[i] < |vcs|
    ensures |rs| == |order|
    decreases |order|
  {
    if order == [] then []
    else
      var r := task(fs, vcs[order[0]]);
      [r] + RunTasks(task, r.fs, vcs, order[1..])
  }

  /** The filesystem after a run of tasks. */
  function FinalFs(fs: FS, rs: seq<TaskResult>): FS
  {
    if rs == [] then fs else rs[|rs| - 1].fs
  }

  /** The error `errgroup.Group.Wait` returns: for tasks run in sequence,
      the error of the first task that failed. */
  function FirstError(rs: seq<TaskResult>): (e: Option<Error>)
    ensures e.None? <==> forall i :: 0 <= i < |rs| ==> rs[i].err.None?
    ensures e.Some? ==>
      exists i :: 0 <= i < |rs| && rs[i].err == e && forall j :: 0 <= j < i ==> rs[j].err.None?
    decreases |rs|
  {
    if rs == [] then None
    else if rs[0].err.Some? then rs[0].err
    else
      var e := FirstError(rs[1..]);
      assert forall i :: 1 <= i < |rs| ==> rs[i] == rs[1..][i - 1];
      e
  }

  /** The rest of a run: the tasks of order on fs, where pending is the
      error an earlier task already returned, if any. */
  function Resume(task: Task, fs: FS, vcs: seq<VendorChart>, order: seq<nat>, pending: Option<Error>): Outcome
    requires forall i :: 0 <= i < |order| ==> order[i] < |vcs|
  {
    var rs := RunTasks(task, fs, vcs, order);
    Outcome(FinalFs(fs, rs), if pending.Some? then pending else FirstError(rs))
  }

  /** Resuming a non-empty schedule is running its first task r, then
      resuming the rest on the filesystem r left. */
  lemma ResumeStep(task: Task, fs: FS, vcs: seq<VendorChart>, order: seq<nat>,
                   pending: Option<Error>, r: TaskResult)
    requires |order| > 0 && forall i :: 0 <= i < |order| ==> order[i] < |vcs|
    requires r == task(fs, vcs[order[0]])
    ensures Resume(task, fs, vcs, order, pending)
         == Resume(task, r.fs, vcs, order[1..], if pending.Some? then pending else r.err)
  {
    var rest := RunTasks(task, r.fs, vcs, order[1..]);
    var rs := [r] + rest;
    assert RunTasks(task, fs, vcs, order) == rs;
    assert rs[1..] == rest;
    if rest != [] {
      assert rs[|rs| - 1] == rest[|rest| - 1];
    }
  }

  /** `FetchCharts(s, vcs)` with the tasks scheduled in order. */
  function FetchOutcome(h: Helm, s: Settings, fs: FS, vcs: seq<VendorChart>, order: seq<nat>): Outcome
    requires IsSchedule(order, |vcs|)
  {
    match h.newClient(s.registryConfig)
    case Some(e) => Outcome(fs, Some(Wrap(RegistryClientMsg, e)))
    case None =>
      var rs := RunTasks(ChartTask(h, s), fs, vcs, order);
      match FirstError(rs)
      case None => Outcome(FinalFs(fs, rs), None)
      case Some(e) => Outcome(FinalFs(fs, rs), Some(Wrap(FetchChartsMsg, e)))
  }

  // ---------------------------------------------------------------------
  // The operations

  /** Saving a downloaded archive in the cache. */
  method Store(fs: FileSystem, p: Path, archive: seq<byte>) returns (err: Option<Error>)
    requires fs.Valid()
    modifies fs
    ensures fs.Valid()
    ensures Outcome(fs.nodes, err) == AfterStore(old(fs.nodes), p, archive)
  {
    var e := fs.MkdirAll(Parent(p), DirMode);
    if e.Some? {
      return Some(Io(e.value));
    }
    e := fs.Create(p);
    if e.Some? {
      return Some(Io(e.value));
    }
    fs.Write(p, archive);
    err := None;
  }

  /** One chart's task: the steps it ran and the error it returned. */
  method RunChart(fs: FileSystem, h: Helm, s: Settings, vc: VendorChart)
    returns (steps: seq<Stage>, err: Option<Error>)
    requires fs.Valid()
    modifies fs
    ensures fs.Valid()
    ensures TaskResult(fs.nodes, steps, err) == TaskOutcome(h, s, old(fs.nodes), vc)
  {
    var e := fs.MkdirAllName(vc.destination, DirMode);
    if e.Some? {
      return [MakeDestination], Some(Wrap(TargetDirMsg, Io(e.value)));
    }
    steps, err := ResolveChart(fs, h, s, vc);
  }

  /** The task from the URL resolution on. */
  method ResolveChart(fs: FileSystem, h: Helm, s: Settings, vc: VendorChart)
    returns (steps: seq<Stage>, err: Option<Error>)
    requires fs.Valid()
    modifies fs
    ensures fs.Valid()
    ensures TaskResult(fs.nodes, steps, err) == ResolveOutcome(h, s, old(fs.nodes), vc)
  {
    var url := ChartUrl(h, vc);
    if url.Err? {
      return [MakeDestination, ResolveUrl], Some(Wrap(ChartUrlMsg, url.error));
    }
    steps, err := DownloadChart(fs, h, s, vc, url.value);
  }

  /** The task from the download on. */
  method DownloadChart(fs: FileSystem, h: Helm, s: Settings, vc: VendorChart, url: string)
    returns (steps: seq<Stage>, err: Option<Error>)
    requires fs.Valid()
    modifies fs
    ensures fs.Valid()
    ensures TaskResult(fs.nodes, steps, err) == DownloadOutcome(h, s, old(fs.nodes), vc, url)
  {
    steps := [MakeDestination, ResolveUrl, Download];
    var fetched := h.download(Query(s, vc, url));
    if fetched.Err? {
      return steps, Some(Wrap(DownloadMsg, fetched.error));
    }
    var f := fetched.value;
    err := Store(fs, ToPath(f.path), f.archive);
    if err.Some? {
      return steps, Some(Wrap(DownloadMsg, err.value));
    }
    steps := Pipeline(vc);
    if vc.extract {
      err := ExtractChartTgz(fs, h.decode, f.path, vc.destination);
    } else {
      err := CopyChart(fs, f.path, CopyTarget(vc.destination, url));
    }
    if err.Some? {
      err := Some(Wrap(LandMsg, err.value));
    }
  }

  /** `FetchCharts`: every task runs; the run fails with the first task
      error, if any. */
  method FetchCharts(fs: FileSystem, h: Helm, s: Settings, vcs: seq<VendorChart>, order: seq<nat>)
    returns (err: Option<Error>)
    requires fs.Valid()
    requires IsSchedule(order, |vcs|)
    modifies fs
    ensures fs.Valid()
    ensures Outcome(fs.nodes, err) == FetchOutcome(h, s, old(fs.nodes), vcs, order)
  {
    var clientErr := h.newClient(s.registryConfig);
    if clientErr.Some? {
      return Some(Wrap(RegistryClientMsg, clientErr.value));
    }
    ghost var task := ChartTask(h, s);
    ghost var fs0 := fs.nodes;
    var first: Option<Error> := None;
    var i := 0;
    while i < |order|
      invariant 0 <= i <= |order|
      invariant fs.Valid()
      invariant Resume(task, fs.nodes, vcs, order[i..], first) == Resume(task, fs0, vcs, order, None)
    {
      ghost var before := fs.nodes;
      assert order[i..][0] == order[i] && order[i..][1..] == order[i + 1..];
      var steps, e := RunChart(fs, h, s, vcs[order[i]]);
      assert TaskResult(fs.nodes, steps, e) == task(before, vcs[order[i]]);
      ResumeStep(task, before, vcs, order[i..], first, TaskResult(fs.nodes, steps, e));
      if first.None? && e.Some? {
        first := e;
      }
      i := i + 1;
    }
    assert order[i..] == [];
    match first
    case None => err := None;
    case Some(e) => err := Some(Wrap(FetchChartsMsg, e));
  }
}
