/** What the fetcher promises, proved about the specification functions of
    module Fetch. */
module FetchLemmas {
  import opened Errors
  import opened Paths
  import opened Vfs
  import opened Archive
  import opened ArchiveLemmas
  import opened Fetch

  // ---------------------------------------------------------------------
  // Chart URLs

  /** An OCI chart's URL is the repository and the name joined by `/`,
      whatever the repository index would say. */
  lemma OciUrl(h1: Helm, h2: Helm, vc: VendorChart)
    requires IsOCI(vc.repository)
    ensures ChartUrl(h1, vc) == ChartUrl(h2, vc) == Ok(vc.repository + "/" + vc.name)
  {
  }

  /** Any other chart's URL is what the index lookup finds; a failed lookup
      gives no URL and an error saying the chart was not found. */
  lemma IndexUrl(h: Helm, vc: VendorChart)
    requires !IsOCI(vc.repository)
    ensures var found := h.findChart(ChartQuery(vc.repository, vc.name, vc.version, vc.insecure));
      && (ChartUrl(h, vc).Ok? <==> found.Ok?)
      && (found.Ok? ==> ChartUrl(h, vc) == Ok(found.value))
      && (found.Err? ==> ChartUrl(h, vc) == Err(Wrap(FindChartMsg, found.error)))
  {
  }

  /** The last segment of an OCI chart URL is the chart's name. */
  lemma OciUrlEndsWithName(repository: string, name: string)
    requires '/' !in name
    ensures LastSegment(repository + "/" + name) == name
  {
    SplitConcat(repository, name);
    assert Split(name) == [name];
    var segs := Split(repository + "/" + name);
    assert segs[|segs| - 1] == name;
  }

  // ---------------------------------------------------------------------
  // The raw-copy target

  /** The copy target is the destination joined with the last segment of
      the URL: for a plain name, the file of that name in the destination;
      for an empty segment or `.`, the destination itself; for `..`, its
      parent. */
  lemma CopyTargetPath(destination: string, url: string)
    ensures var seg, d := LastSegment(url), ToPath(destination);
      && (IsName(seg) ==> ToPath(CopyTarget(destination, url)) == d + [seg])
      && (seg == "" || seg == "." ==> ToPath(CopyTarget(destination, url)) == d)
      && (seg == ".." ==> ToPath(CopyTarget(destination, url)) == Parent(d))
  {
    var seg := LastSegment(url);
    SplitConcat(destination, seg);
    assert Split(seg) == [seg];
    FoldAppend([], Split(destination), [seg]);
    assert Fold(ToPath(destination), [seg]) == Step(ToPath(destination), seg);
  }

  /** In raw-copy mode an OCI chart named name lands as the file name in
      the destination. */
  lemma OciCopyTarget(vc: VendorChart)
    requires IsOCI(vc.repository) && IsName(vc.name)
    ensures ToPath(CopyTarget(vc.destination, vc.repository + "/" + vc.name))
         == ToPath(vc.destination) + [vc.name]
  {
    OciUrlEndsWithName(vc.repository, vc.name);
    CopyTargetPath(vc.destination, vc.repository + "/" + vc.name);
  }

  // ---------------------------------------------------------------------
  // One chart

  /** The steps of r are a non-empty prefix of vc's pipeline, r has no
      error only when all of them ran, it stopped early only with an error,
      and its error names the step that failed. */
  ghost predicate FollowsPipeline(r: TaskResult, vc: VendorChart) {
    && 1 <= |r.steps| && r.steps <= Pipeline(vc)
    && (r.err.None? ==> r.steps == Pipeline(vc))
    && (|r.steps| < |Pipeline(vc)| ==> r.err.Some?)
    && (r.err.Some? ==> r.err.value.Wrap? && r.err.value.context == StageContext(r.steps[|r.steps| - 1]))
  }

  lemma LandingFollowsPipeline(vc: VendorChart, o: Outcome)
    ensures FollowsPipeline(LandingOutcome(vc, o), vc)
  {
  }

  lemma DownloadFollowsPipeline(h: Helm, s: Settings, fs: FS, vc: VendorChart, url: string)
    ensures FollowsPipeline(DownloadOutcome(h, s, fs, vc, url), vc)
  {
    assert [MakeDestination, ResolveUrl, Download] <= Pipeline(vc);
    match h.download(Query(s, vc, url))
    case Err(_) =>
    case Ok(f) =>
      var stored := AfterStore(fs, ToPath(f.path), f.archive);
      if stored.err.None? {
        var o := LandOutcome(h, stored.fs, vc, url, f.path);
        assert DownloadOutcome(h, s, fs, vc, url) == LandingOutcome(vc, o);
        LandingFollowsPipeline(vc, o);
      }
  }

  lemma ResolveFollowsPipeline(h: Helm, s: Settings, fs: FS, vc: VendorChart)
    ensures FollowsPipeline(ResolveOutcome(h, s, fs, vc), vc)
  {
    assert [MakeDestination, ResolveUrl] <= Pipeline(vc);
    match ChartUrl(h, vc)
    case Err(_) =>
    case Ok(url) => DownloadFollowsPipeline(h, s, fs, vc, url);
  }

  /** Each task runs its steps strictly in order, and the first failure ends
      it: the steps it ran are a non-empty prefix of its pipeline, the error
      names the last of them, and a task without error ran them all,
      landing by extraction exactly when the chart asks for it. */
  lemma TaskFollowsPipeline(h: Helm, s: Settings, fs: FS, vc: VendorChart)
    ensures FollowsPipeline(TaskOutcome(h, s, fs, vc), vc)
    ensures var r := TaskOutcome(h, s, fs, vc);
      |r.steps| == 4 ==> (r.steps[3] == Extract <==> vc.extract)
  {
    assert [MakeDestination] <= Pipeline(vc);
    match AfterMkdirAllName(fs, vc.destination, DirMode)
    case Fail(_) =>
    case Done(fs1) => ResolveFollowsPipeline(h, s, fs1, vc);
  }

  /** A file in the way of the destination ends the task at once and
      changes nothing. */
  lemma DestinationBlocked(h: Helm, s: Settings, fs: FS, vc: VendorChart)
    requires WellFormed(fs) && !DirsAlong(fs, ToPath(vc.destination))
    ensures TaskOutcome(h, s, fs, vc)
         == TaskResult(fs, [MakeDestination], Some(Wrap(TargetDirMsg, Io(NotDir))))
  {
    MkdirAllNameSucceeds(fs, vc.destination, DirMode);
  }

  /** An empty destination, as a chart without one in the configuration
      has, ends the task at once with ENOENT and changes nothing. */
  lemma EmptyDestinationFails(h: Helm, s: Settings, fs: FS, vc: VendorChart)
    requires vc.destination == ""
    ensures TaskOutcome(h, s, fs, vc)
         == TaskResult(fs, [MakeDestination], Some(Wrap(TargetDirMsg, Io(NotExist))))
  {
  }

  /** A URL that cannot be resolved ends the task: the filesystem is the
      one the destination step left, and neither the download nor the
      archive readers play any part. */
  lemma UrlFailureStopsTask(h: Helm, download: DownloadQuery -> Result<Fetched>,
                            decode: seq<byte> -> GzipStream, s: Settings, fs: FS, vc: VendorChart)
    requires AfterMkdirAllName(fs, vc.destination, DirMode).Done?
    requires ChartUrl(h, vc).Err?
    ensures var r := TaskOutcome(h, s, fs, vc);
      && r == TaskOutcome(h.(download := download, decode := decode), s, fs, vc)
      && r.fs == AfterMkdirAllName(fs, vc.destination, DirMode).fs
      && r.err == Some(Wrap(ChartUrlMsg, ChartUrl(h, vc).error))
  {
    assert ChartUrl(h, vc) == ChartUrl(h.(download := download, decode := decode), vc);
  }

  /** A failed download or a failed write into the cache ends the task
      before any landing: the filesystem is the one before the download, or
      the one the failed write left, and the archive readers play no part. */
  lemma DownloadFailureStopsTask(h: Helm, decode: seq<byte> -> GzipStream,
                                 s: Settings, fs: FS, vc: VendorChart, url: string)
    ensures var r, d := DownloadOutcome(h, s, fs, vc, url), h.download(Query(s, vc, url));
      && (d.Err? ==> r == TaskResult(fs, [MakeDestination, ResolveUrl, Download], Some(Wrap(DownloadMsg, d.error))))
      && (d.Ok? ==>
            var stored := AfterStore(fs, ToPath(d.value.path), d.value.archive);
            stored.err.Some? ==>
              r == TaskResult(stored.fs, [MakeDestination, ResolveUrl, Download],
                              Some(Wrap(DownloadMsg, stored.err.value))))
      && (d.Err? || AfterStore(fs, ToPath(d.value.path), d.value.archive).err.Some? ==>
            r == DownloadOutcome(h.(decode := decode), s, fs, vc, url))
  {
  }

  /** Storing an archive in the cache leaves a tree whose file at p holds
      exactly the archive. */
  lemma StoreKeepsArchive(fs: FS, p: Path, archive: seq<byte>)
    requires WellFormed(fs)
    ensures var o := AfterStore(fs, p, archive);
      && WellFormed(o.fs)
      && (o.err.None? ==> p in o.fs && o.fs[p].File? && o.fs[p].data == archive)
  {
    MkdirAllSucceeds(fs, Parent(p), DirMode);
  }

  /** Extraction writes only inside the destination: the landing step of a
      chart with extract set changes nothing outside it, except creating
      its missing ancestors as directories. */
  lemma ExtractLandsUnderDestination(h: Helm, fs: FS, vc: VendorChart, url: string, cached: string)
    requires vc.extract
    ensures ChangesOnlyUnder(fs, LandOutcome(h, fs, vc, url, cached).fs, ToPath(vc.destination))
  {
    ChartTgzStaysUnder(fs, h.decode, cached, vc.destination);
  }

  /** From configuration to file: a raw-copy task for an OCI chart that
      succeeds leaves, as the file named after the chart in its
      destination, exactly the bytes that were downloaded. */
  lemma CopyDeliversArchive(h: Helm, s: Settings, fs: FS, vc: VendorChart, f: Fetched)
    requires WellFormed(fs)
    requires !vc.extract && IsOCI(vc.repository) && IsName(vc.name)
    requires h.download(Query(s, vc, vc.repository + "/" + vc.name)) == Ok(f)
    requires ToPath(f.path) != ToPath(vc.destination) + [vc.name]
    ensures var t, r := ToPath(vc.destination) + [vc.name], TaskOutcome(h, s, fs, vc);
      r.err.None? ==> t in r.fs && r.fs[t].File? && r.fs[t].data == f.archive
  {
    var r := TaskOutcome(h, s, fs, vc);
    if r.err.None? {
      var url := vc.repository + "/" + vc.name;
      MkdirAllNameSucceeds(fs, vc.destination, DirMode);
      assert AfterMkdirAllName(fs, vc.destination, DirMode).Done?;
      var fs1 := AfterMkdirAllName(fs, vc.destination, DirMode).fs;
      assert r == ResolveOutcome(h, s, fs1, vc);
      assert ChartUrl(h, vc) == Ok(url);
      assert r == DownloadOutcome(h, s, fs1, vc, url);
      StoreKeepsArchive(fs1, ToPath(f.path), f.archive);
      var stored := AfterStore(fs1, ToPath(f.path), f.archive);
      assert stored.err.None?;
      var target := CopyTarget(vc.destination, url);
      assert r == LandingOutcome(vc, CopyOutcome(stored.fs, f.path, target));
      OciCopyTarget(vc);
      CopySucceedsIff(stored.fs, f.path, target);
      CopyContents(stored.fs, f.path, target);
    }
  }

  // ---------------------------------------------------------------------
  // The whole run

  /** A registry client that cannot be created stops the run before any
      chart is attempted. */
  lemma RegistryClientFailure(h: Helm, s: Settings, fs: FS, vcs: seq<VendorChart>, order: seq<nat>)
    requires IsSchedule(order, |vcs|) && h.newClient(s.registryConfig).Some?
    ensures FetchOutcome(h, s, fs, vcs, order)
         == Outcome(fs, Some(Wrap(RegistryClientMsg, h.newClient(s.registryConfig).value)))
  {
  }

  /** Task i runs chart order[i] on the filesystem the first i tasks
      left, whether or not any of them failed. */
  lemma {:induction false} TaskAt(task: Task, fs: FS, vcs: seq<VendorChart>, order: seq<nat>, i: nat)
    requires forall j :: 0 <= j < |order| ==> order[j] < |vcs|
    requires i < |order|
    ensures RunTasks(task, fs, vcs, order)[i]
         == task(FinalFs(fs, RunTasks(task, fs, vcs, order[..i])), vcs[order[i]])
    decreases i
  {
    var r := task(fs, vcs[order[0]]);
    var rest := RunTasks(task, r.fs, vcs, order[1..]);
    assert RunTasks(task, fs, vcs, order) == [r] + rest;
    if i == 0 {
      assert order[..0] == [];
    } else {
      TaskAt(task, r.fs, vcs, order[1..], i - 1);
      assert order[1..][i - 1] == order[i];
      var prefix := RunTasks(task, r.fs, vcs, order[1..][..i - 1]);
      assert order[..i][0] == order[0] && order[..i][1..] == order[1..][..i - 1];
      assert RunTasks(task, fs, vcs, order[..i]) == [r] + prefix;
      if prefix != [] {
        assert ([r] + prefix)[|prefix|] == prefix[|prefix| - 1];
      }
    }
  }

  /** Every chart is attempted: once the registry client exists, each
      chart k has its task, run on what the tasks before it left, and that
      task starts by creating k's destination. */
  lemma EveryChartAttempted(h: Helm, s: Settings, fs: FS, vcs: seq<VendorChart>, order: seq<nat>, k: nat)
    requires IsSchedule(order, |vcs|) && k < |vcs|
    ensures var rs := RunTasks(ChartTask(h, s), fs, vcs, order);
      exists i :: 0 <= i < |order| && order[i] == k
        && rs[i] == TaskOutcome(h, s, FinalFs(fs, RunTasks(ChartTask(h, s), fs, vcs, order[..i])), vcs[k])
        && |rs[i].steps| >= 1 && rs[i].steps[0] == MakeDestination
  {
    assert k in order;
    var i :| 0 <= i < |order| && order[i] == k;
    TaskAt(ChartTask(h, s), fs, vcs, order, i);
    var before := FinalFs(fs, RunTasks(ChartTask(h, s), fs, vcs, order[..i]));
    assert ChartTask(h, s)(before, vcs[k]) == TaskOutcome(h, s, before, vcs[k]);
    TaskFollowsPipeline(h, s, before, vcs[k]);
  }

  /** The run fails exactly when the client cannot be created or some task
      fails, and then with the error of the first task that failed. */
  lemma FetchFailsIff(h: Helm, s: Settings, fs: FS, vcs: seq<VendorChart>, order: seq<nat>)
    requires IsSchedule(order, |vcs|) && h.newClient(s.registryConfig).None?
    ensures var rs := RunTasks(ChartTask(h, s), fs, vcs, order);
      var o := FetchOutcome(h, s, fs, vcs, order);
      && o.fs == FinalFs(fs, rs)
      && (o.err.Some? <==> exists i :: 0 <= i < |rs| && rs[i].err.Some?)
      && (o.err.Some? ==>
            exists i :: 0 <= i < |rs| && rs[i].err.Some?
              && o.err == Some(Wrap(FetchChartsMsg, rs[i].err.value))
              && forall j :: 0 <= j < i ==> rs[j].err.None?)
  {
    var rs := RunTasks(ChartTask(h, s), fs, vcs, order);
    var e := FirstError(rs);
    if e.Some? {
      var i :| 0 <= i < |rs| && rs[i].err == e && forall j :: 0 <= j < i ==> rs[j].err.None?;
      assert FetchOutcome(h, s, fs, vcs, order).err == Some(Wrap(FetchChartsMsg, rs[i].err.value));
    }
  }
}
