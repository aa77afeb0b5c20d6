# helm-vendor-plugin core in Dafny

This project models two parts of the `internal/helm` package of helm-vendor-plugin and proves properties of each:

- **The chart archive lander** (`internal/helm/filesystem.go`):
  - `extractTar` walks the entries of a tar archive in order. It drops the first `/`-separated segment of each entry name and joins the rest onto the destination with `securejoin`. It creates directories, and regular files holding `Size` bytes. It skips pax headers and rejects every other entry type.
  - `extractTarGz` and `extractChartTgz` wrap `extractTar` with opening the cached archive and gzip decoding.
  - `copyChart` copies the archive byte for byte.
- **The fetcher** (`internal/helm/fetch.go`):
  - `getChartURL` resolves a chart's URL: OCI repositories by concatenation, other repositories by an index lookup.
  - `getVerify` picks the verification strategy.
  - Each chart's task creates the destination, resolves the URL, downloads, then extracts or copies.
  - `FetchCharts` runs one task per chart and reports the first error.

The operating system is an abstract filesystem (`Vfs.FS`): a map from clean absolute paths (sequences of names) to directories and files. Module `Vfs` models each system call as a function on that map. `Vfs.FileSystem` is a mutable object whose methods perform one call each.

Each operation of the core is written twice:
- a specification function on filesystem values, such as `Archive.TarOutcome` or `Fetch.TaskOutcome`;
- an imperative method on a `FileSystem`, such as `Archive.ExtractTar` or `Fetch.RunChart`, proved to leave exactly the state and error that the function gives.

The properties are lemmas about the specification functions (modules `ArchiveLemmas` and `FetchLemmas`).

Paths:
- A string path is turned into a segment path by `Paths.ToPath`: split at `/`, then resolve `.`, `..` and empty segments lexically from the root.
- `securejoin` is modelled by `Paths.SecureJoin`: the same resolution, where `..` can never climb above the root it is joined onto. The code clamps such paths; it does not reject them. The model follows the code.

Details taken from the code:
- The entry `chart/` splits into `chart` and the empty string, so it is not skipped. It resolves to the destination itself and runs `MkdirAll` on it.
- Regular files are opened with `O_CREATE|O_RDWR` and no `O_TRUNC`. An existing file therefore keeps its mode. The entry's bytes replace the beginning of the file, and any longer old content stays after them (`ArchiveLemmas.RegularFileExisting`).
- `copyChart` opens the source, then creates and truncates the destination, then reads the source. Copying a file onto itself therefore leaves it empty (`ArchiveLemmas.CopyOntoItself`).
- The destination of each chart goes to `os.MkdirAll` exactly as configured. An empty configured destination fails there with ENOENT and ends the task (`FetchLemmas.EmptyDestinationFails`).
- Opening a directory succeeds. Its first read fails with EISDIR: in `extractChartTgz` inside the gzip reader, in `copyChart` inside `io.Copy`.
- `internal/config/vendor_charts.go:5-12` has no `Extract` field, but `internal/helm/fetch.go:70` reads one. `Fetch.VendorChart` has an `extract` field.
- `cmd/download.go:47` calls `FetchCharts` with arguments that do not match its declaration at `internal/helm/fetch.go:26`. The model follows the declaration.

## Model

| member | source | states |
|---|---|---|
| Paths.Parent | internal/helm/filesystem.go:106 | `filepath.Dir` gives a prefix of the path, one segment shorter unless the path is the root |
| Paths.SplitFirst | internal/helm/filesystem.go:90-93 | `SplitN(name, "/", 2)` has one part exactly when the name has no `/`; otherwise the first part has no `/` and the parts joined by `/` give back the name |
| Paths.SplitFirstAt | internal/helm/filesystem.go:90 | the split happens at the first `/`: for `a` without `/`, `a + "/" + b` splits into `a` and `b` |
| Paths.Split | internal/helm/fetch.go:75 | `strings.Split(url, "/")` yields at least one separator-free piece, and joining the pieces with `/` gives back the input |
| Paths.SplitJoin | internal/helm/fetch.go:75 | splitting undoes joining separator-free pieces |
| Paths.SplitAt | internal/helm/fetch.go:75 | splitting at a first separator gives the piece before it followed by the pieces of the rest |
| Paths.SplitConcat | internal/helm/fetch.go:75-76 | splitting `a + "/" + b` splits `a` and `b` separately |
| Paths.LastSegment | internal/helm/fetch.go:75-76 | `cURL[len(cURL)-1]` contains no `/`, ends the URL, and is preceded by `/` unless it is the whole URL |
| Paths.Normalize | internal/helm/filesystem.go:95 | lexical resolution of separator-free segments yields names only, and no more of them than segments |
| Paths.ToPath | internal/helm/filesystem.go:20 | a cleaned path string resolves to a path of names only |
| Paths.SecureJoin | internal/helm/filesystem.go:95-98 | the joined path starts with the root, and what follows the root consists of names only: no `..` survives |
| Paths.FoldClean | internal/helm/filesystem.go:95 | a path of names is appended unchanged |
| Paths.NormalizeClean | internal/helm/filesystem.go:95 | a clean path is its own resolution |
| Paths.NormalizeIdempotent | internal/helm/filesystem.go:95 | resolving twice is resolving once |
| Paths.SecureJoinClampsParent | internal/helm/filesystem.go:95-98 | a leading `..` in the untrusted path is absorbed at the root: `SecureJoin(root, "../" + u) == SecureJoin(root, u)` |
| Paths.SecureJoinNames | internal/helm/filesystem.go:95 | an ordinary relative path of names lands at root followed by those names |
| Paths.SecureJoinIsPlainJoinWithoutParent | internal/helm/filesystem.go:95 | without `..` segments, SecureJoin agrees with resolving the plain concatenation |
| Vfs.AfterMkdirAll | internal/helm/filesystem.go:102-109 | `os.MkdirAll` on a clean path: its properties are stated by `Vfs.MkdirAllFrame` and `Vfs.MkdirAllSucceeds` |
| Vfs.AfterMkdirAllName | internal/helm/fetch.go:43-46 | `os.MkdirAll` on the configured destination string: its properties are stated by `Vfs.MkdirAllNameSucceeds` |
| Vfs.MkdirAllNameSucceeds | internal/helm/fetch.go:43-46 | in a tree, MkdirAll of a path string succeeds exactly when the string is not empty and no file lies on the way; an empty string fails with ENOENT, a blocked path with ENOTDIR; success leaves a tree |
| Vfs.AfterOpenFile | internal/helm/filesystem.go:112-115 | `O_CREATE\|O_RDWR` open: an existing file is returned unchanged, a missing one is created empty with the given mode exactly when its directory exists, and otherwise fails with the error of the walk to that directory (ENOENT, or ENOTDIR behind a file); a directory gives EISDIR; the tree stays a tree |
| Vfs.AfterCreate | internal/helm/filesystem.go:29-32 | `os.Create` leaves an empty file at the path, adds only that path, and changes no other node; the tree stays a tree |
| Vfs.OpenError | internal/helm/filesystem.go:20-23 | `os.Open` fails exactly when the path does not exist |
| Vfs.Overwrite | internal/helm/filesystem.go:117 | writing from offset 0 replaces the first bytes and keeps the rest of the old content |
| Vfs.AfterWrite | internal/helm/filesystem.go:117 | a write changes only the written file's content, keeps its mode and the tree |
| Vfs.AncestorsAreDirs | internal/helm/filesystem.go:106-109 | in a tree, every ancestor of an existing node is a directory |
| Vfs.MkdirAllFrame | internal/helm/filesystem.go:102-104 | `os.MkdirAll` fails only with ENOTDIR; on success the path is a directory, no existing node changes, and new nodes are directories with the given mode on the way to the path |
| Vfs.MkdirAllSucceeds | internal/helm/filesystem.go:107-109 | in a tree, MkdirAll succeeds exactly when no file lies on the way to the path, and leaves a tree |
| Vfs.LookupErrorIsNotDir | internal/helm/filesystem.go:20-23 | a failing path walk reports ENOTDIR exactly when a file lies on the way, otherwise ENOENT |
| Vfs.FileSystem.MkdirAll | internal/helm/filesystem.go:102 | the object changes as `AfterMkdirAll` says, or not at all on error |
| Vfs.FileSystem.MkdirAllName | internal/helm/fetch.go:43 | the object changes as `AfterMkdirAllName` says, or not at all on error |
| Vfs.FileSystem.OpenFile | internal/helm/filesystem.go:112 | the object changes as `AfterOpenFile` says, or not at all on error |
| Vfs.FileSystem.Create | internal/helm/filesystem.go:29 | the object changes as `AfterCreate` says, or not at all on error |
| Vfs.FileSystem.Write | internal/helm/filesystem.go:117 | the object changes as `AfterWrite` says |
| Archive.FileMode | internal/helm/filesystem.go:112 | `os.FileMode(header.Mode)` keeps the low 32 bits of the mode |
| Archive.Copied | internal/helm/filesystem.go:117 | `io.CopyN` moves a prefix of the entry's bytes of at most Size bytes, and fewer exactly when the entry is short, in which case it moves all the bytes there are |
| Archive.EntryTarget | internal/helm/filesystem.go:89-98 | where an entry lands: its properties are stated by `ArchiveLemmas.StripTopLevel`, `SkipWithoutSeparator` and `TopLevelEntryIsRoot` |
| Archive.EntryStep | internal/helm/filesystem.go:89-128 | one turn of the extraction loop: its behaviour for each entry type is stated by the `ArchiveLemmas` lemmas `DirectoryEntry`, `RegularFileFresh`, `RegularFileExisting`, `RegularFileRejected`, `PaxHeaderSkipped` and `UnknownTypeRejected` |
| Archive.ExtractEntries | internal/helm/filesystem.go:79-129 | the entries in order up to the first failure: stated by `ArchiveLemmas.ExtractEntriesAppend`, `StopsAtFailingEntry` and `EntriesStayUnder` |
| Archive.TarOutcome | internal/helm/filesystem.go:76-132 | `extractTar`: stated by `ArchiveLemmas.TarSucceedsIff` and `TarKeepsTree` |
| Archive.TarGzOutcome | internal/helm/filesystem.go:62-73 | `extractTarGz`: stated by `ArchiveLemmas.BadGzipChangesNothing` |
| Archive.ChartTgzOutcome | internal/helm/filesystem.go:47-59 | `extractChartTgz`: stated by `ArchiveLemmas.ChartTgzMissingSource`, `ChartTgzDirectorySource`, `ChartTgzDecoded` and `ChartTgzStaysUnder` |
| Archive.CopyOutcome | internal/helm/filesystem.go:19-44 | `copyChart`: stated by `ArchiveLemmas.CopyMissingSource`, `CopyMissingParent`, `CopySucceedsIff`, `CopyContents` and `CopyOntoItself` |
| Archive.ExtractTar | internal/helm/filesystem.go:76-132 | the loop leaves the filesystem and returns the error that `TarOutcome` gives, and keeps the tree |
| Archive.ExtractTarGz | internal/helm/filesystem.go:62-73 | behaves as `TarGzOutcome`: a bad gzip header fails at once, otherwise the tar extraction runs |
| Archive.ExtractChartTgz | internal/helm/filesystem.go:47-59 | behaves as `ChartTgzOutcome`: open errors, gzip errors and extraction errors, each wrapped as in the source |
| Archive.CopyChart | internal/helm/filesystem.go:19-44 | behaves as `CopyOutcome`: open the source, create the destination, copy |
| ArchiveLemmas.StripTopLevel | internal/helm/filesystem.go:89-95 | an entry `top/rest` lands at `SecureJoin(dst, rest)` |
| ArchiveLemmas.SkipWithoutSeparator | internal/helm/filesystem.go:90-93 | a name without `/` has no target and the entry changes nothing |
| ArchiveLemmas.TopLevelEntryIsRoot | internal/helm/filesystem.go:90-95 | the entry `chart/` targets the destination itself |
| ArchiveLemmas.TopLevelDirectoryEntry | internal/helm/filesystem.go:90-104 | the directory entry `chart/` only runs MkdirAll on the destination, succeeding exactly when no file is in the way |
| ArchiveLemmas.DirectoryEntry | internal/helm/filesystem.go:101-104 | a directory entry succeeds exactly when no file is in the way; it then adds its directory and missing ancestors with mode 0o750 and changes no existing node; on failure nothing changes and the error is "create directory" |
| ArchiveLemmas.RegularFileFresh | internal/helm/filesystem.go:105-121 | a new regular file gets its parent directories and holds the first Size bytes with the entry's mode; it succeeds exactly when the entry has Size bytes, and otherwise fails with "cannot copy file"; no existing node changes, and the only other new nodes are missing ancestors, as 0o750 directories |
| ArchiveLemmas.RegularFileExisting | internal/helm/filesystem.go:112-121 | over an existing file, the entry's bytes replace its beginning, the old tail beyond Size stays, and the mode is kept |
| ArchiveLemmas.RegularFileRejected | internal/helm/filesystem.go:106-115 | a file on the way to the parent gives "create parent folders for file"; a directory at the path gives "read file content"; nothing changes in either case |
| ArchiveLemmas.PaxHeaderSkipped | internal/helm/filesystem.go:124-125 | global and per-file extended headers change nothing |
| ArchiveLemmas.UnknownTypeRejected | internal/helm/filesystem.go:126-127 | any other type fails with the unknown-header error naming the type and the entry, changing nothing |
| ArchiveLemmas.ExtractEntriesAppend | internal/helm/filesystem.go:79-129 | entries run in archive order: extracting `a + b` is extracting `a`, then `b` unless `a` failed |
| ArchiveLemmas.StopsAtFailingEntry | internal/helm/filesystem.go:79-129 | the first failing entry decides the outcome: earlier effects stay, and later entries and the end of the stream play no part |
| ArchiveLemmas.TarSucceedsIff | internal/helm/filesystem.go:80-87 | a tar stream succeeds exactly when every entry does and it ends with the end-of-archive marker; a read error after good entries keeps their effects and gives "unable to read tar content" |
| ArchiveLemmas.BadGzipChangesNothing | internal/helm/filesystem.go:63-66 | invalid gzip fails with "unable to read gzip" before any entry |
| ArchiveLemmas.ChangesOnlyUnderTrans | internal/helm/filesystem.go:95-98 | confinement under a root composes |
| ArchiveLemmas.MkdirAllUnder | internal/helm/filesystem.go:102 | MkdirAll of a path under the root changes nothing outside the root except its missing ancestors |
| ArchiveLemmas.ParentsStayUnder | internal/helm/filesystem.go:106-107 | creating the parents of a target changes nothing outside the root except its missing ancestors |
| ArchiveLemmas.RegularFileStaysUnder | internal/helm/filesystem.go:105-121 | a regular-file entry changes nothing outside the destination |
| ArchiveLemmas.StepStaysUnder | internal/helm/filesystem.go:89-128 | any single entry changes nothing outside the destination |
| ArchiveLemmas.EntriesStayUnder | internal/helm/filesystem.go:79-129 | a sequence of entries changes nothing outside the destination |
| ArchiveLemmas.ChartTgzStaysUnder | internal/helm/filesystem.go:47-132 | whatever the entry names, `..` included, extracting a chart keeps every old node, creates or changes nodes only at or below the destination, and outside it creates at most the destination's missing ancestors, as directories |
| ArchiveLemmas.StepKeepsTree | internal/helm/filesystem.go:100-128 | each entry leaves a tree |
| ArchiveLemmas.TarKeepsTree | internal/helm/filesystem.go:76-132 | a whole extraction leaves a tree |
| ArchiveLemmas.ChartTgzMissingSource | internal/helm/filesystem.go:48-51 | a missing cached archive fails with "cannot open chart in repository cache", changing nothing |
| ArchiveLemmas.ChartTgzDecoded | internal/helm/filesystem.go:53-56 | invalid gzip changes nothing and is wrapped in "extracting tgz"; otherwise the filesystem is the one the tar extraction leaves, and a tar failure comes back as "extracting tgz" wrapping that failure |
| ArchiveLemmas.ChartTgzDirectorySource | internal/helm/filesystem.go:48-56 | a directory at the cache path opens, its first read in the gzip reader fails with EISDIR, and the error is "extracting tgz: unable to read gzip", with nothing changed |
| ArchiveLemmas.CopyMissingSource | internal/helm/filesystem.go:20-23 | a missing source fails with "cannot open chart in repository cache" before any destination is created |
| ArchiveLemmas.CopyMissingParent | internal/helm/filesystem.go:29-32 | a destination in a missing directory fails with "cannot create chart in target path" (ENOENT, or ENOTDIR behind a file), changing nothing |
| ArchiveLemmas.CopySucceedsIff | internal/helm/filesystem.go:19-44 | the copy succeeds exactly when the source is a file and the destination is a file or a new name in an existing directory |
| ArchiveLemmas.CopyContents | internal/helm/filesystem.go:19-43 | a copy from a file to another path that is a file or a new name in an existing directory succeeds, and the destination then holds exactly the source's bytes, with no other node changed |
| ArchiveLemmas.CopyOntoItself | internal/helm/filesystem.go:20-38 | copying a file onto itself empties it, since the destination is truncated before the read |
| Fetch.IsOCI | internal/helm/fetch.go:108 | `registry.IsOCI` as the `oci://` prefix test; used by `FetchLemmas.OciUrl` and `IndexUrl` |
| Fetch.ChartUrl | internal/helm/fetch.go:107-124 | `getChartURL`: stated by `FetchLemmas.OciUrl`, `IndexUrl` and `OciUrlEndsWithName` |
| Fetch.CopyTarget | internal/helm/fetch.go:75-76 | the raw-copy path: stated by `FetchLemmas.CopyTargetPath` and `OciCopyTarget` |
| Fetch.TaskOutcome | internal/helm/fetch.go:39-92 | one chart's task: stated by `FetchLemmas.TaskFollowsPipeline`, `DestinationBlocked`, `EmptyDestinationFails`, `UrlFailureStopsTask` and `CopyDeliversArchive` |
| Fetch.ResolveOutcome | internal/helm/fetch.go:58-92 | the task from URL resolution on: stated by `FetchLemmas.ResolveFollowsPipeline` and `UrlFailureStopsTask` |
| Fetch.DownloadOutcome | internal/helm/fetch.go:63-92 | the task from the download on: stated by `FetchLemmas.DownloadFollowsPipeline` and `DownloadFailureStopsTask` |
| Fetch.LandOutcome | internal/helm/fetch.go:70-81 | extraction or copy as Extract says: stated by `FetchLemmas.ExtractLandsUnderDestination` and `CopyDeliversArchive` |
| Fetch.FetchOutcome | internal/helm/fetch.go:26-100 | the whole run: stated by `FetchLemmas.RegistryClientFailure`, `EveryChartAttempted` and `FetchFailsIff` |
| Fetch.GetVerify | internal/helm/fetch.go:129-135 | the strategy is VerifyAlways exactly when Verify is set and VerifyNever otherwise; no other strategy occurs |
| Fetch.RunTasks | internal/helm/fetch.go:38-39 | one task result per scheduled chart |
| Fetch.FirstError | internal/helm/fetch.go:95-97 | no error exactly when every task succeeded; otherwise the error of a failing task with no failing task before it |
| Fetch.ResumeStep | internal/helm/fetch.go:38-93 | a run is its first task followed by the rest of the run on what that task left |
| Fetch.Store | internal/helm/fetch.go:63 | the archive is saved in the cache as `AfterStore` says |
| Fetch.RunChart | internal/helm/fetch.go:39-92 | the task body runs the steps of `TaskOutcome` with its early returns, handing the configured destination string to MkdirAll |
| Fetch.ResolveChart | internal/helm/fetch.go:58-61 | from URL resolution on, the task behaves as `ResolveOutcome` |
| Fetch.DownloadChart | internal/helm/fetch.go:63-85 | from the download on, the task behaves as `DownloadOutcome` |
| Fetch.FetchCharts | internal/helm/fetch.go:26-100 | the run behaves as `FetchOutcome`: client creation, then every task in turn, keeping the first error |
| FetchLemmas.OciUrl | internal/helm/fetch.go:108-110 | an OCI chart's URL is the repository, `/` and the name, whatever the index lookup would say |
| FetchLemmas.IndexUrl | internal/helm/fetch.go:112-123 | other charts get the URL the lookup finds; a failed lookup gives no URL and "unable to find chart in repository" |
| FetchLemmas.OciUrlEndsWithName | internal/helm/fetch.go:108-110 | the last segment of an OCI URL is the chart name |
| FetchLemmas.CopyTargetPath | internal/helm/fetch.go:75-76 | the copy target is the destination plus the URL's last segment; an empty or `.` segment names the destination itself, `..` its parent |
| FetchLemmas.OciCopyTarget | internal/helm/fetch.go:75-76 | an OCI chart is copied to the file of its name inside the destination |
| FetchLemmas.LandingFollowsPipeline | internal/helm/fetch.go:70-85 | the landing step completes the pipeline and its failure is wrapped in "unable to perform chart filemsystem action" |
| FetchLemmas.DownloadFollowsPipeline | internal/helm/fetch.go:63-85 | from the download on, steps run in order and the first failure ends the task |
| FetchLemmas.ResolveFollowsPipeline | internal/helm/fetch.go:58-85 | from the URL resolution on, steps run in order and the first failure ends the task |
| FetchLemmas.TaskFollowsPipeline | internal/helm/fetch.go:43-85 | a task runs a non-empty prefix of directory creation, resolution, download, landing; the first failure ends it and its error names that step; a task without error ran all steps; the landing is extraction exactly when Extract is set |
| FetchLemmas.DestinationBlocked | internal/helm/fetch.go:43-46 | a file in the way of the destination ends the task with "unable to create target directory" (ENOTDIR), changing nothing, whatever the library does |
| FetchLemmas.EmptyDestinationFails | internal/helm/fetch.go:43-46 | an empty destination ends the task with "unable to create target directory" (ENOENT), changing nothing |
| FetchLemmas.UrlFailureStopsTask | internal/helm/fetch.go:58-61 | a URL that cannot be resolved ends the task with "failed to get chart full URL": the filesystem is what creating the destination left, and the result is the same whatever the download and archive readers would do |
| FetchLemmas.DownloadFailureStopsTask | internal/helm/fetch.go:63-66 | a failed download leaves the filesystem as it was, and a failed cache write leaves what that write left, each ending the task with "unable to download chart" before any landing and whatever the archive readers would do |
| FetchLemmas.StoreKeepsArchive | internal/helm/fetch.go:63 | a stored archive is in the cache with exactly the downloaded bytes, and the tree stays a tree |
| FetchLemmas.ExtractLandsUnderDestination | internal/helm/fetch.go:70-73 | extraction changes nothing outside the chart's destination except its missing ancestors |
| FetchLemmas.CopyDeliversArchive | internal/helm/fetch.go:43-85 | a raw-copy task for an OCI chart whose cache file is not the target itself, if it succeeds, leaves exactly the downloaded bytes in the file named after the chart in its destination |
| FetchLemmas.RegistryClientFailure | internal/helm/fetch.go:31-34 | a failing registry client stops the run before any chart, changing nothing |
| FetchLemmas.TaskAt | internal/helm/fetch.go:38-39 | task i runs chart order[i] on the filesystem the first i tasks left, whether or not they failed |
| FetchLemmas.EveryChartAttempted | internal/helm/fetch.go:36-39 | every chart gets a task, which starts by creating its destination, regardless of other charts' failures |
| FetchLemmas.FetchFailsIff | internal/helm/fetch.go:95-99 | with a registry client, the run fails exactly when some task failed, and then with the first task error wrapped in "unable to download charts" |

## Left out

- Concurrency: `FetchCharts` runs each task in a goroutine of an `errgroup.Group`. The model runs the tasks one after another in any order (`order` is a parameter), so steps of different tasks never interleave. `errgroup`'s first error is the error of the first task in that order that fails.
- Logging through `slog` and the signature log line after a download are left out; they do not affect results.
- The Helm library is represented by functions the model does not look into (`Fetch.Helm`):
  - `registry.NewClient`;
  - `repo.FindChartInRepoURL`, which fetches and parses the index;
  - `ChartDownloader.DownloadToCache`, including verification;
  - the gzip and tar readers that turn archive bytes into entries.
- `registry.IsOCI` is modelled only as the `oci://` prefix test.
- Fetch.Store: the download's write into the cache is modelled as creating the cache directory with mode 0o750, then creating the file and writing the archive there. The library's own file handling and modes are not modelled.
- `tar.Reader` header parsing and gzip decompression are not modelled. The input is the entries `Next` returns, followed by the end-of-archive marker or a read error. An entry's data shorter than its Size stands for a stream that ends inside the entry.
- The symbolic-link resolution of `securejoin`, and its error path at `internal/helm/filesystem.go:96-97`, are left out. The filesystem has no symbolic links, since nothing in the core creates one.
- Paths are absolute: relative paths and the working directory are not modelled.
- Fetch.TaskOutcome: a non-empty destination string is resolved lexically before `os.MkdirAll`, so its `..` segments are not walked through the directory before them. For `x/../b` the kernel creates `x` if it is missing, and fails with ENOTDIR if `x` is a file; the model creates only `b`. Modelling this would need a path walk over unresolved segments, which nothing else in the core needs: every other path is cleaned (`filepath.Clean`, `path.Join`, `securejoin`) before it reaches the filesystem.
- ExtractChartTgz and ChartTgzOutcome: the cached archive is decoded from the bytes it holds when it is opened, while `extractChartTgz` streams from the open file. If the cache path lies at or below the destination and an entry overwrites the archive while it is being read, the code reads the new bytes and the model does not. The model does mirror the similar aliasing in `copyChart`, where a copy onto itself truncates before reading (`ArchiveLemmas.CopyOntoItself`).
- Permission bits: umask, and the translation of Go file modes to system modes, are not modelled. A node keeps the mode number it was created with.
- File handles and closing are not modelled. This includes the file `extractChartTgz` never closes, and the partial content left behind when `io.Copy` fails in the middle.
- The three-step landing of `copyChart` and the per-entry writes are atomic in the model: a write either happens in full or, for a short entry, writes what there is.
- `internal/config/parser.go` (schema validation through a library), `internal/helm/settings.go` (environment variables), `cmd/*.go`, `main.go` and the version strings are not part of this model.
