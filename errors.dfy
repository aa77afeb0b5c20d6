/** Values shared by the whole model: optional values, results, and the
    errors that the extractor, the copier and the fetcher return. Go wraps an
    error with `fmt.Errorf("<context>: %w", err)`; the model keeps the chain as
    `Wrap(context, inner)`, and `Text(context)` is the string a caller (and
    the tests) find in `err.Error()`. */
module Errors {

  datatype Option<+T> = None | Some(value: T)

  datatype Result<+T> = Ok(value: T) | Err(error: Error)

  /** The operating-system and I/O conditions the model distinguishes. */
  datatype IoError =
    | NotExist       // ENOENT: a path component is missing
    | NotDir         // ENOTDIR: a path component is a regular file
    | IsDir          // EISDIR: a file operation on a directory
    | UnexpectedEof  // io.ErrUnexpectedEOF: the stream ended inside an entry

  datatype Error =
    | Io(code: IoError)
      /** An error produced by code outside the model (a gzip or tar decoder,
          the Helm library); its text is opaque. */
    | Foreign(text: string)
      /** `fmt.Errorf("%w: %b in %s", errUnknownHeaderType, typeflag, name)` */
    | UnknownHeaderType(typeflag: int, name: string)
    | Wrap(context: Context, inner: Error)

  /** The contexts the core wraps errors in; `Text` gives the prefix each
      puts in front of the wrapped error's message. */
  datatype Context =
    // internal/helm/filesystem.go
    | OpenCacheMsg | CreateTargetMsg | CopyStreamMsg | ExtractTgzMsg | GzipMsg | TarReadMsg
    | CreateDirMsg | CreateParentMsg | OpenFileMsg | CopyFileMsg
    // internal/helm/fetch.go
    | RegistryClientMsg | TargetDirMsg | ChartUrlMsg | FindChartMsg | DownloadMsg | LandMsg
    | FetchChartsMsg

  function Text(c: Context): string
  {
    match c
    case OpenCacheMsg => "cannot open chart in repository cache"
    case CreateTargetMsg => "cannot create chart in target path"
    case CopyStreamMsg => "copy source chart to destination"
    case ExtractTgzMsg => "extracting tgz"
    case GzipMsg => "unable to read gzip"
    case TarReadMsg => "unable to read tar content"
    case CreateDirMsg => "create directory"
    case CreateParentMsg => "create parent folders for file"
    case OpenFileMsg => "read file content"
    case CopyFileMsg => "cannot copy file"
    case RegistryClientMsg => "cannot create new OCI registry client"
    case TargetDirMsg => "unable to create target directory"
    case ChartUrlMsg => "failed to get chart full URL"
    case FindChartMsg => "unable to find chart in repository"
    case DownloadMsg => "unable to download chart"
    case LandMsg => "unable to perform chart filemsystem action"
    case FetchChartsMsg => "unable to download charts"
  }
}
