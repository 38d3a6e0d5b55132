/** Values exchanged between the video service and the world around it: the request as the
    web framework hands it over, the scratch directory's contents, and what the two outside
    collaborators (the HTTP client and the encoder process) report back. */
module Types {

  datatype Option<+T> = None | Some(value: T) {
    function GetOr(default: T): T {
      match this
      case Some(v) => v
      case None => default
    }
  }

  newtype Byte = b: int | 0 <= b < 256
  type Bytes = seq<Byte>

  /** An absolute path in the scratch directory. */
  type Path = string

  /** The scratch directory: which paths exist and what each holds. */
  type FileMap = map<Path, Bytes>

  /** A multipart file part: the client's declared file name and the uploaded bytes. */
  datatype Upload = Upload(filename: string, content: Bytes)

  /** The body of a request sent as JSON. A body that does not parse, or that parses to
      something other than an object, makes reading its fields raise. */
  datatype JsonBody =
    | JsonObject(audioUrl: Option<string>, imageUrl: Option<string>, outputFilename: Option<string>)
    | JsonUnreadable(reason: string)

  /** The two request shapes `create_video` tells apart: a JSON body carrying URLs, and
      anything else, read as a multipart form with `audio` and `image` file parts. */
  datatype Request =
    | JsonRequest(body: JsonBody)
    | MultipartRequest(audio: Option<Upload>, image: Option<Upload>, outputFilename: Option<string>)

  /** What one HTTP GET of the client library does: it returns the response whatever its
      status code, raises its Timeout exception, or raises some other error. */
  datatype Download =
    | Fetched(status: int, content: Bytes)
    | FetchTimedOut
    | FetchFailed(message: string)

  /** What one run of the encoder process does: it exits with a code and its captured error
      text, or is killed when its time budget expires, or the call raises some other error,
      either before the process starts or after it has exited (decoding its captured text as
      UTF-8, say). `output` is what the process left at its output path, if it wrote there. */
  datatype EncoderRun =
    | Exited(code: int, stderr: string, output: Option<Bytes>)
    | EncoderTimedOut(output: Option<Bytes>)
    | EncoderRaised(message: string, output: Option<Bytes>)

  /** An effect on the world outside the scratch directory, with its timeout in seconds. */
  datatype Call =
    | HttpGet(url: string, timeout: nat)
    | RunEncoder(argv: seq<string>, timeout: nat)

  const DOWNLOAD_TIMEOUT_SECONDS: nat := 60
  const ENCODER_TIMEOUT_SECONDS: nat := 300
}
