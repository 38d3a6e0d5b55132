/** The `/create-video` pipeline and the `/download/<filename>` lookup. The pipeline is
    given once as a function of the directory's contents, the request, the request id and
    what the outside collaborators do (`CreateVideoResult`), and once as the step-by-step
    method that changes the shared directory (`CreateVideo`), proved to agree with it. */
module App {
  import opened Types
  import opened Paths
  import opened EncoderCommand
  import opened Responses
  import opened Scratch

  const DEFAULT_OUTPUT_FILENAME: string := "output_video.mp4"
  const URLS_REQUIRED: Response := Response(400, ErrorBody("audio_url and image_url are required"))
  const FILES_REQUIRED: Response := Response(400, ErrorBody("audio and image files are required"))

  /** A JSON field value that is truthy: present and not empty. */
  predicate Truthy(v: Option<string>) {
    v.Some? && v.value != ""
  }

  /** The request lacks what its shape needs: a truthy `audio_url` and `image_url` for
      JSON, an `audio` and an `image` file part otherwise. An unreadable JSON body raises
      before this check is reached. */
  predicate MissingFields(req: Request) {
    match req
    case JsonRequest(JsonObject(audioUrl, imageUrl, _)) => !Truthy(audioUrl) || !Truthy(imageUrl)
    case JsonRequest(JsonUnreadable(_)) => false
    case MultipartRequest(audio, image, _) => audio.None? || image.None?
  }

  /** The `output_filename` field of the JSON body or of the form, if the client sent one. */
  function RequestedFilename(req: Request): Option<string> {
    match req
    case JsonRequest(JsonObject(_, _, name)) => name
    case JsonRequest(JsonUnreadable(_)) => None
    case MultipartRequest(_, _, name) => name
  }

  function OutputFilename(req: Request): string {
    RequestedFilename(req).GetOr(DEFAULT_OUTPUT_FILENAME)
  }

  /** Where the audio input is stored: a fixed `.mp3` name for a download, the sanitised
      client file name for an upload. */
  function AudioPath(req: Request, id: RequestId, secure: string -> string): Path {
    match req
    case MultipartRequest(Some(part), _, _) => ArtifactPath(AudioInput, id, "_" + secure(part.filename))
    case _ => ArtifactPath(AudioInput, id, ".mp3")
  }

  function ImagePath(req: Request, id: RequestId, secure: string -> string): Path {
    match req
    case MultipartRequest(_, Some(part), _) => ArtifactPath(ImageInput, id, "_" + secure(part.filename))
    case _ => ArtifactPath(ImageInput, id, ".jpg")
  }

  function OutputPath(req: Request, id: RequestId): Path {
    ArtifactPath(VideoOutput, id, "_" + OutputFilename(req))
  }

  /** The exception a failed download raises. */
  function DownloadRaised(d: Download): Raised
    requires !d.Fetched?
  {
    if d.FetchTimedOut? then DownloadTimeout else OtherException(d.message)
  }

  /** The request gets as far as running the encoder: it is well formed and, for URLs,
      both downloads returned a response. */
  predicate ReachesEncoder(req: Request, audioDl: Download, imageDl: Download) {
    match req
    case JsonRequest(body) => body.JsonObject? && !MissingFields(req) && audioDl.Fetched? && imageDl.Fetched?
    case MultipartRequest(_, _, _) => !MissingFields(req)
  }

  /** The bytes stored as the audio and image inputs once the request reaches the encoder. */
  function AudioBytes(req: Request, audioDl: Download): Bytes
    requires req.JsonRequest? ==> audioDl.Fetched?
    requires req.MultipartRequest? ==> req.audio.Some?
  {
    if req.JsonRequest? then audioDl.content else req.audio.value.content
  }

  function ImageBytes(req: Request, imageDl: Download): Bytes
    requires req.JsonRequest? ==> imageDl.Fetched?
    requires req.MultipartRequest? ==> req.image.Some?
  {
    if req.JsonRequest? then imageDl.content else req.image.value.content
  }

  /** Everything one `/create-video` request produces: its response, the directory's
      contents afterwards, and the external calls it made, in order. */
  datatype Run = Run(response: Response, files: FileMap, calls: seq<Call>)

  /** The first half of the pipeline: the request either stops (with its run) or has its
      two inputs stored and is ready for the encoder. */
  datatype Acquisition = Acquired(files: FileMap, calls: seq<Call>) | Stopped(run: Run)

  function Acquire(files: FileMap, req: Request, id: RequestId, secure: string -> string,
                   audioDl: Download, imageDl: Download): Acquisition
  {
    if MissingFields(req) then
      Stopped(Run(if req.JsonRequest? then URLS_REQUIRED else FILES_REQUIRED, files, []))
    else match req
      case JsonRequest(JsonUnreadable(reason)) =>
        Stopped(Run(ErrorResponse(OtherException(reason)), files, []))
      case JsonRequest(JsonObject(audioUrl, imageUrl, _)) =>
        var audioCall := [HttpGet(audioUrl.value, DOWNLOAD_TIMEOUT_SECONDS)];
        if !audioDl.Fetched? then
          Stopped(Run(ErrorResponse(DownloadRaised(audioDl)), files, audioCall))
        else
          var withAudio := files[AudioPath(req, id, secure) := audioDl.content];
          var bothCalls := audioCall + [HttpGet(imageUrl.value, DOWNLOAD_TIMEOUT_SECONDS)];
          if !imageDl.Fetched? then
            Stopped(Run(ErrorResponse(DownloadRaised(imageDl)), withAudio, bothCalls))
          else
            Acquired(withAudio[ImagePath(req, id, secure) := imageDl.content], bothCalls)
      case MultipartRequest(audio, image, _) =>
        Acquired(files[AudioPath(req, id, secure) := audio.value.content]
                      [ImagePath(req, id, secure) := image.value.content], [])
  }

  /** What the encoder left at the output path, placed in the directory. */
  function Place(files: FileMap, path: Path, written: Option<Bytes>): FileMap {
    if written.Some? then files[path := written.value] else files
  }

  /** The second half: run the encoder; if it returns, delete both inputs and classify;
      if it raises, answer for the exception and delete nothing. In every case what the
      process wrote at the output path stays there. */
  function Encode(files: FileMap, calls: seq<Call>, audio: Path, image: Path, output: Path,
                  enc: EncoderRun): Run
  {
    var ran := calls + [RunEncoder(EncoderArgv(image, audio, output), ENCODER_TIMEOUT_SECONDS)];
    var placed := Place(files, output, enc.output);
    match enc
    case Exited(code, stderr, _) =>
      var after := placed - {audio, image};
      Run(Classify(code, stderr, output in after, output), after, ran)
    case EncoderTimedOut(_) =>
      Run(ErrorResponse(EncoderTimeout), placed, ran)
    case EncoderRaised(message, _) =>
      Run(ErrorResponse(OtherException(message)), placed, ran)
  }

  /** The whole of one `/create-video` request. */
  function CreateVideoResult(files: FileMap, req: Request, id: RequestId, secure: string -> string,
                             audioDl: Download, imageDl: Download, enc: EncoderRun): Run
  {
    match Acquire(files, req, id, secure, audioDl, imageDl)
    case Stopped(run) => run
    case Acquired(inputs, calls) =>
      Encode(inputs, calls, AudioPath(req, id, secure), ImagePath(req, id, secure), OutputPath(req, id), enc)
  }

  /** `/create-video`, step by step against the shared directory. The two downloads and
      the encoder run are given as what they will do; `secure` is the file-name sanitiser
      applied to uploaded names; `calls` records the external calls made. */
  method CreateVideo(dir: ScratchDir, req: Request, id: RequestId, secure: string -> string,
                     audioDl: Download, imageDl: Download, enc: EncoderRun)
    returns (response: Response, calls: seq<Call>)
    modifies dir
    ensures Run(response, dir.files, calls)
         == CreateVideoResult(old(dir.files), req, id, secure, audioDl, imageDl, enc)
  {
    var stopped;
    stopped, calls := StoreInputs(dir, req, id, secure, audioDl, imageDl);
    if stopped.Some? {
      return stopped.value, calls;
    }
    response, calls := EncodeAndCleanUp(dir, calls, AudioPath(req, id, secure),
                                        ImagePath(req, id, secure), OutputPath(req, id), enc);
  }

  /** The first half of `/create-video`: validate the request and store its two inputs,
      downloading them first for the JSON shape. `stopped` is the response of a request
      that ends here. */
  method StoreInputs(dir: ScratchDir, req: Request, id: RequestId, secure: string -> string,
                     audioDl: Download, imageDl: Download)
    returns (stopped: Option<Response>, calls: seq<Call>)
    modifies dir
    ensures var acq := Acquire(old(dir.files), req, id, secure, audioDl, imageDl);
      if acq.Stopped? then stopped == Some(acq.run.response) && dir.files == acq.run.files && calls == acq.run.calls
      else stopped == None && dir.files == acq.files && calls == acq.calls
  {
    calls := [];
    match req {
      case JsonRequest(body) =>
        if body.JsonUnreadable? {
          return Some(ErrorResponse(OtherException(body.reason))), calls;
        }
        if !Truthy(body.audioUrl) || !Truthy(body.imageUrl) {
          return Some(URLS_REQUIRED), calls;
        }
        var audioPath := ArtifactPath(AudioInput, id, ".mp3");
        var imagePath := ArtifactPath(ImageInput, id, ".jpg");
        calls := calls + [HttpGet(body.audioUrl.value, DOWNLOAD_TIMEOUT_SECONDS)];
        if !audioDl.Fetched? {
          return Some(ErrorResponse(DownloadRaised(audioDl))), calls;
        }
        dir.Write(audioPath, audioDl.content);
        calls := calls + [HttpGet(body.imageUrl.value, DOWNLOAD_TIMEOUT_SECONDS)];
        if !imageDl.Fetched? {
          return Some(ErrorResponse(DownloadRaised(imageDl))), calls;
        }
        dir.Write(imagePath, imageDl.content);
      case MultipartRequest(audio, image, _) =>
        if audio.None? || image.None? {
          return Some(FILES_REQUIRED), calls;
        }
        var audioPath := ArtifactPath(AudioInput, id, "_" + secure(audio.value.filename));
        var imagePath := ArtifactPath(ImageInput, id, "_" + secure(image.value.filename));
        dir.Write(audioPath, audio.value.content);
        dir.Write(imagePath, image.value.content);
    }
    stopped := None;
  }

  /** The second half of `/create-video`: run the encoder on the stored inputs; once it
      returns, delete whichever inputs exist and classify the outcome. */
  method EncodeAndCleanUp(dir: ScratchDir, callsBefore: seq<Call>, audioPath: Path, imagePath: Path,
                          outputPath: Path, enc: EncoderRun)
    returns (response: Response, calls: seq<Call>)
    modifies dir
    ensures Run(response, dir.files, calls)
         == Encode(old(dir.files), callsBefore, audioPath, imagePath, outputPath, enc)
  {
    calls := callsBefore + [RunEncoder(EncoderArgv(imagePath, audioPath, outputPath), ENCODER_TIMEOUT_SECONDS)];
    if enc.output.Some? {
      dir.Write(outputPath, enc.output.value);
    }
    assert dir.files == Place(old(dir.files), outputPath, enc.output);
    match enc {
      case EncoderRaised(message, _) =>
        response := ErrorResponse(OtherException(message));
      case EncoderTimedOut(_) =>
        response := ErrorResponse(EncoderTimeout);
      case Exited(code, stderr, _) =>
        RemoveInputs(dir, audioPath, imagePath);
        response := Classify(code, stderr, dir.Exists(outputPath), outputPath);
    }
  }

  /** The cleanup once the encoder has returned: each input that exists is removed, and
      nothing else changes. */
  method RemoveInputs(dir: ScratchDir, audioPath: Path, imagePath: Path)
    modifies dir
    ensures dir.files == old(dir.files) - {audioPath, imagePath}
  {
    if dir.Exists(audioPath) {
      dir.Remove(audioPath);
    }
    if dir.Exists(imagePath) {
      dir.Remove(imagePath);
    }
  }

  /** `/download/<filename>`: the file of that name in the scratch directory, sent as an
      MP4 attachment under the same name, or 404 when there is no such file. */
  function DownloadFile(files: FileMap, filename: string): (r: Response)
    ensures r.status == 200 <==> Join(TEMP_DIR, filename) in files
    ensures r.status == 200 ==> r.body == Attachment(Join(TEMP_DIR, filename), filename, "video/mp4")
    ensures r.status != 200 ==> r == Response(404, ErrorBody("File not found"))
  {
    var path := Join(TEMP_DIR, filename);
    if path in files then Response(200, Attachment(path, filename, "video/mp4"))
    else Response(404, ErrorBody("File not found"))
  }
}
