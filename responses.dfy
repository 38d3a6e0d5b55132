/** The service's HTTP answers and the two classifications that choose them: the outcome
    of an encoder run that returned, and the exception that ended a request early. */
module Responses {
  import opened Paths

  /** A response body: an error object (optionally with the encoder's diagnostics), the
      descriptor of a created video, or a file sent as an attachment. */
  datatype Body =
    | ErrorBody(error: string)
    | FailureDetails(error: string, details: string)
    | Created(message: string, videoPath: string, videoUrl: string, filename: string)
    | Attachment(path: string, downloadName: string, mimetype: string)

  datatype Response = Response(status: int, body: Body)

  /** The exceptions `create_video` catches, in the order its handlers match them. */
  datatype Raised =
    | DownloadTimeout
    | EncoderTimeout
    | OtherException(message: string)

  /** The answer to a caught exception. Timeouts are told apart from other failures: they,
      and only they, give 504. */
  function ErrorResponse(e: Raised): (r: Response)
    ensures r.body.ErrorBody?
    ensures r.status == 504 <==> e.DownloadTimeout? || e.EncoderTimeout?
    ensures r.status == 500 <==> e.OtherException?
    ensures e.DownloadTimeout? ==> r.body.error == "Download timeout"
    ensures e.EncoderTimeout? ==> r.body.error == "FFmpeg timeout"
    ensures e.OtherException? ==> r.body.error == e.message
  {
    match e
    case DownloadTimeout => Response(504, ErrorBody("Download timeout"))
    case EncoderTimeout => Response(504, ErrorBody("FFmpeg timeout"))
    case OtherException(message) => Response(500, ErrorBody(message))
  }

  /** The answer once the encoder has returned, decided in order: a non-zero exit code
      first, then a missing output file; only a clean exit with the file present succeeds,
      and then the descriptor names the file by its basename and points at its download route. */
  function Classify(code: int, stderr: string, outputExists: bool, outputPath: string): (r: Response)
    ensures r.status == 200 <==> code == 0 && outputExists
    ensures r.status == 200 || r.status == 500
    ensures code != 0 ==> r.body == FailureDetails("FFmpeg failed", stderr)
    ensures code == 0 && !outputExists ==> r.body == ErrorBody("Video file was not created")
    ensures r.status == 200 ==>
      r.body.Created? && r.body.videoPath == outputPath &&
      r.body.filename == Basename(outputPath) && r.body.videoUrl == "/download/" + r.body.filename
  {
    if code != 0 then
      Response(500, FailureDetails("FFmpeg failed", stderr))
    else if !outputExists then
      Response(500, ErrorBody("Video file was not created"))
    else
      var name := Basename(outputPath);
      Response(200, Created("Video created successfully", outputPath, "/download/" + name, name))
  }
}
