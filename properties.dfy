/** What one `/create-video` request does to the shared directory and to the world, stated
    over `CreateVideoResult` (which `App.CreateVideo` is proved to follow), and how its
    answer relates to `/download`. */
module CreateVideoProperties {
  import opened Types
  import opened Paths
  import opened EncoderCommand
  import opened Responses
  import opened App

  /** A JSON request whose fields passed validation, so that downloads are attempted. */
  predicate DownloadsAttempted(req: Request) {
    req.JsonRequest? && req.body.JsonObject? && !MissingFields(req)
  }

  /** Within one request the audio, image and output paths are pairwise distinct; all
      three lie directly under the scratch directory, carry their role's prefix and embed
      the request id. */
  lemma RequestPathsDistinct(req: Request, id: RequestId, secure: string -> string)
    ensures var a, i, o := AudioPath(req, id, secure), ImagePath(req, id, secure), OutputPath(req, id);
      && a != i && a != o && i != o
      && a[..5] == "/tmp/" && i[..5] == "/tmp/" && o[..5] == "/tmp/"
      && a[5..11] == "audio_" && i[5..11] == "image_" && o[5..11] == "video_"
      && a[11..19] == id && i[11..19] == id && o[11..19] == id
  {
    var a, i, o := AudioPath(req, id, secure), ImagePath(req, id, secure), OutputPath(req, id);
    assert a[5] == 'a' && i[5] == 'i' && o[5] == 'v' by {
      assert a[5] == a[5..11][0] && i[5] == i[5..11][0] && o[5] == o[5..11][0];
    }
  }

  /** Two requests with different ids never touch a common path. */
  lemma RequestsNeverCollide(req1: Request, id1: RequestId, secure1: string -> string,
                             req2: Request, id2: RequestId, secure2: string -> string)
    requires id1 != id2
    ensures {AudioPath(req1, id1, secure1), ImagePath(req1, id1, secure1), OutputPath(req1, id1)}
         !! {AudioPath(req2, id2, secure2), ImagePath(req2, id2, secure2), OutputPath(req2, id2)}
  {
    var p1 := [AudioPath(req1, id1, secure1), ImagePath(req1, id1, secure1), OutputPath(req1, id1)];
    var p2 := [AudioPath(req2, id2, secure2), ImagePath(req2, id2, secure2), OutputPath(req2, id2)];
    forall m, n | 0 <= m < 3 && 0 <= n < 3 ensures p1[m] != p2[n] {
      var r1, r2 := [AudioInput, ImageInput, VideoOutput][m], [AudioInput, ImageInput, VideoOutput][n];
      assert p1[m] == ArtifactPath(r1, id1, p1[m][19..]);
      assert p2[n] == ArtifactPath(r2, id2, p2[n][19..]);
      ArtifactPathsDistinct(r1, id1, p1[m][19..], r2, id2, p2[n][19..]);
    }
  }

  /** A JSON body that cannot be read as an object raises before validation: the answer is
      500 with the exception's message, nothing is written and no external call is made. */
  lemma UnreadableBodyTouchesNothing(files: FileMap, reason: string, id: RequestId, secure: string -> string,
                                     audioDl: Download, imageDl: Download, enc: EncoderRun)
    ensures CreateVideoResult(files, JsonRequest(JsonUnreadable(reason)), id, secure, audioDl, imageDl, enc)
         == Run(Response(500, ErrorBody(reason)), files, [])
  {
  }

  /** 400 is the answer exactly when a required field or part is missing, and then nothing
      is downloaded, nothing is written and the encoder does not run. */
  lemma MissingFieldsTouchNothing(files: FileMap, req: Request, id: RequestId, secure: string -> string,
                                  audioDl: Download, imageDl: Download, enc: EncoderRun)
    ensures var run := CreateVideoResult(files, req, id, secure, audioDl, imageDl, enc);
      && (run.response.status == 400 <==> MissingFields(req))
      && (MissingFields(req) ==>
            run.files == files && run.calls == [] &&
            run.response.body == ErrorBody(if req.JsonRequest? then "audio_url and image_url are required"
                                           else "audio and image files are required"))
  {
  }

  /** The external calls of a request, in order: for URLs, the audio GET and, only if it
      returned, the image GET, each with a 60-second timeout; then, only if both inputs are
      stored, one encoder run on exactly the fixed argument vector, with a 300-second timeout. */
  lemma ExternalCallsInOrder(files: FileMap, req: Request, id: RequestId, secure: string -> string,
                             audioDl: Download, imageDl: Download, enc: EncoderRun)
    ensures CreateVideoResult(files, req, id, secure, audioDl, imageDl, enc).calls
         == (if DownloadsAttempted(req) then
               [HttpGet(req.body.audioUrl.value, 60)]
               + (if audioDl.Fetched? then [HttpGet(req.body.imageUrl.value, 60)] else [])
             else [])
          + (if ReachesEncoder(req, audioDl, imageDl) then
               [RunEncoder(EncoderArgv(ImagePath(req, id, secure), AudioPath(req, id, secure),
                                       OutputPath(req, id)), 300)]
             else [])
  {
  }

  /** A request that reaches the encoder has stored exactly its two inputs. */
  lemma InputsStored(files: FileMap, req: Request, id: RequestId, secure: string -> string,
                     audioDl: Download, imageDl: Download, enc: EncoderRun)
    requires ReachesEncoder(req, audioDl, imageDl)
    ensures var acq := Acquire(files, req, id, secure, audioDl, imageDl);
      && acq.Acquired?
      && acq.files == files[AudioPath(req, id, secure) := AudioBytes(req, audioDl)]
                           [ImagePath(req, id, secure) := ImageBytes(req, imageDl)]
      && CreateVideoResult(files, req, id, secure, audioDl, imageDl, enc)
         == Encode(acq.files, acq.calls, AudioPath(req, id, secure), ImagePath(req, id, secure),
                   OutputPath(req, id), enc)
  {
  }

  /** Once the encoder returns, whatever its exit code, neither input exists; every other
      file that was there before is still there, unchanged, except at the output path;
      nothing new exists but the output; and the output exists exactly when it existed
      before or the encoder wrote it. */
  lemma InputsGoneOnceEncoderReturns(files: FileMap, req: Request, id: RequestId, secure: string -> string,
                                     audioDl: Download, imageDl: Download, enc: EncoderRun)
    requires ReachesEncoder(req, audioDl, imageDl) && enc.Exited?
    ensures var run := CreateVideoResult(files, req, id, secure, audioDl, imageDl, enc);
      var a, i, o := AudioPath(req, id, secure), ImagePath(req, id, secure), OutputPath(req, id);
      && a !in run.files && i !in run.files
      && (forall p :: p in files && p != a && p != i && p != o ==> p in run.files && run.files[p] == files[p])
      && (forall p :: p in run.files ==> p in files || p == o)
      && (o in run.files <==> o in files || enc.output.Some?)
  {
    RequestPathsDistinct(req, id, secure);
    InputsStored(files, req, id, secure, audioDl, imageDl, enc);
  }

  /** The exception handlers delete nothing: when the encoder times out or raises, the
      directory is the one holding both stored inputs, plus whatever the process left at the
      output path; in particular both inputs are still there with the bytes that were stored. */
  lemma InputsKeptWhenEncoderRaises(files: FileMap, req: Request, id: RequestId, secure: string -> string,
                                    audioDl: Download, imageDl: Download, enc: EncoderRun)
    requires ReachesEncoder(req, audioDl, imageDl) && !enc.Exited?
    ensures var run := CreateVideoResult(files, req, id, secure, audioDl, imageDl, enc);
      var a, i, o := AudioPath(req, id, secure), ImagePath(req, id, secure), OutputPath(req, id);
      && run.files == Place(files[a := AudioBytes(req, audioDl)][i := ImageBytes(req, imageDl)], o, enc.output)
      && a in run.files && run.files[a] == AudioBytes(req, audioDl)
      && i in run.files && run.files[i] == ImageBytes(req, imageDl)
  {
    RequestPathsDistinct(req, id, secure);
    InputsStored(files, req, id, secure, audioDl, imageDl, enc);
  }

  /** A failed image download leaves the downloaded audio file behind, and the audio file
      holds the response body whatever the HTTP status of the audio download was. A failed
      audio download changes nothing. */
  lemma DownloadFailureLeavesAudio(files: FileMap, req: Request, id: RequestId, secure: string -> string,
                                   audioDl: Download, imageDl: Download, enc: EncoderRun)
    requires DownloadsAttempted(req)
    ensures var run := CreateVideoResult(files, req, id, secure, audioDl, imageDl, enc);
      && (!audioDl.Fetched? ==> run.files == files)
      && (audioDl.Fetched? && !imageDl.Fetched? ==>
            run.files == files[AudioPath(req, id, secure) := audioDl.content])
  {
  }

  /** 504 is the answer exactly when a download or the encoder ran out of time. */
  lemma TimeoutsAnswer504(files: FileMap, req: Request, id: RequestId, secure: string -> string,
                          audioDl: Download, imageDl: Download, enc: EncoderRun)
    ensures CreateVideoResult(files, req, id, secure, audioDl, imageDl, enc).response.status == 504
        <==> || (DownloadsAttempted(req) && (audioDl.FetchTimedOut? || (audioDl.Fetched? && imageDl.FetchTimedOut?)))
             || (ReachesEncoder(req, audioDl, imageDl) && enc.EncoderTimedOut?)
  {
  }

  /** 200 is the answer exactly when the encoder exited with code 0 and a file is at the
      output path afterwards, whether it wrote one or one was already there. */
  lemma SucceedsExactly(files: FileMap, req: Request, id: RequestId, secure: string -> string,
                        audioDl: Download, imageDl: Download, enc: EncoderRun)
    ensures CreateVideoResult(files, req, id, secure, audioDl, imageDl, enc).response.status == 200
        <==> && ReachesEncoder(req, audioDl, imageDl) && enc.Exited? && enc.code == 0
             && (OutputPath(req, id) in files || enc.output.Some?)
  {
    if ReachesEncoder(req, audioDl, imageDl) {
      RequestPathsDistinct(req, id, secure);
      InputsStored(files, req, id, secure, audioDl, imageDl, enc);
    }
  }

  /** A hexadecimal id holds no separator. */
  lemma IdHasNoSeparator(id: RequestId)
    ensures '/' !in id
  {
  }

  /** The output file's basename is `video_<id>_<output_filename>`, and joining that name
      onto the scratch directory gives the output path back. */
  lemma OutputNameRoundTrip(req: Request, id: RequestId)
    requires '/' !in OutputFilename(req)
    ensures Basename(OutputPath(req, id)) == "video_" + id + "_" + OutputFilename(req)
    ensures Join(TEMP_DIR, "video_" + id + "_" + OutputFilename(req)) == OutputPath(req, id)
  {
    var of := OutputFilename(req);
    var name := "video_" + id + "_" + of;
    assert RolePrefix(VideoOutput) + id + ("_" + of) == name;
    IdHasNoSeparator(id);
    assert '/' !in "video_" && '/' !in "_";
    BasenameOfJoin(TEMP_DIR, name);
  }

  /** A request answered 200 got there through a clean encoder exit and an output file
      that is in the directory afterwards, holding what the encoder wrote if it wrote. */
  lemma SuccessFacts(files: FileMap, req: Request, id: RequestId, secure: string -> string,
                     audioDl: Download, imageDl: Download, enc: EncoderRun)
    requires CreateVideoResult(files, req, id, secure, audioDl, imageDl, enc).response.status == 200
    ensures var run := CreateVideoResult(files, req, id, secure, audioDl, imageDl, enc);
      && enc.Exited?
      && OutputPath(req, id) in run.files
      && (enc.output.Some? ==> run.files[OutputPath(req, id)] == enc.output.value)
      && run.response == Classify(0, enc.stderr, true, OutputPath(req, id))
  {
    SucceedsExactly(files, req, id, secure, audioDl, imageDl, enc);
    InputsStored(files, req, id, secure, audioDl, imageDl, enc);
    RequestPathsDistinct(req, id, secure);
  }

  /** On success the descriptor names the file `video_<id>_<output_filename>`, the
      filename defaulting to `output_video.mp4`; and when that filename has no separator,
      looking it up as the download route does serves the file at the output path, which
      holds what the encoder wrote there. */
  lemma CreatedVideoIsDownloadable(files: FileMap, req: Request, id: RequestId, secure: string -> string,
                                   audioDl: Download, imageDl: Download, enc: EncoderRun)
    requires '/' !in RequestedFilename(req).GetOr("output_video.mp4")
    ensures var run := CreateVideoResult(files, req, id, secure, audioDl, imageDl, enc);
      var body := run.response.body;
      run.response.status == 200 ==>
        && body.filename == "video_" + id + "_" + RequestedFilename(req).GetOr("output_video.mp4")
        && body.videoUrl == "/download/" + body.filename
        && DownloadFile(run.files, body.filename)
           == Response(200, Attachment(OutputPath(req, id), body.filename, "video/mp4"))
        && (enc.output.Some? ==> run.files[OutputPath(req, id)] == enc.output.value)
  {
    var run := CreateVideoResult(files, req, id, secure, audioDl, imageDl, enc);
    if run.response.status == 200 {
      SuccessFacts(files, req, id, secure, audioDl, imageDl, enc);
      OutputNameRoundTrip(req, id);
    }
  }
}
