# ffmpeg-video-api: a Dafny model of the video-creation pipeline

The service combines one still image and one audio track into an MP4 video. `POST
/create-video` takes the two inputs in one of two shapes:

- a JSON body carrying `audio_url` and `image_url`, both of which it downloads;
- a multipart form carrying `audio` and `image` file parts, which it stores.

It writes both inputs to the shared scratch directory `/tmp` under names made from an
8-character request id. It then runs `ffmpeg` with a fixed argument template and deletes the
two inputs once the encoder has returned. Finally it answers 200 with a descriptor that points
at `GET /download/<filename>`, or with a JSON error. That route serves a file of the scratch
directory, or answers 404.

The model has these parts:

- `Types`: the request shapes and what the outside collaborators report. Each download either
  returns a response (with any status), times out or fails. The encoder either exits with a
  code and its error text, is killed at its timeout, or the call raises (before the process
  starts or after it exits); in every case it may leave a file at its output path.
- `Paths`: POSIX `join` and `basename`, request ids, and the naming of per-request artifacts.
- `EncoderCommand`: the 20-element encoder argument vector, and which inputs it names.
- `Responses`: the response shapes, the ordered classification of an encoder run that
  returned, and the mapping of caught exceptions to 504 or 500.
- `Scratch`: the shared directory as a class whose `files` map the methods update in place.
- `App`: `CreateVideoResult`, the whole request as a function of the directory contents, the
  request, the id and the collaborators' behaviour. `CreateVideo` is the step-by-step method
  that changes the directory, proved to agree with `CreateVideoResult`. `DownloadFile` is the
  download lookup.
- `CreateVideoProperties`: what a request does to the directory, which external calls it makes
  and in which order, how the status is chosen, and that a success can be downloaded.

External calls are recorded as a trace: `HttpGet(url, 60)` for a download and
`RunEncoder(argv, 300)` for the encoder, each with its timeout in seconds. This makes "no
encoder runs" and "the encoder receives exactly this command line" statable.

Two facts about `app.py` shape what the model says about leftover files:

- No exception handler deletes files, so a failed image download leaves the already
  downloaded audio file behind (app.py:115-121).
- A download with a non-2xx status is written to disk as-is (app.py:47-54).

## Model

| member | source | states |
|---|---|---|
| Paths.Basename | app.py:111-112 | the result is the longest suffix of the path that contains no `/` (POSIX `basename`) |
| Paths.BasenameAfterSeparator | app.py:111-112 | a path ending in a separator followed by a separator-free name has that name as its basename |
| Paths.BasenameOfJoin | app.py:111-112 | joining a separator-free name onto a directory that does not end in `/` and taking the basename gives the name back |
| Paths.ArtifactPath | app.py:41-43 | an artifact path is `/tmp/`, then the role prefix `audio_`/`image_`/`video_`, then the 8-character id, then the tail |
| Paths.ArtifactPathsDistinct | app.py:41-43 | two artifacts differing in role or in request id never share a path, whatever their tails |
| EncoderCommand.EncoderArgv | app.py:76-89 | 20 arguments: `ffmpeg`, `-loop 1`, `-i <image>`, `-i <audio>`, then the fixed options including `-shortest` and `-y`, with the output path last |
| EncoderCommand.InputsAreImageThenAudio | app.py:78-80 | the encoder reads exactly two inputs, the image first and then the audio, whatever the paths are |
| EncoderCommand.OptionsAreFixed | app.py:76-89 | every argument except the image, audio and output slots is the same for all requests |
| Responses.ErrorResponse | app.py:115-121 | a download timeout gives 504 "Download timeout", an encoder timeout gives 504 "FFmpeg timeout", any other exception gives 500 with its message; 504 exactly for timeouts |
| Responses.Classify | app.py:99-113 | a non-zero exit gives 500 with stderr; otherwise a missing output gives 500 "Video file was not created"; otherwise 200 naming `basename(output)` with `video_url` = `/download/` + that name |
| Scratch.ScratchDir.Write | app.py:48-49 | writing a file sets that path's contents and changes no other path |
| Scratch.ScratchDir.Remove | app.py:94-97 | removing an existing file deletes that path and no other |
| App.CreateVideo | app.py:27-121 | the directory, the response and the external calls afterwards are those of `CreateVideoResult` |
| App.StoreInputs | app.py:29-70 | validation, then the downloads or uploads and the writes of the two inputs, agree with the acquisition stage of `CreateVideoResult` |
| App.EncodeAndCleanUp | app.py:73-121 | the encoder run (whose output file stays whatever happens), the exists-then-remove cleanup of both inputs and the classification agree with the encoding stage of `CreateVideoResult` |
| App.RemoveInputs | app.py:93-97 | after the cleanup the directory is the old one minus the two input paths; nothing else changes, and an input that is already absent is not an error |
| App.DownloadFile | app.py:123-130 | 200 with `/tmp/<filename>` as an `video/mp4` attachment named `<filename>` exactly when that path exists, else 404 "File not found"; it is a function of the directory, so it changes nothing and repeated calls agree |
| CreateVideoProperties.RequestPathsDistinct | app.py:41-73 | within one request the audio, image and output paths are pairwise distinct, lie under `/tmp/` with their role prefixes and embed the id |
| CreateVideoProperties.RequestsNeverCollide | app.py:41-73 | two requests with different ids have disjoint sets of paths |
| CreateVideoProperties.MissingFieldsTouchNothing | app.py:34-59 | 400 exactly when a JSON URL is missing or empty or a multipart part is missing; then the directory is unchanged, no download happens and no encoder runs |
| CreateVideoProperties.ExternalCallsInOrder | app.py:45-91 | the audio GET comes first, the image GET only if the audio GET returned, both with a 60 s timeout; the encoder runs, with the exact argument vector and a 300 s timeout, only once both inputs are stored |
| CreateVideoProperties.InputsStored | app.py:45-70 | a request that reaches the encoder has written exactly its audio bytes and its image bytes at its two input paths |
| CreateVideoProperties.InputsGoneOnceEncoderReturns | app.py:91-97 | after the encoder returns, whatever the exit code, neither input exists; no other pre-existing path is removed or changed except the output path; nothing new but the output exists |
| CreateVideoProperties.InputsKeptWhenEncoderRaises | app.py:115-121 | when the encoder times out or raises, the directory is the old one with both inputs stored plus whatever the process left at the output path; both inputs keep their stored bytes |
| CreateVideoProperties.UnreadableBodyTouchesNothing | app.py:31-35 | a JSON body that cannot be read as an object gives 500 with the exception's message, writes nothing and makes no external call |
| CreateVideoProperties.DownloadFailureLeavesAudio | app.py:47-54 | a failed audio download changes nothing; a failed image download leaves exactly the audio file written, whatever the HTTP status of the audio response |
| CreateVideoProperties.TimeoutsAnswer504 | app.py:115-118 | 504 exactly when a download or the encoder timed out |
| CreateVideoProperties.SucceedsExactly | app.py:99-113 | 200 exactly when the encoder exited with 0 and the output path exists afterwards, whether written by the encoder or already there |
| CreateVideoProperties.CreatedVideoIsDownloadable | app.py:36-130 | on success the filename is `video_<id>_<output_filename>`, where the output name defaults to `output_video.mp4`, and `video_url` is `/download/` + that filename; when the name has no `/`, looking that filename up in the directory as the download route does serves the file at the request's output path, which holds the bytes the encoder wrote there when it wrote any |

## Left out

- The web framework is left out: routing, request parsing, `jsonify` and `send_file`. A request is a datatype over the two shapes, and a response is a status and a body.
- A JSON body that does not parse, or is not an object, is modelled as `JsonUnreadable` with the exception's message. JSON field values that are not strings (numbers, `null`) are not modelled.
- Networking is left out. Each download is given as its outcome: a response with a status and content, a timeout, or another error.
- Running `ffmpeg` is left out. The encoder run is given as its outcome (an exit, a timeout, or an exception raised before the process starts or after it exits), together with whatever it left at the output path. Only the command line built for it is modelled.
- The request id comes from a random UUID and is a parameter, restricted to 8 lower-case hexadecimal characters.
- The file-name sanitiser used for uploads comes from a library that is not part of this model. It is an arbitrary function parameter.
- Failures of the directory itself are not modelled: an unwritable or full `/tmp` on write or save, and `os.remove` errors.
- An exception inside `send_file` (app.py:131-132) is not modelled.
- Directory entries such as `.` and `..` are not modelled. The directory holds only the regular files of the `files` map, so `os.path.exists` on a directory is not modelled.
- An uploaded part with no file name is not modelled; every upload carries a name string.
- CreatedVideoIsDownloadable: stated only for output file names without `/`. With a separator, the basename in the advertised URL names a different path.
- CreatedVideoIsDownloadable: URL parsing of `video_url` is not modelled. The name goes into the URL without percent-encoding, so a name containing `?`, `#` or `%` reaches the route altered. The lemma is about looking the filename string up, not about a GET of `video_url`.
- Each request is modelled as running alone on the scratch directory; the concurrent requests a web server interleaves are not modelled. Statements such as "every other file is unchanged" cover only the request's own effects. Requests running side by side are covered only by `RequestsNeverCollide`: requests with different ids touch disjoint paths.
- The console logging, the `home` and `health` endpoints (app.py:13-25) and the start-up code (app.py:8-11, 134-136) are not modelled. They are constant answers, framework set-up or deployment settings.
