/** The command line the service hands to the encoder: a fixed template with three slots. */
module EncoderCommand {

  /** The encoder's argument vector for one request: loop the still image as the video
      source, take the audio as the second input, encode H.264 tuned for a still image and
      AAC at 192 kbit/s in yuv420p, stop at the shorter stream, overwrite the output. */
  function EncoderArgv(image: string, audio: string, output: string): (argv: seq<string>)
    ensures |argv| == 20 && argv[0] == "ffmpeg" && argv[|argv| - 1] == output
    ensures argv[1..3] == ["-loop", "1"] && argv[3] == "-i" && argv[4] == image
    ensures argv[5] == "-i" && argv[6] == audio
    ensures "-shortest" in argv && "-y" in argv
  {
    [ "ffmpeg",
      "-loop", "1",
      "-i", image,
      "-i", audio,
      "-c:v", "libx264",
      "-tune", "stillimage",
      "-c:a", "aac",
      "-b:a", "192k",
      "-pix_fmt", "yuv420p",
      "-shortest",
      "-y",
      output ]
  }

  /** The input files a command line names, in order: the argument after each `-i`. */
  function InputFiles(args: seq<string>): seq<string>
    decreases |args|
  {
    if |args| < 2 then []
    else if args[0] == "-i" then [args[1]] + InputFiles(args[2..])
    else InputFiles(args[1..])
  }

  lemma {:induction false} NoInputFlag(args: seq<string>)
    requires forall k :: 0 <= k < |args| - 1 ==> args[k] != "-i"
    ensures InputFiles(args) == []
    decreases |args|
  {
    if |args| >= 2 {
      NoInputFlag(args[1..]);
    }
  }

  /** After the audio slot no argument is an `-i`, so the options there name no input. */
  lemma OptionsNameNoInput(image: string, audio: string, output: string)
    ensures InputFiles(EncoderArgv(image, audio, output)[7..]) == []
  {
    var rest := EncoderArgv(image, audio, output)[7..];
    assert rest == ["-c:v", "libx264", "-tune", "stillimage", "-c:a", "aac", "-b:a", "192k",
                    "-pix_fmt", "yuv420p", "-shortest", "-y", output];
    NoInputFlag(rest);
  }

  lemma SkipArgument(args: seq<string>)
    requires |args| >= 2 && args[0] != "-i"
    ensures InputFiles(args) == InputFiles(args[1..])
  {
  }

  lemma TakeInput(args: seq<string>)
    requires |args| >= 2 && args[0] == "-i"
    ensures InputFiles(args) == [args[1]] + InputFiles(args[2..])
  {
  }

  /** The encoder reads exactly two inputs, the image first and the audio second, whatever
      the three paths are; so `-loop 1`, which precedes the first input, applies to the image. */
  lemma {:induction false} InputsAreImageThenAudio(image: string, audio: string, output: string)
    ensures InputFiles(EncoderArgv(image, audio, output)) == [image, audio]
  {
    var argv := EncoderArgv(image, audio, output);
    OptionsNameNoInput(image, audio, output);
    assert argv[0] == "ffmpeg" && argv[1] == "-loop" && argv[2] == "1";
    SkipArgument(argv);
    assert argv[1..][1..] == argv[2..];
    SkipArgument(argv[1..]);
    assert argv[2..][1..] == argv[3..];
    SkipArgument(argv[2..]);
    assert argv[3..][2..] == argv[5..];
    TakeInput(argv[3..]);
    assert argv[5..][2..] == argv[7..];
    TakeInput(argv[5..]);
  }

  /** Only the three path slots depend on the request; every option is fixed. */
  lemma OptionsAreFixed(image1: string, audio1: string, output1: string,
                        image2: string, audio2: string, output2: string)
    ensures forall k :: 0 <= k < 20 && k != 4 && k != 6 && k != 19 ==>
      EncoderArgv(image1, audio1, output1)[k] == EncoderArgv(image2, audio2, output2)[k]
  {
  }
}
