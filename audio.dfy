/**
  The model of audio.py: the `CODECS` table, `get_audio_files`, the format menu, the
  ffmpeg command with its optional bitrate, and `main`, whose conversion loop reports a
  failed conversion and goes on with the next file, but lets any other error end the run.
  Everything `main` prints, and every prompt of `input`, is one `Message`.
 */
module AudioConverter {
  import opened Common
  import opened Paths
  import opened Scanning
  import opened Arguments
  import opened Sequences

  // ---------------------------------------------------------------------------------
  // The tables

  /** An entry of `CODECS`: the audio codec, and the bitrate, `None` for wav and flac. */
  datatype Codec = Codec(codec: string, bitrate: Option<string>)

  /** The keys of `CODECS` in the order the dictionary literal lists them. */
  const FormatKeys: seq<string> := ["mp3", "aac", "wav", "opus", "flac"]

  /** `CODECS[ext]`; `None` where the dictionary has no such key. */
  function CodecFor(ext: string): (r: Option<Codec>)
    ensures r.Some? <==> ext in FormatKeys
  {
    if ext == "mp3" then Some(Codec("libmp3lame", Some("192k")))
    else if ext == "aac" then Some(Codec("aac", Some("192k")))
    else if ext == "wav" then Some(Codec("pcm_s16le", None))
    else if ext == "opus" then Some(Codec("libopus", Some("128k")))
    else if ext == "flac" then Some(Codec("flac", None))
    else None
  }

  /** Python's truth value of the bitrate: `None` and the empty string are false. */
  predicate Truthy(bitrate: Option<string>)
  {
    bitrate.Some? && bitrate.value != []
  }

  /** Only the uncompressed and the lossless format go without a bitrate. */
  lemma CodecForBitrate(ext: string)
    requires ext in FormatKeys
    ensures Truthy(CodecFor(ext).value.bitrate) <==> ext != "wav" && ext != "flac"
  {
  }

  const InputExtensions: seq<string> := [".flac", ".mp3", ".wav", ".aac", ".opus", ".m4a", ".wma", ".ogg"]

  predicate IsAudioFile(e: Entry)
  {
    Keep(e, InputExtensions)
  }

  // ---------------------------------------------------------------------------------
  // get_audio_files

  /** Walk the listing in the order `os.listdir` gives it and keep the regular files
      with an audio extension; unlike the video scanner, nothing is sorted. */
  method GetAudioFiles(listing: seq<Entry>) returns (files: seq<string>)
    ensures files == Scan(listing, IsAudioFile)
  {
    files := [];
    var i := 0;
    while i < |listing|
      invariant 0 <= i <= |listing|
      invariant files == Scan(listing[..i], IsAudioFile)
    {
      var f := listing[i];
      assert listing[..i + 1][..i] == listing[..i];
      if f.isFile {
        var ext := Lower(SplitExt(f.name).1);
        if ext in InputExtensions {
          files := files + [f.name];
        }
      }
      i := i + 1;
    }
    assert listing[..i] == listing;
  }

  /** A name is found exactly when the listing has a regular file of that name with an
      audio extension. */
  lemma AudioFilesMembership(listing: seq<Entry>, x: string)
    ensures x in Scan(listing, IsAudioFile) <==> exists e :: e in listing && IsAudioFile(e) && e.name == x
  {
    ScanMembership(listing, IsAudioFile, x);
  }

  /** The files found keep the listing's order: they are the listed names with some
      left out. */
  lemma AudioFilesInListingOrder(listing: seq<Entry>)
    ensures Subsequence(Scan(listing, IsAudioFile), Names(listing))
  {
    ScanIsSubsequence(listing, IsAudioFile);
  }

  /** A listing that gives `b.mp3` before `a.mp3` is scanned in that order. */
  lemma AudioFilesUnsorted()
    ensures Scan([Entry("b.mp3", true), Entry("a.mp3", true)], IsAudioFile) == ["b.mp3", "a.mp3"]
  {
    Mp3Kept("b.mp3");
    Mp3Kept("a.mp3");
    ScanTwo(Entry("b.mp3", true), Entry("a.mp3", true), IsAudioFile);
  }

  /** A one-letter name with the `.mp3` extension is an audio file. */
  lemma Mp3Kept(n: string)
    requires |n| == 5 && n[0] != '.' && n[0] != '/' && n[1..] == ".mp3"
    ensures IsAudioFile(Entry(n, true))
  {
    LastIndexUnique(n, '/', -1);
    LastIndexUnique(n, '.', 1);
    assert NonDotAt(n, 0, 1);
    assert Lower(".mp3") == ".mp3";
  }

  // ---------------------------------------------------------------------------------
  // The format menu

  /** `list(CODECS.keys())[int(choice) - 1]`, with `None` for the `ValueError` and
      `IndexError` that both lead to "Invalid choice.". */
  function SelectFormat(choice: Choice): (r: Option<string>)
    ensures r.Some? <==> choice.Number? && -4 <= choice.n <= 5
    ensures r.Some? ==> r.value in FormatKeys
  {
    match choice
    case NotANumber => None
    case Number(n) => PyIndex(FormatKeys, n - 1)
  }

  /** A valid answer `n` picks key `n - 1` of the menu, counted from the end when not
      positive, and that key has a codec entry. */
  lemma SelectFormatPicks(choice: Choice)
    requires SelectFormat(choice).Some?
    ensures SelectFormat(choice).value == FormatKeys[(choice.n - 1) % 5]
    ensures CodecFor(SelectFormat(choice).value).Some?
  {
  }

  /** Menu numbers 1..5 pick the listed formats; 0 and the negative numbers down to -4
      wrap round from the end, so 0 picks flac. */
  lemma SelectFormatWraps()
    ensures SelectFormat(Number(1)) == Some("mp3") && SelectFormat(Number(5)) == Some("flac")
    ensures SelectFormat(Number(0)) == Some("flac") && SelectFormat(Number(-4)) == Some("mp3")
    ensures SelectFormat(Number(6)) == None && SelectFormat(Number(-5)) == None
  {
  }

  // ---------------------------------------------------------------------------------
  // The command line

  /** The list `cmd` holds once the output file is appended: the `-b:a` pair is there
      only when the bitrate is truthy. */
  function AudioCommand(ffmpeg: string, input: string, codec: Codec, output: string): seq<string>
  {
    [ffmpeg, "-y", "-i", input, "-codec:a", codec.codec]
      + (if Truthy(codec.bitrate) then ["-b:a", codec.bitrate.value] else [])
      + [output]
  }

  /** Read back as ffmpeg reads it: the executable first and the output last, the input
      and the codec always set, and the bitrate set exactly when it is truthy. */
  lemma AudioCommandReadsBack(ffmpeg: string, input: string, codec: Codec, output: string)
    ensures var cmd := AudioCommand(ffmpeg, input, codec, output);
      |cmd| == (if Truthy(codec.bitrate) then 9 else 7) &&
      cmd[0] == ffmpeg && cmd[1] == "-y" && cmd[|cmd| - 1] == output &&
      Flags(Options(cmd)) == ["-i", "-codec:a"] + (if Truthy(codec.bitrate) then ["-b:a"] else []) &&
      FlagValue(Options(cmd), "-i") == Some(input) &&
      FlagValue(Options(cmd), "-codec:a") == Some(codec.codec) &&
      FlagValue(Options(cmd), "-b:a") == (if Truthy(codec.bitrate) then codec.bitrate else None)
  {
    var cmd := AudioCommand(ffmpeg, input, codec, output);
    var o1 := ["-codec:a", codec.codec];
    if Truthy(codec.bitrate) {
      var o2 := ["-b:a", codec.bitrate.value];
      var o0 := ["-i", input] + o1 + o2;
      assert Options(cmd) == o0;
      assert o0[2..] == o1 + o2 && (o1 + o2)[2..] == o2 && o2[2..] == [];
      assert Flags(o2) == ["-b:a"];
      assert Flags(o1 + o2) == ["-codec:a", "-b:a"];
      assert FlagValue(o1 + o2, "-b:a") == FlagValue(o2, "-b:a");
    } else {
      var o0 := ["-i", input] + o1;
      assert Options(cmd) == o0;
      assert o0[2..] == o1 && o1[2..] == [];
      assert Flags(o1) == ["-codec:a"];
    }
  }

  /** Nine arguments for mp3, aac and opus; seven for wav and flac. */
  lemma CommandLength(ffmpeg: string, input: string, ext: string, output: string)
    requires ext in FormatKeys
    ensures |AudioCommand(ffmpeg, input, CodecFor(ext).value, output)| == if ext == "wav" || ext == "flac" then 7 else 9
  {
    CodecForBitrate(ext);
    AudioCommandReadsBack(ffmpeg, input, CodecFor(ext).value, output);
  }

  // ---------------------------------------------------------------------------------
  // What main prints

  /** One `print`, or the prompt of one `input`, by what it says. */
  datatype Message =
    | Banner
    | InputPrompt
    | OutputPrompt
    | MissingFfmpeg(path: string)
    | MissingInputFolder(folder: string)
    | CreatingOutputFolder(folder: string)
    | NoAudioFilesFound
    | DetectedFiles
    | DetectedFile(name: string)
    | MenuHeader
    | MenuItem(number: int, ext: string)
    | ChoicePrompt
    | ChoiceRejected
    | ConvertingAll(ext: string, codec: string)
    | Converting(filename: string, base: string, ext: string)
    | ConversionError(filename: string)
    | BatchComplete
    | ThankYou

  /** The message's text, as the string literals and f-strings of `main` spell it; each
      `print` adds a newline, a prompt does not. */
  function Render(m: Message): string
  {
    match m
    case Banner => "Batch Audio Converter — Made by Drew\n"
    case InputPrompt => "Enter input folder path: "
    case OutputPrompt => "Enter output folder path: "
    case MissingFfmpeg(p) => "ffmpeg executable not found at " + p
    case MissingInputFolder(f) => "Input folder does not exist: " + f
    case CreatingOutputFolder(f) => "Output folder does not exist, creating: " + f
    case NoAudioFilesFound => "No audio files found in input folder."
    case DetectedFiles => "Detected audio files:"
    case DetectedFile(f) => " - " + f
    case MenuHeader => "\nAvailable output formats:"
    case MenuItem(i, ext) => IntToString(i) + ". " + ext
    case ChoicePrompt => "Choose output format by number (e.g. 1): "
    case ChoiceRejected => "Invalid choice."
    case ConvertingAll(ext, c) => "\nConverting all audio files to ." + ext + " using codec " + c + "...\n"
    case Converting(f, b, ext) => "Converting: " + f + " -> " + b + "." + ext
    case ConversionError(f) => "Error converting " + f
    case BatchComplete => "\nBatch conversion complete!"
    case ThankYou => "Thank you for using the converter! Made by Drew"
  }

  /** The line announcing a conversion ends in the name of the file it writes. */
  lemma ConvertingNamesOutput(filename: string, ext: string)
    ensures EndsWith(Render(Converting(filename, SplitExt(filename).0, ext)), OutputName(filename, ext))
  {
    var root := SplitExt(filename).0;
    assert Render(Converting(filename, root, ext)) == "Converting: " + filename + " -> " + OutputName(filename, ext);
    EndsWithAppend("Converting: " + filename + " -> ", OutputName(filename, ext));
  }

  /** `for f in audio_files: print(f" - {f}")`. */
  method ListDetected(files: seq<string>) returns (lines: seq<Message>)
    ensures |lines| == |files|
    ensures forall i :: 0 <= i < |files| ==> lines[i] == DetectedFile(files[i])
  {
    lines := [];
    for i := 0 to |files|
      invariant |lines| == i
      invariant forall j :: 0 <= j < i ==> lines[j] == DetectedFile(files[j])
    {
      lines := lines + [DetectedFile(files[i])];
    }
  }

  /** `for i, ext in enumerate(CODECS.keys(), 1): print(f"{i}. {ext}")`. */
  method FormatMenu() returns (lines: seq<Message>)
    ensures |lines| == |FormatKeys|
    ensures forall i :: 0 <= i < |FormatKeys| ==> lines[i] == MenuItem(i + 1, FormatKeys[i])
  {
    lines := [];
    var i := 0;
    while i < |FormatKeys|
      invariant 0 <= i <= |FormatKeys|
      invariant |lines| == i
      invariant forall j :: 0 <= j < i ==> lines[j] == MenuItem(j + 1, FormatKeys[j])
    {
      lines := lines + [MenuItem(i + 1, FormatKeys[i])];
      i := i + 1;
    }
  }

  // ---------------------------------------------------------------------------------
  // The conversion loop of main

  /** How `subprocess.run(cmd, check=True)` ended for one file: exit status 0, a
      non-zero status (`CalledProcessError`, which the loop catches), or any other
      exception, which nothing catches. */
  datatype RunResult = ExitZero | ExitNonZero | Raised(message: string)

  predicate IsConverting(m: Message) { m.Converting? }

  predicate IsConversionError(m: Message) { m.ConversionError? }

  /** The index of the first of the first `n` launches that raises, or `n` when none
      of them does. */
  function FirstRaised(outcome: nat -> RunResult, n: nat): (r: nat)
    ensures r <= n
    ensures forall i :: 0 <= i < r ==> !outcome(i).Raised?
    ensures r < n ==> outcome(r).Raised?
  {
    if n == 0 then 0
    else if FirstRaised(outcome, n - 1) < n - 1 then FirstRaised(outcome, n - 1)
    else if outcome(n - 1).Raised? then n - 1
    else n
  }

  /** How many of the `n` files the loop reaches: all of them, or those up to and
      including the one whose launch raised. */
  function Attempted(outcome: nat -> RunResult, n: nat): (r: nat)
    ensures r <= n
  {
    if FirstRaised(outcome, n) < n then FirstRaised(outcome, n) + 1 else n
  }

  /** What the loop prints for one file: the Converting line, then the error line when
      ffmpeg exited with a non-zero status. */
  function Attempt(filename: string, ext: string, res: RunResult): seq<Message>
  {
    [Converting(filename, SplitExt(filename).0, ext)] + (if res.ExitNonZero? then [ConversionError(filename)] else [])
  }

  /** What the loop would print for each file, `outcome(i)` being how launch `i` ends. */
  function Attempts(files: seq<string>, ext: string, outcome: nat -> RunResult): (r: seq<seq<Message>>)
    ensures |r| == |files| && forall i :: 0 <= i < |files| ==> r[i] == Attempt(files[i], ext, outcome(i))
  {
    seq(|files|, i requires 0 <= i < |files| => Attempt(files[i], ext, outcome(i)))
  }

  /** The command launched for each job. */
  function Launches(ffmpeg: string, jobs: seq<Job>, codec: Codec): (r: seq<seq<string>>)
    ensures |r| == |jobs| && forall i :: 0 <= i < |jobs| ==> r[i] == AudioCommand(ffmpeg, jobs[i].input, codec, jobs[i].output)
  {
    seq(|jobs|, i requires 0 <= i < |jobs| => AudioCommand(ffmpeg, jobs[i].input, codec, jobs[i].output))
  }

  /** One pass of the loop body: the paths, the Converting line, the command with its
      conditional `-b:a` pair, and the handler for how the launch ended. */
  method ConvertFile(filename: string, ffmpeg: string, inputFolder: string, outputFolder: string,
                     ext: string, codec: Codec, res: RunResult)
    returns (lines: seq<Message>, cmd: seq<string>, raised: Option<string>)
    ensures var job := JobFor(inputFolder, outputFolder, ext, filename);
      lines == Attempt(filename, ext, res) && cmd == AudioCommand(ffmpeg, job.input, codec, job.output) &&
      raised == (if res.Raised? then Some(res.message) else None)
  {
    var inputFile := Join(inputFolder, filename);
    var baseName := SplitExt(filename).0;
    var outputFile := Join(outputFolder, baseName + "." + ext);
    lines := [Converting(filename, baseName, ext)];
    cmd := [ffmpeg, "-y", "-i", inputFile, "-codec:a", codec.codec];
    if Truthy(codec.bitrate) {
      cmd := cmd + ["-b:a", codec.bitrate.value];
    }
    cmd := cmd + [outputFile];
    raised := None;
    match res {
      case ExitZero =>
      case ExitNonZero =>
        lines := lines + [ConversionError(filename)];
      case Raised(message) =>
        raised := Some(message);
    }
  }

  /** `for filename in audio_files`: every file is tried in turn, a non-zero exit is
      reported and the loop goes on; the first launch that raises ends the loop, with
      its message as `crash`. */
  method ConvertAll(files: seq<string>, ffmpeg: string, inputFolder: string, outputFolder: string,
                    ext: string, codec: Codec, outcome: nat -> RunResult)
    returns (console: seq<Message>, commands: seq<seq<string>>, crash: Option<string>)
    ensures var n, stop := Attempted(outcome, |files|), FirstRaised(outcome, |files|);
      console == Flatten(Attempts(files, ext, outcome)[..n]) &&
      commands == Launches(ffmpeg, Jobs(files, inputFolder, outputFolder, ext), codec)[..n] &&
      crash == if stop < |files| then Some(outcome(stop).message) else None
  {
    ghost var attempts := Attempts(files, ext, outcome);
    ghost var launched := Launches(ffmpeg, Jobs(files, inputFolder, outputFolder, ext), codec);
    ghost var stop := FirstRaised(outcome, |files|);
    console, commands, crash := [], [], None;
    var i := 0;
    while i < |files| && crash.None?
      invariant 0 <= i <= |files|
      invariant crash.None? ==> i <= stop
      invariant crash.Some? ==> stop < |files| && i == stop + 1 && crash == Some(outcome(stop).message)
      invariant console == Flatten(attempts[..i])
      invariant commands == launched[..i]
    {
      var lines, cmd, raised := ConvertFile(files[i], ffmpeg, inputFolder, outputFolder, ext, codec, outcome(i));
      FlattenStep(attempts, i, lines);
      PrefixSnoc(launched, i);
      StopStep(outcome, |files|, i);
      console := console + lines;
      commands := commands + [cmd];
      crash := raised;
      i := i + 1;
    }
  }

  /** Where launch `i` stands to the first launch that raises, for a loop that has got
      to `i` without a launch raising. */
  lemma StopStep(outcome: nat -> RunResult, n: nat, i: nat)
    requires i < n && i <= FirstRaised(outcome, n)
    ensures outcome(i).Raised? ==> FirstRaised(outcome, n) == i
    ensures !outcome(i).Raised? ==> i + 1 <= FirstRaised(outcome, n)
  {
  }

  /** The Converting lines of the first `n` files, in file order: no file is skipped,
      whatever the earlier conversions did. */
  lemma AttemptedInOrder(files: seq<string>, ext: string, outcome: nat -> RunResult, n: nat)
    requires n <= |files|
    ensures var c := Filter(Flatten(Attempts(files, ext, outcome)[..n]), IsConverting);
      |c| == n && forall i :: 0 <= i < n ==> c[i] == Converting(files[i], SplitExt(files[i]).0, ext)
  {
    var bs := Attempts(files, ext, outcome)[..n];
    var picks := seq(n, i requires 0 <= i < n => Converting(files[i], SplitExt(files[i]).0, ext));
    forall i | 0 <= i < n ensures Filter(bs[i], IsConverting) == [picks[i]] {
      AttemptFilters(files[i], ext, outcome(i));
    }
    FilterFlatten(bs, IsConverting, picks);
  }

  /** An "Error converting" line for each of the first `n` files whose launch exited with
      a non-zero status, in file order. */
  function Errors(files: seq<string>, outcome: nat -> RunResult, n: nat): (r: seq<Message>)
    requires n <= |files|
    ensures |r| <= n
  {
    if n == 0 then []
    else Errors(files, outcome, n - 1) + (if outcome(n - 1).ExitNonZero? then [ConversionError(files[n - 1])] else [])
  }

  /** The error lines of the first `n` files are exactly those of `Errors`: one for each
      non-zero exit, none for a success or for the launch that raised. */
  lemma {:induction false} ErrorsReported(files: seq<string>, ext: string, outcome: nat -> RunResult, n: nat)
    requires n <= |files|
    ensures Filter(Flatten(Attempts(files, ext, outcome)[..n]), IsConversionError) == Errors(files, outcome, n)
  {
    var attempts := Attempts(files, ext, outcome);
    if n > 0 {
      ErrorsReported(files, ext, outcome, n - 1);
      AttemptFilters(files[n - 1], ext, outcome(n - 1));
      FilterFlattenStep(attempts, n - 1, IsConversionError, Errors(files, outcome, n - 1),
                        if outcome(n - 1).ExitNonZero? then [ConversionError(files[n - 1])] else []);
    }
  }

  /** One file's lines hold its Converting line, and an error line exactly when the
      launch exited with a non-zero status. */
  lemma AttemptFilters(filename: string, ext: string, res: RunResult)
    ensures Filter(Attempt(filename, ext, res), IsConverting) == [Converting(filename, SplitExt(filename).0, ext)]
    ensures Filter(Attempt(filename, ext, res), IsConversionError) ==
      if res.ExitNonZero? then [ConversionError(filename)] else []
  {
    var b := Attempt(filename, ext, res);
    if res.ExitNonZero? {
      FilterShort(b, IsConverting);
      FilterShort(b, IsConversionError);
    } else {
      FilterSingle(b[0], IsConverting);
      FilterSingle(b[0], IsConversionError);
    }
  }

  /** The loop reaches every file unless a launch raises, and then stops right after the
      file whose launch raised. */
  lemma AttemptedCount(outcome: nat -> RunResult, n: nat)
    ensures (forall i :: 0 <= i < n ==> !outcome(i).Raised?) ==> Attempted(outcome, n) == n
    ensures (exists i :: 0 <= i < n && outcome(i).Raised?) ==>
      Attempted(outcome, n) == FirstRaised(outcome, n) + 1 && FirstRaised(outcome, n) < n
  {
  }

  // ---------------------------------------------------------------------------------
  // main

  /** How a run of `main` ends: one of its early `return`s, the end of the script, or
      the uncaught exception of a launch. */
  datatype Exit = FfmpegNotFound | InputFolderMissing | NoAudioFiles | InvalidChoice | Completed
                | Crashed(message: string)

  /** How the conversion loop ends for `files`. */
  function LoopExit(files: seq<string>, outcome: nat -> RunResult): Exit
  {
    var stop := FirstRaised(outcome, |files|);
    if stop < |files| then Crashed(outcome(stop).message) else Completed
  }

  /** Where `main` stops, checking in its own order: the ffmpeg executable, the input
      folder, the files found, the menu answer, and a launch that raises. */
  function ExitFor(ffmpegIsFile: bool, inputIsDir: bool, files: seq<string>, choice: Choice,
                   outcome: nat -> RunResult): Exit
  {
    if !ffmpegIsFile then FfmpegNotFound
    else if !inputIsDir then InputFolderMissing
    else if files == [] then NoAudioFiles
    else if SelectFormat(choice).None? then InvalidChoice
    else LoopExit(files, outcome)
  }

  /** Whether the run got to the conversion loop. */
  predicate ReachedLoop(exit: Exit)
  {
    exit.Completed? || exit.Crashed?
  }

  /** A run gets to the loop exactly when the four checks pass. It then ends normally
      exactly when no launch raises; a crash carries the message of the first launch
      that raised. */
  lemma ExitForChecks(ffmpegIsFile: bool, inputIsDir: bool, files: seq<string>, choice: Choice,
                      outcome: nat -> RunResult)
    ensures var e := ExitFor(ffmpegIsFile, inputIsDir, files, choice, outcome);
      (ReachedLoop(e) <==> ffmpegIsFile && inputIsDir && files != [] && SelectFormat(choice).Some?) &&
      (ReachedLoop(e) ==> (e == Completed <==> forall i :: 0 <= i < |files| ==> !outcome(i).Raised?)) &&
      (e.Crashed? ==> exists i :: 0 <= i < |files| && outcome(i) == Raised(e.message) &&
                                  forall j :: 0 <= j < i ==> !outcome(j).Raised?)
  {
    var stop := FirstRaised(outcome, |files|);
    if stop < |files| {
      assert outcome(stop) == Raised(outcome(stop).message);
    }
  }

  /** `os.path.join(os.getcwd(), "ffmpeg", "ffmpeg.exe")`. */
  function FfmpegPath(cwd: string): string
  {
    Join(Join(cwd, "ffmpeg"), "ffmpeg.exe")
  }

  /** The fixed ffmpeg path is `ffmpeg/ffmpeg.exe` under the working directory, with a
      `/` after the directory unless it is empty or already ends in one. */
  lemma FfmpegPathUnderCwd(cwd: string)
    ensures FfmpegPath(cwd) == (if cwd == [] || cwd[|cwd| - 1] == '/' then cwd else cwd + "/") + "ffmpeg/ffmpeg.exe"
  {
    var dir := Join(cwd, "ffmpeg");
    assert dir[|dir| - 1] == 'g';
  }

  /** No line of `console` is a Converting line or an error line. */
  ghost predicate Quiet(console: seq<Message>)
  {
    forall k :: 0 <= k < |console| ==> !IsConverting(console[k]) && !IsConversionError(console[k])
  }

  lemma QuietAppend(a: seq<Message>, b: seq<Message>)
    requires Quiet(a) && Quiet(b)
    ensures Quiet(a + b)
  {
    forall k | 0 <= k < |a + b| ensures !IsConverting((a + b)[k]) && !IsConversionError((a + b)[k]) {
      if k < |a| { assert (a + b)[k] == a[k]; } else { assert (a + b)[k] == b[k - |a|]; }
    }
  }

  /** What the loop prints for `files`: the lines of every file it reaches. */
  function LoopLines(files: seq<string>, ext: string, outcome: nat -> RunResult): seq<Message>
  {
    Flatten(Attempts(files, ext, outcome)[..Attempted(outcome, |files|)])
  }

  /** What `main` prints after the loop: the closing lines, unless a launch raised. */
  function Closing(files: seq<string>, outcome: nat -> RunResult): seq<Message>
  {
    if LoopExit(files, outcome) == Completed then [BatchComplete, ThankYou] else []
  }

  /** The notice `main` prints when the output folder is missing. */
  function OutputFolderNotice(outputIsDir: bool, outputFolder: string): seq<Message>
  {
    if outputIsDir then [] else [CreatingOutputFolder(outputFolder)]
  }

  /** One ` - name` line per detected file. */
  function DetectedLines(files: seq<string>): seq<Message>
  {
    seq(|files|, i requires 0 <= i < |files| => DetectedFile(files[i]))
  }

  /** What `main` prints once files were found, before it reads the choice: the files
      detected, the menu, and the prompt. */
  function FoundLines(files: seq<string>): seq<Message>
  {
    [DetectedFiles] + DetectedLines(files) +
    ([MenuHeader] + seq(|FormatKeys|, i requires 0 <= i < |FormatKeys| => MenuItem(i + 1, FormatKeys[i])) +
     [ChoicePrompt])
  }

  /** What `main` prints from the chosen format on: the announcement, the loop's lines,
      and the closing lines unless a launch raised. */
  function ChosenLines(files: seq<string>, ext: string, codec: Codec, outcome: nat -> RunResult): seq<Message>
  {
    [ConvertingAll(ext, codec.codec)] + LoopLines(files, ext, outcome) + Closing(files, outcome)
  }

  /** What `main` prints from the format announcement on: lines of other kinds, then the
      loop's lines in one piece, then the closing lines of a run no launch ended. */
  ghost predicate Printed(console: seq<Message>, files: seq<string>, ext: string, outcome: nat -> RunResult)
  {
    exists pre :: Quiet(pre) && console == pre + LoopLines(files, ext, outcome) + Closing(files, outcome)
  }

  /** The Converting lines of the files the loop reached, in order, and an error line for
      each non-zero exit among them, with no other lines of either kind. */
  ghost predicate Reported(console: seq<Message>, files: seq<string>, ext: string, outcome: nat -> RunResult)
  {
    var n := Attempted(outcome, |files|);
    var c := Filter(console, IsConverting);
    |c| == n && (forall i :: 0 <= i < n ==> c[i] == Converting(files[i], SplitExt(files[i]).0, ext)) &&
    Filter(console, IsConversionError) == Errors(files, outcome, n)
  }

  /** What the loop launched for `files`: one command for each file it reached. */
  ghost predicate Launched(commands: seq<seq<string>>, ffmpeg: string, files: seq<string>, inputFolder: string,
                           outputFolder: string, ext: string, codec: Codec, outcome: nat -> RunResult)
  {
    commands == Launches(ffmpeg, Jobs(files, inputFolder, outputFolder, ext), codec)[..Attempted(outcome, |files|)]
  }

  /** Launched commands, one for each file reached. */
  lemma LaunchedCommands(commands: seq<seq<string>>, ffmpeg: string, files: seq<string>, inputFolder: string,
                         outputFolder: string, ext: string, codec: Codec, outcome: nat -> RunResult)
    requires Launched(commands, ffmpeg, files, inputFolder, outputFolder, ext, codec, outcome)
    ensures |commands| == Attempted(outcome, |files|)
    ensures forall i :: 0 <= i < |commands| ==>
      commands[i] == AudioCommand(ffmpeg, Join(inputFolder, files[i]), codec, OutputPath(outputFolder, files[i], ext))
  {
  }

  /** The conversion stage's lines are what `Printed` asks for. */
  lemma PrintedIntro(pre: seq<Message>, files: seq<string>, ext: string, outcome: nat -> RunResult)
    requires Quiet(pre)
    ensures Printed(pre + LoopLines(files, ext, outcome) + Closing(files, outcome), files, ext, outcome)
  {
  }

  /** Lines printed before the conversion stage leave its lines in one piece. */
  lemma PrintedAfter(head: seq<Message>, console: seq<Message>, files: seq<string>, ext: string,
                     outcome: nat -> RunResult)
    requires Quiet(head) && Printed(console, files, ext, outcome)
    ensures Printed(head + console, files, ext, outcome)
  {
    var mid, post := LoopLines(files, ext, outcome), Closing(files, outcome);
    var pre :| Quiet(pre) && console == pre + mid + post;
    QuietAppend(head, pre);
    AppendAssoc(head, pre + mid, post);
    AppendAssoc(head, pre, mid);
  }

  /** Such output reports, of all its Converting and error lines, exactly those of the
      loop. */
  lemma PrintedReport(console: seq<Message>, files: seq<string>, ext: string, outcome: nat -> RunResult)
    requires Printed(console, files, ext, outcome)
    ensures Reported(console, files, ext, outcome)
  {
    var pre :| Quiet(pre) && console == pre + LoopLines(files, ext, outcome) + Closing(files, outcome);
    assert Quiet(Closing(files, outcome));
    LoopPrinted(pre, Closing(files, outcome), files, ext, outcome);
  }

  /** Such output ends with the thank-you line when no launch raised, and with the
      Converting line of the file whose launch raised otherwise. */
  lemma PrintedEnds(console: seq<Message>, files: seq<string>, ext: string, outcome: nat -> RunResult)
    requires Printed(console, files, ext, outcome)
    ensures console != []
    ensures LoopExit(files, outcome) == Completed ==> console[|console| - 1] == ThankYou
    ensures LoopExit(files, outcome).Crashed? ==> var stop := FirstRaised(outcome, |files|);
      stop < |files| && console[|console| - 1] == Converting(files[stop], SplitExt(files[stop]).0, ext)
  {
    var pre :| Quiet(pre) && console == pre + LoopLines(files, ext, outcome) + Closing(files, outcome);
    if LoopExit(files, outcome) == Completed {
      CompletedEnds(console, pre, files, ext, outcome);
    } else {
      CrashedEnds(console, pre, files, ext, outcome);
    }
  }

  /** A run no launch ended closes with the thank-you line. */
  lemma CompletedEnds(console: seq<Message>, pre: seq<Message>, files: seq<string>, ext: string,
                      outcome: nat -> RunResult)
    requires LoopExit(files, outcome) == Completed
    requires console == pre + LoopLines(files, ext, outcome) + Closing(files, outcome)
    ensures console != [] && console[|console| - 1] == ThankYou
  {
    LastOfFramed(console, pre, LoopLines(files, ext, outcome), Closing(files, outcome));
  }

  /** A run a launch ended stops at the Converting line of that launch's file. */
  lemma CrashedEnds(console: seq<Message>, pre: seq<Message>, files: seq<string>, ext: string,
                    outcome: nat -> RunResult)
    requires LoopExit(files, outcome).Crashed?
    requires console == pre + LoopLines(files, ext, outcome) + Closing(files, outcome)
    ensures var stop := FirstRaised(outcome, |files|);
      stop < |files| && console != [] && console[|console| - 1] == Converting(files[stop], SplitExt(files[stop]).0, ext)
  {
    var stop := FirstRaised(outcome, |files|);
    assert Attempted(outcome, |files|) == stop + 1;
    assert Closing(files, outcome) == [];
    CrashLastLine(files, ext, outcome);
    LastOfFramed(console, pre, LoopLines(files, ext, outcome), []);
  }

  /** The loop's lines, framed by lines of other kinds, are what `Reported` asks for. */
  lemma LoopPrinted(pre: seq<Message>, post: seq<Message>, files: seq<string>, ext: string,
                    outcome: nat -> RunResult)
    requires Quiet(pre) && Quiet(post)
    ensures Reported(pre + LoopLines(files, ext, outcome) + post, files, ext, outcome)
  {
    var n := Attempted(outcome, |files|);
    var mid := LoopLines(files, ext, outcome);
    AttemptedInOrder(files, ext, outcome, n);
    ErrorsReported(files, ext, outcome, n);
    FilterFramed(pre, mid, post, IsConverting);
    FilterFramed(pre, mid, post, IsConversionError);
  }

  /** The loop's last line: the Converting line of the file whose launch raised. */
  lemma CrashLastLine(files: seq<string>, ext: string, outcome: nat -> RunResult)
    requires FirstRaised(outcome, |files|) < |files|
    ensures var stop := FirstRaised(outcome, |files|);
      var console := Flatten(Attempts(files, ext, outcome)[..stop + 1]);
      console != [] && console[|console| - 1] == Converting(files[stop], SplitExt(files[stop]).0, ext)
  {
    var stop := FirstRaised(outcome, |files|);
    var attempts := Attempts(files, ext, outcome);
    var line := Converting(files[stop], SplitExt(files[stop]).0, ext);
    assert attempts[stop] == [line];
    FlattenEndsWith(attempts, stop, line);
  }

  /** The part of `main` after a format was chosen: announce it, convert the files, and
      finish unless a launch raised. */
  method ConvertChosen(files: seq<string>, ffmpeg: string, inputFolder: string, outputFolder: string,
                       outputExt: string, outcome: nat -> RunResult)
    returns (exit: Exit, console: seq<Message>, commands: seq<seq<string>>)
    requires CodecFor(outputExt).Some?
    ensures exit == LoopExit(files, outcome)
    ensures console == [ConvertingAll(outputExt, CodecFor(outputExt).value.codec)] + LoopLines(files, outputExt, outcome) +
                       Closing(files, outcome)
    ensures Printed(console, files, outputExt, outcome)
    ensures Launched(commands, ffmpeg, files, inputFolder, outputFolder, outputExt, CodecFor(outputExt).value, outcome)
  {
    var codec := CodecFor(outputExt).value;
    var pre := [ConvertingAll(outputExt, codec.codec)];
    var loopConsole, crash;
    loopConsole, commands, crash := ConvertAll(files, ffmpeg, inputFolder, outputFolder, outputExt, codec, outcome);
    assert Quiet(pre);
    if crash.Some? {
      exit := Crashed(crash.value);
      console := pre + loopConsole;
      AppendNil(console);
    } else {
      exit := Completed;
      console := pre + loopConsole + [BatchComplete, ThankYou];
    }
    PrintedIntro(pre, files, outputExt, outcome);
  }

  /** The part of `main` after files were found: list them, show the menu, read the
      choice, and convert. */
  method ChooseAndConvert(files: seq<string>, ffmpeg: string, inputFolder: string, outputFolder: string,
                          choice: Choice, outcome: nat -> RunResult)
    returns (exit: Exit, console: seq<Message>, commands: seq<seq<string>>)
    ensures exit == if SelectFormat(choice).None? then InvalidChoice else LoopExit(files, outcome)
    ensures exit == InvalidChoice ==>
      commands == [] && Quiet(console) && console == FoundLines(files) + [ChoiceRejected]
    ensures ReachedLoop(exit) ==>
      var ext := SelectFormat(choice).value;
      Printed(console, files, ext, outcome) &&
      Launched(commands, ffmpeg, files, inputFolder, outputFolder, ext, CodecFor(ext).value, outcome) &&
      console == FoundLines(files) + ChosenLines(files, ext, CodecFor(ext).value, outcome)
  {
    var detected := ListDetected(files);
    var menu := FormatMenu();
    assert Quiet([DetectedFiles] + detected);
    assert Quiet([MenuHeader] + menu + [ChoicePrompt]);
    QuietAppend([DetectedFiles] + detected, [MenuHeader] + menu + [ChoicePrompt]);
    var pre := [DetectedFiles] + detected + ([MenuHeader] + menu + [ChoicePrompt]);
    assert detected == DetectedLines(files);
    assert pre == FoundLines(files);
    var selected := SelectFormat(choice);
    if selected.None? {
      QuietAppend(pre, [ChoiceRejected]);
      console, commands := pre + [ChoiceRejected], [];
      exit := InvalidChoice;
    } else {
      var rest;
      exit, rest, commands := ConvertChosen(files, ffmpeg, inputFolder, outputFolder, selected.value, outcome);
      console := pre + rest;
      PrintedAfter(pre, rest, files, selected.value, outcome);
    }
  }

  /** The part of `main` after the input folder was found: create the output folder when
      it is missing, scan the input folder, then choose a format and convert. */
  method FindAndConvert(ffmpeg: string, inputFolder: string, outputFolder: string, outputIsDir: bool,
                        listing: seq<Entry>, choice: Choice, outcome: nat -> RunResult)
    returns (exit: Exit, console: seq<Message>, commands: seq<seq<string>>)
    ensures var files := Scan(listing, IsAudioFile);
      exit == if files == [] then NoAudioFiles
        else if SelectFormat(choice).None? then InvalidChoice else LoopExit(files, outcome)
    ensures !ReachedLoop(exit) ==> commands == [] && Quiet(console)
    ensures var notice := OutputFolderNotice(outputIsDir, outputFolder);
      exit == NoAudioFiles ==> console == notice + [NoAudioFilesFound]
    ensures var notice, files := OutputFolderNotice(outputIsDir, outputFolder), Scan(listing, IsAudioFile);
      exit == InvalidChoice ==> console == notice + FoundLines(files) + [ChoiceRejected]
    ensures ReachedLoop(exit) ==>
      var notice, files, ext := OutputFolderNotice(outputIsDir, outputFolder), Scan(listing, IsAudioFile),
                                SelectFormat(choice).value;
      Printed(console, files, ext, outcome) &&
      Launched(commands, ffmpeg, files, inputFolder, outputFolder, ext, CodecFor(ext).value, outcome) &&
      console == notice + FoundLines(files) + ChosenLines(files, ext, CodecFor(ext).value, outcome)
  {
    commands := [];
    var pre := if outputIsDir then [] else [CreatingOutputFolder(outputFolder)];
    assert Quiet(pre);
    var files := GetAudioFiles(listing);
    if files == [] {
      QuietAppend(pre, [NoAudioFilesFound]);
      console := pre + [NoAudioFilesFound];
      exit := NoAudioFiles;
    } else {
      var rest;
      exit, rest, commands := ChooseAndConvert(files, ffmpeg, inputFolder, outputFolder, choice, outcome);
      console := pre + rest;
      if !ReachedLoop(exit) {
        QuietAppend(pre, rest);
        AppendAssoc(pre, FoundLines(files), [ChoiceRejected]);
      } else {
        var ext := SelectFormat(choice).value;
        PrintedAfter(pre, rest, files, ext, outcome);
        AppendAssoc(pre, FoundLines(files), ChosenLines(files, ext, CodecFor(ext).value, outcome));
      }
    }
  }

  /** The part of `main` after ffmpeg was found: check the input folder, then go on to
      the scan. */
  method ScanAndConvert(ffmpeg: string, inputFolder: string, outputFolder: string, inputIsDir: bool,
                        outputIsDir: bool, listing: seq<Entry>, choice: Choice, outcome: nat -> RunResult)
    returns (exit: Exit, console: seq<Message>, commands: seq<seq<string>>)
    ensures exit == ExitFor(true, inputIsDir, Scan(listing, IsAudioFile), choice, outcome)
    ensures !ReachedLoop(exit) ==> commands == [] && Quiet(console)
    ensures exit == InputFolderMissing ==> console == [MissingInputFolder(inputFolder)]
    ensures var notice := OutputFolderNotice(outputIsDir, outputFolder);
      exit == NoAudioFiles ==> console == notice + [NoAudioFilesFound]
    ensures var notice, files := OutputFolderNotice(outputIsDir, outputFolder), Scan(listing, IsAudioFile);
      exit == InvalidChoice ==> console == notice + FoundLines(files) + [ChoiceRejected]
    ensures ReachedLoop(exit) ==>
      var notice, files, ext := OutputFolderNotice(outputIsDir, outputFolder), Scan(listing, IsAudioFile),
                                SelectFormat(choice).value;
      Printed(console, files, ext, outcome) &&
      Launched(commands, ffmpeg, files, inputFolder, outputFolder, ext, CodecFor(ext).value, outcome) &&
      console == notice + FoundLines(files) + ChosenLines(files, ext, CodecFor(ext).value, outcome)
  {
    if !inputIsDir {
      console, commands := [MissingInputFolder(inputFolder)], [];
      exit := InputFolderMissing;
    } else {
      exit, console, commands := FindAndConvert(ffmpeg, inputFolder, outputFolder, outputIsDir, listing,
                                                choice, outcome);
    }
  }

  /** Lines printed before the format announcement keep the loop's lines in one piece
      and the last line in place. */
  lemma ReachedOutput(pre: seq<Message>, rest: seq<Message>, notice: seq<Message>, files: seq<string>, ext: string,
                      codec: Codec, outcome: nat -> RunResult)
    requires Quiet(pre) && Printed(rest, files, ext, outcome)
    requires rest == notice + FoundLines(files) + ChosenLines(files, ext, codec, outcome)
    ensures Printed(pre + rest, files, ext, outcome)
    ensures pre + rest == pre + notice + FoundLines(files) + ChosenLines(files, ext, codec, outcome)
    ensures LoopExit(files, outcome) == Completed ==> (pre + rest)[|pre + rest| - 1] == ThankYou
    ensures LoopExit(files, outcome).Crashed? ==> var stop := FirstRaised(outcome, |files|);
      stop < |files| && (pre + rest)[|pre + rest| - 1] == Converting(files[stop], SplitExt(files[stop]).0, ext)
  {
    PrintedAfter(pre, rest, files, ext, outcome);
    PrintedEnds(pre + rest, files, ext, outcome);
    PrependThree(pre, notice, FoundLines(files), ChosenLines(files, ext, codec, outcome));
  }

  /** One `main()` run. The environment is given as data: the working directory, the
      two typed paths, whether the fixed ffmpeg path is a file, whether each folder is a
      directory, the input folder's listing, the parsed menu answer, and how each ffmpeg
      launch ends. */
  method Run(cwd: string, rawInput: string, rawOutput: string, ffmpegIsFile: bool, inputIsDir: bool,
             outputIsDir: bool, listing: seq<Entry>, choice: Choice, outcome: nat -> RunResult)
    returns (exit: Exit, console: seq<Message>, commands: seq<seq<string>>)
    ensures exit == ExitFor(ffmpegIsFile, inputIsDir, Scan(listing, IsAudioFile), choice, outcome)
    ensures console != [] && console[0] == Banner
    ensures !ReachedLoop(exit) ==> commands == [] && Quiet(console)
    ensures ReachedLoop(exit) ==>
      var ext := SelectFormat(choice).value;
      Printed(console, Scan(listing, IsAudioFile), ext, outcome) &&
      Launched(commands, FfmpegPath(cwd), Scan(listing, IsAudioFile), CleanPath(rawInput), CleanPath(rawOutput), ext,
               CodecFor(ext).value, outcome)
    ensures exit == FfmpegNotFound ==> console == [Banner, InputPrompt, OutputPrompt, MissingFfmpeg(FfmpegPath(cwd))]
    ensures exit == InputFolderMissing ==>
      console == [Banner, InputPrompt, OutputPrompt, MissingInputFolder(CleanPath(rawInput))]
    ensures var notice := OutputFolderNotice(outputIsDir, CleanPath(rawOutput));
      exit == NoAudioFiles ==> console == [Banner, InputPrompt, OutputPrompt] + notice + [NoAudioFilesFound]
    ensures var notice, files := OutputFolderNotice(outputIsDir, CleanPath(rawOutput)), Scan(listing, IsAudioFile);
      exit == InvalidChoice ==>
        console == [Banner, InputPrompt, OutputPrompt] + notice + FoundLines(files) + [ChoiceRejected]
    ensures ReachedLoop(exit) ==>
      var notice, files, ext := OutputFolderNotice(outputIsDir, CleanPath(rawOutput)), Scan(listing, IsAudioFile),
                                SelectFormat(choice).value;
      console == [Banner, InputPrompt, OutputPrompt] + notice + FoundLines(files) +
                 ChosenLines(files, ext, CodecFor(ext).value, outcome)
    ensures exit == Completed ==> console[|console| - 1] == ThankYou
    ensures exit.Crashed? ==> var files, ext := Scan(listing, IsAudioFile), SelectFormat(choice).value;
      var stop := FirstRaised(outcome, |files|);
      stop < |files| && console[|console| - 1] == Converting(files[stop], SplitExt(files[stop]).0, ext)
  {
    console := [Banner, InputPrompt];
    var inputFolder := CleanPath(rawInput);
    console := console + [OutputPrompt];
    var outputFolder := CleanPath(rawOutput);
    var ffmpegPath := Join(Join(cwd, "ffmpeg"), "ffmpeg.exe");
    assert console == [Banner, InputPrompt, OutputPrompt];
    assert Quiet(console);
    if !ffmpegIsFile {
      QuietAppend(console, [MissingFfmpeg(ffmpegPath)]);
      console, commands := console + [MissingFfmpeg(ffmpegPath)], [];
      exit := FfmpegNotFound;
    } else {
      var pre := console;
      var rest;
      exit, rest, commands := ScanAndConvert(ffmpegPath, inputFolder, outputFolder, inputIsDir, outputIsDir,
                                             listing, choice, outcome);
      console := pre + rest;
      var notice, files := OutputFolderNotice(outputIsDir, outputFolder), Scan(listing, IsAudioFile);
      if !ReachedLoop(exit) {
        QuietAppend(pre, rest);
        if exit == NoAudioFiles {
          AppendAssoc(pre, notice, [NoAudioFilesFound]);
        } else if exit == InvalidChoice {
          PrependThree(pre, notice, FoundLines(files), [ChoiceRejected]);
        }
      } else {
        var ext := SelectFormat(choice).value;
        ReachedOutput(pre, rest, notice, files, ext, CodecFor(ext).value, outcome);
      }
    }
  }
}
