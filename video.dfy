/**
  The batch video converter (video.py): its codec table, the folder scan (sorted by
  name), the progress bar, the format menu, and `main` as a run that turns the typed
  answers, the directory listing and each ffmpeg outcome into the log file's entries,
  the console text and the ffmpeg command lines it launches.
 */
module VideoConverter {
  import opened Common
  import opened Paths
  import opened Scanning
  import opened Arguments
  import opened Sequences

  /** One row of `CODECS`: video codec, audio codec, video bitrate. */
  datatype Codec = Codec(vcodec: string, acodec: string, bitrate: string)

  /** The keys of `CODECS` in the order the dictionary literal lists them. */
  const FormatKeys: seq<string> := ["mp4", "mkv", "avi", "mov", "webm"]

  /** `CODECS[ext]`; `None` where the dictionary has no such key. */
  function CodecFor(ext: string): (r: Option<Codec>)
    ensures r.Some? <==> ext in FormatKeys
  {
    if ext == "mp4" || ext == "mkv" || ext == "avi" || ext == "mov" then
      Some(Codec("libx264", "aac", "2000k"))
    else if ext == "webm" then Some(Codec("libvpx-vp9", "libopus", "1500k"))
    else None
  }

  /** Every entry of `CODECS` names a bitrate, and only webm leaves libx264. */
  lemma CodecForTable(ext: string)
    requires CodecFor(ext).Some?
    ensures CodecFor(ext).value.bitrate != []
    ensures CodecFor(ext).value.vcodec == "libx264" <==> ext != "webm"
  {
  }

  const InputExtensions: seq<string> := [".mp4", ".mkv", ".avi", ".mov", ".wmv", ".flv", ".webm", ".m4v"]

  predicate IsVideoFile(e: Entry)
  {
    Keep(e, InputExtensions)
  }

  /** What `get_video_files` returns for a listing. */
  function VideoFiles(listing: seq<Entry>): seq<string>
  {
    Scan(SortByName(listing), IsVideoFile)
  }

  // ---------------------------------------------------------------------------------
  // get_video_files

  /** Walk the sorted listing and keep the regular files with a video extension. */
  method GetVideoFiles(listing: seq<Entry>) returns (files: seq<string>)
    ensures files == VideoFiles(listing)
  {
    var sorted := SortByName(listing);
    files := [];
    var i := 0;
    while i < |sorted|
      invariant 0 <= i <= |sorted|
      invariant files == Scan(sorted[..i], IsVideoFile)
    {
      var f := sorted[i];
      assert sorted[..i + 1][..i] == sorted[..i];
      if f.isFile {
        var ext := Lower(SplitExt(f.name).1);
        if ext in InputExtensions {
          files := files + [f.name];
        }
      }
      i := i + 1;
    }
    assert sorted[..i] == sorted;
  }

  /** The files found are in sorted order, and each kept name occurs as often as the
      listing holds it. */
  lemma VideoFilesSortedPermutation(listing: seq<Entry>)
    ensures SortedNames(VideoFiles(listing))
    ensures multiset(VideoFiles(listing)) == multiset(Scan(listing, IsVideoFile))
  {
    var sorted := SortByName(listing);
    ScanOfSorted(sorted, IsVideoFile);
    ScanPermutation(sorted, listing, IsVideoFile);
  }

  /** A name is found exactly when the listing has a regular file of that name with a
      video extension. */
  lemma VideoFilesMembership(listing: seq<Entry>, x: string)
    ensures x in VideoFiles(listing) <==> exists e :: e in listing && IsVideoFile(e) && e.name == x
  {
    var sorted := SortByName(listing);
    ScanMembership(sorted, IsVideoFile, x);
    assert forall e :: e in sorted <==> e in listing by {
      forall e ensures e in sorted <==> e in listing {
        assert e in sorted <==> e in multiset(sorted);
        assert e in listing <==> e in multiset(listing);
      }
    }
  }

  // ---------------------------------------------------------------------------------
  // print_progress

  const BarLength: int := 40

  /** `int(bar_length * current // total)`. */
  function Filled(current: int, total: int): int
    requires total != 0
  {
    FloorDiv(BarLength * current, total)
  }

  /** `"█" * filled + "-" * (bar_length - filled)`. */
  function Bar(filled: int): string
  {
    Repeat('█', filled) + Repeat('-', BarLength - filled)
  }

  /** The fill stays inside the bar, is full exactly at the last file, and never
      shrinks as the count goes up. */
  lemma FilledBounds(current: int, total: int)
    requires 1 <= current <= total
    ensures 0 <= Filled(current, total) <= BarLength
    ensures Filled(current, total) == BarLength <==> current == total
  {
    var q := Filled(current, total);
    assert q * total <= BarLength * current < q * total + total;
    MulCancel(-1, q, total);
    MulCancel(q, BarLength + 1, total);
    if current == total {
      MulCancel(BarLength - 1, q, total);
    } else {
      MulCancel(q, BarLength, total);
    }
  }

  lemma MulCancel(a: int, b: int, c: int)
    requires c > 0 && a * c < b * c
    ensures a < b
  {
    if a >= b {
      MulLe(b, a, c);
    }
  }

  lemma MulLe(a: int, b: int, c: nat)
    requires a <= b
    ensures a * c <= b * c
  {
  }

  lemma FilledMonotone(c1: int, c2: int, total: int)
    requires total > 0 && c1 <= c2
    ensures Filled(c1, total) <= Filled(c2, total)
  {
    var q1, q2 := Filled(c1, total), Filled(c2, total);
    if q1 > q2 {
      MulLe(q2 + 1, q1, total);
      assert false;
    }
  }

  /** For a count in range the bar is exactly forty characters: `filled` blocks, then
      dashes. */
  lemma BarShape(current: int, total: int)
    requires 1 <= current <= total
    ensures |Bar(Filled(current, total))| == BarLength
    ensures forall k :: 0 <= k < BarLength ==>
      Bar(Filled(current, total))[k] == if k < Filled(current, total) then '█' else '-'
  {
    FilledBounds(current, total);
  }

  /** The name shown beside the bar: long names are cut to 36 characters and `...`. */
  function DisplayName(filename: string): (r: string)
    ensures |r| <= 39
    ensures |filename| <= 39 ==> r == filename
    ensures |filename| > 39 ==> |r| == 39 && r[..36] == filename[..36] && EndsWith(r, "...")
  {
    if |filename| > 39 then filename[..36] + "..." else filename
  }

  /** The text `print_progress` writes (with `end=""`, so no newline). */
  function ProgressLine(current: int, total: int, filename: string): string
    requires total != 0
  {
    "\r[" + Bar(Filled(current, total)) + "] " + IntToString(current) + "/" + IntToString(total)
      + " Converting: " + PadRight(DisplayName(filename), 40)
  }

  /** The line redraws the bar in columns 2..41, between `\r[` and `] `. */
  lemma ProgressLineBar(current: int, total: int, filename: string)
    requires 1 <= current <= total
    ensures var line := ProgressLine(current, total, filename);
      line[..2] == "\r[" &&
      (forall k :: 2 <= k < 2 + BarLength ==> line[k] == if k - 2 < Filled(current, total) then '█' else '-') &&
      line[2 + BarLength..4 + BarLength] == "] "
  {
    FilledBounds(current, total);
    BarLine(Filled(current, total), IntToString(current) + "/" + IntToString(total) + " Converting: ",
            PadRight(DisplayName(filename), 40));
  }

  /** A bar line with `filled` blocks, whatever follows the bar. */
  lemma BarLine(filled: int, middle: string, field: string)
    requires 0 <= filled <= BarLength
    ensures var line := "\r[" + Bar(filled) + "] " + middle + field;
      line[..2] == "\r[" &&
      (forall k :: 2 <= k < 2 + BarLength ==> line[k] == if k - 2 < filled then '█' else '-') &&
      line[2 + BarLength..4 + BarLength] == "] "
  {
    var bar := Bar(filled);
    assert |bar| == BarLength;
    Layout("\r[", bar, "] ", middle, field);
  }

  /** The line ends in the shown name padded to a 40-character field. */
  lemma ProgressLineName(current: int, total: int, filename: string)
    requires 1 <= current <= total
    ensures EndsWith(ProgressLine(current, total, filename), PadRight(DisplayName(filename), 40))
    ensures |PadRight(DisplayName(filename), 40)| == 40
  {
    var bar := Bar(Filled(current, total));
    Layout("\r[", bar, "] ", IntToString(current) + "/" + IntToString(total) + " Converting: ",
           PadRight(DisplayName(filename), 40));
  }

  /** Where the pieces of `head + bar + sep + middle + field` sit. */
  lemma Layout(head: string, bar: string, sep: string, middle: string, field: string)
    ensures var line := head + bar + sep + middle + field;
      line[..|head|] == head &&
      (forall k :: |head| <= k < |head| + |bar| ==> line[k] == bar[k - |head|]) &&
      line[|head| + |bar|..|head| + |bar| + |sep|] == sep &&
      EndsWith(line, field)
  {
    var line := head + bar + sep + middle + field;
    assert line == head + (bar + sep + middle + field);
    assert line == (head + bar) + (sep + (middle + field));
    EndsWithAppend(head + bar + sep + middle, field);
  }

  // ---------------------------------------------------------------------------------
  // The format menu

  /** `list(CODECS.keys())[int(choice) - 1]`, with `None` for the `ValueError` and
      `IndexError` that both lead to "Invalid choice.". */
  function SelectFormat(choice: Choice): (r: Option<string>)
    ensures r.Some? <==> choice.Number? && -4 <= choice.n <= 5
    ensures r.Some? ==> r.value in FormatKeys
  {
    match choice
    case NotANumber => None
    case Number(n) => PyIndex(FormatKeys, n - 1)
  }

  /** A valid answer `n` picks key `n - 1` of the menu, counted from the end when not
      positive, and that key has a codec entry. */
  lemma SelectFormatPicks(choice: Choice)
    requires SelectFormat(choice).Some?
    ensures SelectFormat(choice).value == FormatKeys[(choice.n - 1) % 5]
    ensures CodecFor(SelectFormat(choice).value).Some?
  {
  }

  /** Menu numbers 1..5 pick the listed formats; 0 and the negative numbers down to -4
      wrap round from the end, so 0 picks webm. */
  lemma SelectFormatWraps()
    ensures SelectFormat(Number(1)) == Some("mp4") && SelectFormat(Number(5)) == Some("webm")
    ensures SelectFormat(Number(0)) == Some("webm") && SelectFormat(Number(-4)) == Some("mp4")
    ensures SelectFormat(Number(6)) == None && SelectFormat(Number(-5)) == None
  {
  }

  /** Print and log the menu: `i. ext` on the console and `Format option i: .ext` in the
      log, for the keys in dictionary order, numbered from 1. */
  method FormatMenu() returns (console: seq<Message>, entries: seq<Message>)
    ensures |console| == |FormatKeys| && |entries| == |FormatKeys|
    ensures forall i :: 0 <= i < |FormatKeys| ==>
      console[i] == MenuItem(i + 1, FormatKeys[i]) && entries[i] == FormatOption(i + 1, FormatKeys[i])
  {
    console, entries := [], [];
    var i := 0;
    while i < |FormatKeys|
      invariant 0 <= i <= |FormatKeys|
      invariant |console| == i && |entries| == i
      invariant forall j :: 0 <= j < i ==>
        console[j] == MenuItem(j + 1, FormatKeys[j]) && entries[j] == FormatOption(j + 1, FormatKeys[j])
    {
      console := console + [MenuItem(i + 1, FormatKeys[i])];
      entries := entries + [FormatOption(i + 1, FormatKeys[i])];
      i := i + 1;
    }
  }

  // ---------------------------------------------------------------------------------
  // The command line

  /** The list `cmd` holds once the output file is appended. */
  function VideoCommand(ffmpeg: string, input: string, codec: Codec, output: string): seq<string>
  {
    [ffmpeg, "-y", "-i", input, "-c:v", codec.vcodec, "-b:v", codec.bitrate, "-c:a", codec.acodec]
      + [output]
  }

  /** Read back as ffmpeg reads it: eleven arguments, executable first and output last,
      the four flags in order, each with its value, the bitrate always present. */
  lemma VideoCommandReadsBack(ffmpeg: string, input: string, codec: Codec, output: string)
    ensures var cmd := VideoCommand(ffmpeg, input, codec, output);
      |cmd| == 11 && cmd[0] == ffmpeg && cmd[1] == "-y" && cmd[10] == output &&
      Flags(Options(cmd)) == ["-i", "-c:v", "-b:v", "-c:a"] &&
      FlagValue(Options(cmd), "-i") == Some(input) &&
      FlagValue(Options(cmd), "-c:v") == Some(codec.vcodec) &&
      FlagValue(Options(cmd), "-b:v") == Some(codec.bitrate) &&
      FlagValue(Options(cmd), "-c:a") == Some(codec.acodec)
  {
    var cmd := VideoCommand(ffmpeg, input, codec, output);
    var o0 := ["-i", input, "-c:v", codec.vcodec, "-b:v", codec.bitrate, "-c:a", codec.acodec];
    assert Options(cmd) == o0;
    VideoOptionsReadBack(input, codec);
  }

  /** The flag/value region of a video command, read back flag by flag. */
  lemma VideoOptionsReadBack(input: string, codec: Codec)
    ensures var o0 := ["-i", input, "-c:v", codec.vcodec, "-b:v", codec.bitrate, "-c:a", codec.acodec];
      Flags(o0) == ["-i", "-c:v", "-b:v", "-c:a"] &&
      FlagValue(o0, "-i") == Some(input) &&
      FlagValue(o0, "-c:v") == Some(codec.vcodec) &&
      FlagValue(o0, "-b:v") == Some(codec.bitrate) &&
      FlagValue(o0, "-c:a") == Some(codec.acodec)
  {
    var o0 := ["-i", input, "-c:v", codec.vcodec, "-b:v", codec.bitrate, "-c:a", codec.acodec];
    var o1 := ["-c:v", codec.vcodec, "-b:v", codec.bitrate, "-c:a", codec.acodec];
    var o2 := ["-b:v", codec.bitrate, "-c:a", codec.acodec];
    var o3 := ["-c:a", codec.acodec];
    assert o0[2..] == o1 && o1[2..] == o2 && o2[2..] == o3 && o3[2..] == [];
    assert Flags(o3) == ["-c:a"];
    assert Flags(o2) == ["-b:v", "-c:a"];
    assert Flags(o1) == ["-c:v", "-b:v", "-c:a"];
    assert FlagValue(o2, "-c:a") == FlagValue(o3, "-c:a");
    assert FlagValue(o1, "-c:a") == FlagValue(o2, "-c:a");
    assert FlagValue(o1, "-b:v") == FlagValue(o2, "-b:v");
  }

  // ---------------------------------------------------------------------------------
  // What main writes

  /** One `write_log` call, one `print`, or the prompt of one `input`, by what it says. */
  datatype Message =
    // written to the log file only
    | Header(started: string, scriptDir: string)
    | InputFolderIs(folder: string)
    | OutputFolderIs(folder: string)
    | UsingFfmpeg(path: string)
    | DetectedFiles
    | DetectedFile(name: string)
    | FormatOption(number: int, ext: string)
    | ChosenFormat(ext: string, codec: Codec)
    | BeginningConversions
    | Converting(idx: int, total: int, input: string, output: string)
    | FfmpegOutput(filename: string, stderr: string)
    | Success(idx: int, total: int, output: string)
    | ConversionError(idx: int, total: int, filename: string, err: string)
    | Unexpected(idx: int, total: int, filename: string, message: string)
    | BatchComplete
    | FinishedAt(timestamp: string)
    // written to the console and to the log file
    | MissingFfmpeg
    | MissingInputFolder(folder: string)
    | CreatingOutputFolder(folder: string)
    | NoVideoFilesFound
    | ChoiceRejected
    | ThankYou
    // written to the console only
    | InputPrompt
    | OutputPrompt
    | MenuHeader
    | MenuItem(number: int, ext: string)
    | ChoicePrompt
    | Progress(current: int, total: int, filename: string)
    | EndOfProgress

  function Counter(idx: int, total: int): string
  {
    "[" + IntToString(idx) + "/" + IntToString(total) + "]"
  }

  /** The message's text, as the string literals and f-strings of `main` spell it. The
      log file receives `Render(m) + "\n"` for each entry; the console receives the same
      for each `print` and the bare text for prompts and for the progress line. */
  function Render(m: Message): string
    requires m.Progress? ==> m.total != 0
  {
    match m
    case Header(started, dir) =>
      "=== Batch Video Converter — Made by Drew ===\nStarted: " + started + "\nScript dir: " + dir + "\n"
    case InputFolderIs(f) => "Input folder: " + f
    case OutputFolderIs(f) => "Output folder: " + f
    case UsingFfmpeg(p) => "Using ffmpeg: " + p
    case DetectedFiles => "Detected video files:"
    case DetectedFile(f) => " - " + f
    case FormatOption(i, ext) => "Format option " + IntToString(i) + ": ." + ext
    case ChosenFormat(ext, c) =>
      "Chosen output format: ." + ext + " (vcodec=" + c.vcodec + ", acodec=" + c.acodec + ", bitrate=" + c.bitrate + ")"
    case BeginningConversions => "\nBeginning conversions...\n"
    case Converting(i, t, input, output) => Counter(i, t) + " Converting: " + input + " -> " + output
    case FfmpegOutput(f, s) => "ffmpeg output for " + f + ":\n" + s + "\n"
    case Success(i, t, output) => Counter(i, t) + " SUCCESS: " + output + "\n"
    case ConversionError(i, t, f, err) => Counter(i, t) + " ERROR converting " + f + ":\n" + err + "\n"
    case Unexpected(i, t, f, msg) => Counter(i, t) + " UNEXPECTED ERROR for " + f + ": " + msg + "\n"
    case BatchComplete => "\nBatch conversion complete!"
    case FinishedAt(ts) => "Finished: " + ts + "\n"
    case MissingFfmpeg => "ERROR: ffmpeg executable not found (tried ./ffmpeg/ffmpeg.exe, ./ffmpeg/ffmpeg, and PATH)."
    case MissingInputFolder(f) => "ERROR: Input folder does not exist: " + f
    case CreatingOutputFolder(f) => "Output folder does not exist, creating: " + f
    case NoVideoFilesFound => "No video files found in input folder."
    case ChoiceRejected => "Invalid choice."
    case ThankYou => "Thank you for using the video converter! Made by Drew"
    case InputPrompt => "Enter input folder path: "
    case OutputPrompt => "Enter output folder path: "
    case MenuHeader => "\nAvailable output formats:"
    case MenuItem(i, ext) => IntToString(i) + ". " + ext
    case ChoicePrompt => "Choose output format by number (e.g. 1): "
    case Progress(c, t, f) => ProgressLine(c, t, f)
    case EndOfProgress => ""
  }

  /** The counter `[idx/total]` spells both numbers as `str` does: digits only, no
      leading zero. */
  lemma CounterSpellsNumbers(idx: nat, total: nat)
    ensures exists a, b :: Counter(idx, total) == "[" + a + "/" + b + "]" && Spells(a, idx) && Spells(b, total)
  {
    var a, b := IntToString(idx), IntToString(total);
    assert Counter(idx, total) == "[" + a + "/" + b + "]";
  }

  /** Every entry the loop logs about one file starts with its `[idx/total]` counter. */
  lemma PerFileEntryCounted(m: Message)
    requires m.Converting? || m.Success? || m.ConversionError? || m.Unexpected?
    ensures StartsWith(Render(m), Counter(m.idx, m.total))
  {
    var c := Counter(m.idx, m.total);
    assert c[..|c|] == c;
    match m
    case Converting(i, t, input, output) =>
      StartsWithAppend(c, c, " Converting: ");
      StartsWithAppend(c + " Converting: ", c, input);
      StartsWithAppend(c + " Converting: " + input, c, " -> ");
      StartsWithAppend(c + " Converting: " + input + " -> ", c, output);
    case Success(i, t, output) =>
      StartsWithAppend(c, c, " SUCCESS: ");
      StartsWithAppend(c + " SUCCESS: ", c, output);
      StartsWithAppend(c + " SUCCESS: " + output, c, "\n");
    case ConversionError(i, t, f, err) =>
      StartsWithAppend(c, c, " ERROR converting ");
      StartsWithAppend(c + " ERROR converting ", c, f);
      StartsWithAppend(c + " ERROR converting " + f, c, ":\n");
      StartsWithAppend(c + " ERROR converting " + f + ":\n", c, err);
      StartsWithAppend(c + " ERROR converting " + f + ":\n" + err, c, "\n");
    case Unexpected(i, t, f, msg) =>
      StartsWithAppend(c, c, " UNEXPECTED ERROR for ");
      StartsWithAppend(c + " UNEXPECTED ERROR for ", c, f);
      StartsWithAppend(c + " UNEXPECTED ERROR for " + f, c, ": ");
      StartsWithAppend(c + " UNEXPECTED ERROR for " + f + ": ", c, msg);
      StartsWithAppend(c + " UNEXPECTED ERROR for " + f + ": " + msg, c, "\n");
  }

  /** How `subprocess.run(cmd, check=True, ...)` ended for one file: the decoded stderr
      on exit status 0; `CalledProcessError` with its decoded stderr and `str(e)`; or any
      other exception, with `str(e)`. */
  datatype RunResult = Finished(stderr: string) | NonZeroExit(stderr: string, message: string) | Raised(message: string)

  predicate IsConverting(m: Message) { m.Converting? }

  predicate IsTerminal(m: Message) { m.Success? || m.ConversionError? || m.Unexpected? }

  /** The last entry logged for a file, chosen by how its conversion ended. */
  function Terminal(idx: int, total: int, job: Job, res: RunResult): (m: Message)
    ensures IsTerminal(m)
    ensures m.Success? <==> res.Finished?
    ensures m.ConversionError? <==> res.NonZeroExit?
    ensures m.ConversionError? ==> m.err == (if res.stderr != [] then res.stderr else res.message)
  {
    match res
    case Finished(_) => Success(idx, total, job.output)
    case NonZeroExit(stderr, message) =>
      ConversionError(idx, total, job.filename, if stderr != [] then stderr else message)
    case Raised(message) => Unexpected(idx, total, job.filename, message)
  }

  /** The stripped stderr a run leaves for the log: only a successful run's counts. */
  function StderrText(res: RunResult): string
  {
    match res
    case Finished(stderr) => Strip(stderr, Whitespace)
    case _ => []
  }

  /** The stderr text a successful run logs is its stderr with the surrounding
      whitespace stripped; for a failed run this entry logs nothing. */
  lemma StderrTextStripped(res: RunResult)
    ensures res.Finished? ==> StripsTo(res.stderr, Whitespace, StderrText(res))
    ensures !res.Finished? ==> StderrText(res) == []
  {
    if res.Finished? {
      StripSpec(res.stderr, Whitespace);
    }
  }

  /** Everything logged for one file: the Converting entry, ffmpeg's stripped stderr when
      a successful run left any, and the terminal entry. */
  function Attempt(idx: int, total: int, job: Job, res: RunResult): (r: seq<Message>)
    ensures 2 <= |r| <= 3
    ensures r[0] == Converting(idx, total, job.input, job.output)
    ensures r[|r| - 1] == Terminal(idx, total, job, res)
    ensures |r| == 3 <==> StderrText(res) != []
    ensures |r| == 3 ==> r[1] == FfmpegOutput(job.filename, StderrText(res))
  {
    var text := StderrText(res);
    [Converting(idx, total, job.input, job.output)]
      + (if text != [] then [FfmpegOutput(job.filename, text)] else [])
      + [Terminal(idx, total, job, res)]
  }

  /** The entries the conversion loop logs, grouped by file: group `i` is what is logged
      for `jobs[i]`, `outcome(i)` being how ffmpeg ended for that launch. */
  function Attempts(jobs: seq<Job>, outcome: nat -> RunResult): (r: seq<seq<Message>>)
    ensures |r| == |jobs|
    ensures forall i :: 0 <= i < |jobs| ==> r[i] == Attempt(i + 1, |jobs|, jobs[i], outcome(i))
  {
    seq(|jobs|, i requires 0 <= i < |jobs| => Attempt(i + 1, |jobs|, jobs[i], outcome(i)))
  }

  /** The whole log of the conversion loop. */
  function ConversionLog(jobs: seq<Job>, outcome: nat -> RunResult): seq<Message>
  {
    Flatten(Attempts(jobs, outcome))
  }

  /** The shape every file's group of entries has. */
  ghost predicate Group(b: seq<Message>)
  {
    2 <= |b| <= 3 && b[0].Converting? && IsTerminal(b[|b| - 1]) && (|b| == 3 ==> b[1].FfmpegOutput?)
  }

  lemma GroupFilters(b: seq<Message>)
    requires Group(b)
    ensures Filter(b, IsConverting) == [b[0]]
    ensures Filter(b, IsTerminal) == [b[|b| - 1]]
  {
    FilterShort(b, IsConverting);
    FilterShort(b, IsTerminal);
  }

  /** Joining groups keeps, of each group, its first entry as the only Converting entry. */
  lemma FlattenConverting(bs: seq<seq<Message>>)
    requires forall i :: 0 <= i < |bs| ==> Group(bs[i])
    ensures var c := Filter(Flatten(bs), IsConverting);
      |c| == |bs| && forall i :: 0 <= i < |bs| ==> |bs[i]| >= 2 && c[i] == bs[i][0]
  {
    var firsts := seq(|bs|, i requires 0 <= i < |bs| => bs[i][0]);
    forall i | 0 <= i < |bs| ensures Filter(bs[i], IsConverting) == [firsts[i]] {
      GroupFilters(bs[i]);
    }
    FilterFlatten(bs, IsConverting, firsts);
  }

  /** Joining groups keeps, of each group, its last entry as the only terminal entry. */
  lemma FlattenTerminal(bs: seq<seq<Message>>)
    requires forall i :: 0 <= i < |bs| ==> Group(bs[i])
    ensures var t := Filter(Flatten(bs), IsTerminal);
      |t| == |bs| && forall i :: 0 <= i < |bs| ==> |bs[i]| >= 2 && t[i] == bs[i][|bs[i]| - 1]
  {
    var lasts := seq(|bs|, i requires 0 <= i < |bs| => bs[i][|bs[i]| - 1]);
    forall i | 0 <= i < |bs| ensures Filter(bs[i], IsTerminal) == [lasts[i]] {
      GroupFilters(bs[i]);
    }
    FilterFlatten(bs, IsTerminal, lasts);
  }

  lemma AttemptsAreGroups(jobs: seq<Job>, outcome: nat -> RunResult)
    ensures forall i :: 0 <= i < |jobs| ==> Group(Attempts(jobs, outcome)[i])
  {
    forall i | 0 <= i < |jobs| ensures Group(Attempts(jobs, outcome)[i]) {
      var a := Attempts(jobs, outcome)[i];
      assert a == Attempt(i + 1, |jobs|, jobs[i], outcome(i));
    }
  }

  /** Every job gets its Converting entry, in order and numbered 1..total, whatever the
      earlier conversions did: a failure never keeps a later file from being tried. */
  lemma EveryFileAttempted(jobs: seq<Job>, outcome: nat -> RunResult)
    ensures var c := Filter(ConversionLog(jobs, outcome), IsConverting);
      |c| == |jobs| && forall i :: 0 <= i < |jobs| ==> c[i] == Converting(i + 1, |jobs|, jobs[i].input, jobs[i].output)
  {
    AttemptsAreGroups(jobs, outcome);
    FlattenConverting(Attempts(jobs, outcome));
  }

  /** Each job gets exactly one terminal entry, in job order, and it reports that job's
      own outcome. */
  lemma OneOutcomePerFile(jobs: seq<Job>, outcome: nat -> RunResult)
    ensures var t := Filter(ConversionLog(jobs, outcome), IsTerminal);
      |t| == |jobs| && forall i :: 0 <= i < |jobs| ==> t[i] == Terminal(i + 1, |jobs|, jobs[i], outcome(i))
  {
    AttemptsAreGroups(jobs, outcome);
    FlattenTerminal(Attempts(jobs, outcome));
  }

  /** The kind of an entry: `C`onverting, ffmpeg `O`utput, `T`erminal, anything else `X`. */
  function Kind(m: Message): char
  {
    if m.Converting? then 'C' else if m.FfmpegOutput? then 'O' else if IsTerminal(m) then 'T' else 'X'
  }

  function Kinds(log: seq<Message>): (r: seq<char>)
    ensures |r| == |log| && forall k :: 0 <= k < |log| ==> r[k] == Kind(log[k])
  {
    seq(|log|, k requires 0 <= k < |log| => Kind(log[k]))
  }

  /** The shape `(C O? T)*`: each Converting entry is followed by at most one ffmpeg
      output entry and then exactly one terminal entry, before the next file starts. */
  predicate Framed(k: seq<char>)
    decreases |k|
  {
    k == [] ||
    (|k| >= 2 && k[0] == 'C' && k[1] == 'T' && Framed(k[2..])) ||
    (|k| >= 3 && k[0] == 'C' && k[1] == 'O' && k[2] == 'T' && Framed(k[3..]))
  }

  lemma {:induction false} FramedAppend(a: seq<char>, b: seq<char>)
    requires Framed(a) && Framed(b)
    ensures Framed(a + b)
    decreases |a|
  {
    if a == [] {
      assert a + b == b;
    } else if |a| >= 2 && a[0] == 'C' && a[1] == 'T' && Framed(a[2..]) {
      FramedAppend(a[2..], b);
      assert (a + b)[2..] == a[2..] + b;
    } else {
      FramedAppend(a[3..], b);
      assert (a + b)[3..] == a[3..] + b;
    }
  }

  /** A group's entries have the shape `C T` or `C O T`. */
  lemma GroupFramed(b: seq<Message>)
    requires Group(b)
    ensures Framed(Kinds(b))
  {
    var kb := Kinds(b);
    if |b| == 2 {
      assert kb == ['C', 'T'] && kb[2..] == [];
    } else {
      assert kb == ['C', 'O', 'T'] && kb[3..] == [];
    }
  }

  lemma {:induction false} FlattenFramed(bs: seq<seq<Message>>)
    requires forall i :: 0 <= i < |bs| ==> Group(bs[i])
    ensures Framed(Kinds(Flatten(bs)))
  {
    if bs != [] {
      var init, b := bs[..|bs| - 1], bs[|bs| - 1];
      FlattenFramed(init);
      GroupFramed(b);
      assert Kinds(Flatten(init) + b) == Kinds(Flatten(init)) + Kinds(b);
      FramedAppend(Kinds(Flatten(init)), Kinds(b));
    }
  }

  /** The conversion loop's log has the `(C O? T)*` shape. */
  lemma ConversionLogFramed(jobs: seq<Job>, outcome: nat -> RunResult)
    ensures Framed(Kinds(ConversionLog(jobs, outcome)))
  {
    AttemptsAreGroups(jobs, outcome);
    FlattenFramed(Attempts(jobs, outcome));
  }

  // ---------------------------------------------------------------------------------
  // The conversion loop of main

  /** The `try` block and its handlers for one file: log the Converting entry, then what
      the run's outcome calls for. */
  method LogAttempt(idx: int, totalFiles: int, job: Job, res: RunResult) returns (entries: seq<Message>)
    ensures entries == Attempt(idx, totalFiles, job, res)
  {
    entries := [Converting(idx, totalFiles, job.input, job.output)];
    match res {
      case Finished(stderr) =>
        var stderrText := Strip(stderr, Whitespace);
        if stderrText != [] {
          entries := entries + [FfmpegOutput(job.filename, stderrText)];
        }
        entries := entries + [Success(idx, totalFiles, job.output)];
      case NonZeroExit(stderr, message) =>
        var err := if stderr != [] then stderr else message;
        entries := entries + [ConversionError(idx, totalFiles, job.filename, err)];
      case Raised(message) =>
        entries := entries + [Unexpected(idx, totalFiles, job.filename, message)];
    }
  }

  /** The progress line drawn for each file, numbered from 1. */
  function ProgressLines(files: seq<string>): (r: seq<Message>)
    ensures |r| == |files| && forall i :: 0 <= i < |files| ==> r[i] == Progress(i + 1, |files|, files[i])
  {
    seq(|files|, i requires 0 <= i < |files| => Progress(i + 1, |files|, files[i]))
  }

  /** The command launched for each job. */
  function Launches(ffmpeg: string, jobs: seq<Job>, codec: Codec): (r: seq<seq<string>>)
    ensures |r| == |jobs| && forall i :: 0 <= i < |jobs| ==> r[i] == VideoCommand(ffmpeg, jobs[i].input, codec, jobs[i].output)
  {
    seq(|jobs|, i requires 0 <= i < |jobs| => VideoCommand(ffmpeg, jobs[i].input, codec, jobs[i].output))
  }

  /** One pass of the loop body: the paths, the log entries, the progress line and the
      command for file number `idx` of `totalFiles`. */
  method ConvertFile(idx: int, totalFiles: int, filename: string, ffmpeg: string, inputFolder: string,
                     outputFolder: string, ext: string, codec: Codec, res: RunResult)
    returns (entries: seq<Message>, line: Message, cmd: seq<string>)
    ensures var job := JobFor(inputFolder, outputFolder, ext, filename);
      entries == Attempt(idx, totalFiles, job, res) && line == Progress(idx, totalFiles, filename) &&
      cmd == VideoCommand(ffmpeg, job.input, codec, job.output)
  {
    var inputFile := Join(inputFolder, filename);
    var outputFile := OutputPath(outputFolder, filename, ext);
    var job := Job(filename, inputFile, outputFile);
    line := Progress(idx, totalFiles, filename);
    cmd := [ffmpeg, "-y", "-i", inputFile, "-c:v", codec.vcodec, "-b:v", codec.bitrate, "-c:a", codec.acodec];
    cmd := cmd + [outputFile];
    entries := LogAttempt(idx, totalFiles, job, res);
  }

  /** `for idx, filename in enumerate(video_files, start=1)`: every file is tried in
      turn; a failure is logged and the loop goes on with the next file. */
  method ConvertAll(files: seq<string>, ffmpeg: string, inputFolder: string, outputFolder: string,
                    ext: string, codec: Codec, outcome: nat -> RunResult)
    returns (log: seq<Message>, console: seq<Message>, commands: seq<seq<string>>)
    ensures var jobs := Jobs(files, inputFolder, outputFolder, ext);
      log == ConversionLog(jobs, outcome) && console == ProgressLines(files) &&
      commands == Launches(ffmpeg, jobs, codec)
  {
    ghost var jobs := Jobs(files, inputFolder, outputFolder, ext);
    ghost var attempts := Attempts(jobs, outcome);
    ghost var lines := ProgressLines(files);
    ghost var launched := Launches(ffmpeg, jobs, codec);
    log, console, commands := [], [], [];
    var totalFiles := |files|;
    var idx := 1;
    while idx <= totalFiles
      invariant 1 <= idx <= totalFiles + 1
      invariant log == Flatten(attempts[..idx - 1])
      invariant console == lines[..idx - 1]
      invariant commands == launched[..idx - 1]
    {
      var entries, line, cmd := ConvertFile(idx, totalFiles, files[idx - 1], ffmpeg, inputFolder, outputFolder,
                                            ext, codec, outcome(idx - 1));
      assert entries == attempts[idx - 1];
      FlattenSnoc(attempts[..idx - 1], entries);
      PrefixSnoc(attempts, idx - 1);
      PrefixSnoc(lines, idx - 1);
      PrefixSnoc(launched, idx - 1);
      log := log + entries;
      console := console + [line];
      commands := commands + [cmd];
      idx := idx + 1;
    }
    WholePrefix(attempts);
    WholePrefix(lines);
    WholePrefix(launched);
  }

  // ---------------------------------------------------------------------------------
  // main

  /** Where `main` stopped. */
  datatype Exit = FfmpegNotFound | InputFolderMissing | NoVideoFiles | InvalidChoice | Completed

  /** `if not ffmpeg_path`: `None` and the empty string both count as not found. */
  predicate Found(ffmpeg: Option<string>)
  {
    ffmpeg.Some? && ffmpeg.value != []
  }

  /** Where `main` stops, checking in its own order: ffmpeg, the input folder, the files
      found, the menu answer. */
  function ExitFor(ffmpeg: Option<string>, inputIsDir: bool, files: seq<string>, choice: Choice): Exit
  {
    if !Found(ffmpeg) then FfmpegNotFound
    else if !inputIsDir then InputFolderMissing
    else if files == [] then NoVideoFiles
    else if SelectFormat(choice).None? then InvalidChoice
    else Completed
  }

  /** A run gets to the end exactly when every check passes, and a missing ffmpeg stops
      it whatever else holds; `None` and the empty path both count as missing. */
  lemma ExitForChecks(ffmpeg: Option<string>, inputIsDir: bool, files: seq<string>, choice: Choice)
    ensures ExitFor(ffmpeg, inputIsDir, files, choice) == Completed <==>
      Found(ffmpeg) && inputIsDir && files != [] && SelectFormat(choice).Some?
    ensures ExitFor(ffmpeg, inputIsDir, files, choice) == FfmpegNotFound <==> !Found(ffmpeg)
    ensures !Found(None) && !Found(Some([]))
  {
  }

  /** No entry of `log` belongs to the conversion loop's Converting or terminal kinds. */
  ghost predicate OutsideLoop(log: seq<Message>)
  {
    forall k :: 0 <= k < |log| ==> !IsConverting(log[k]) && !IsTerminal(log[k])
  }

  /** `for f in video_files: write_log(log_file, f" - {f}")`. */
  method ListDetected(files: seq<string>) returns (entries: seq<Message>)
    ensures |entries| == |files|
    ensures forall i :: 0 <= i < |files| ==> entries[i] == DetectedFile(files[i])
  {
    entries := [];
    for i := 0 to |files|
      invariant |entries| == i
      invariant forall j :: 0 <= j < i ==> entries[j] == DetectedFile(files[j])
    {
      entries := entries + [DetectedFile(files[i])];
    }
  }

  lemma OutsideLoopAppend(a: seq<Message>, b: seq<Message>)
    requires OutsideLoop(a) && OutsideLoop(b)
    ensures OutsideLoop(a + b)
  {
    forall k | 0 <= k < |a + b| ensures !IsConverting((a + b)[k]) && !IsTerminal((a + b)[k]) {
      if k < |a| { assert (a + b)[k] == a[k]; } else { assert (a + b)[k] == b[k - |a|]; }
    }
  }

  lemma PreambleOutsideLoop(header: Message, input: Message, output: Message)
    requires header.Header? && input.InputFolderIs? && output.OutputFolderIs?
    ensures OutsideLoop([header] + [input, output])
  {
  }

  /** The entries `main` logs after the conversion loop. */
  function Closing(finished: string): seq<Message>
  {
    [BatchComplete, ThankYou, FinishedAt(finished)]
  }

  /** The notice `main` logs and prints when the output folder is missing. */
  function OutputFolderNotice(outputIsDir: bool, outputFolder: string): seq<Message>
  {
    if outputIsDir then [] else [CreatingOutputFolder(outputFolder)]
  }

  /** One ` - name` entry per detected file. */
  function DetectedEntries(files: seq<string>): seq<Message>
  {
    seq(|files|, i requires 0 <= i < |files| => DetectedFile(files[i]))
  }

  /** What `main` logs once files were found, before it reads the choice: the files
      detected and one `Format option` entry per key. */
  function FoundLog(files: seq<string>): seq<Message>
  {
    [DetectedFiles] + DetectedEntries(files) +
    seq(|FormatKeys|, i requires 0 <= i < |FormatKeys| => FormatOption(i + 1, FormatKeys[i]))
  }

  /** What `main` prints once files were found: the menu and the prompt for the choice. */
  function MenuConsole(): seq<Message>
  {
    [MenuHeader] + seq(|FormatKeys|, i requires 0 <= i < |FormatKeys| => MenuItem(i + 1, FormatKeys[i])) +
    [ChoicePrompt]
  }

  /** What `main` logs from the chosen format on. */
  function ChosenLog(ext: string, codec: Codec, jobs: seq<Job>, outcome: nat -> RunResult, finished: string)
    : seq<Message>
  {
    [ChosenFormat(ext, codec), BeginningConversions] + ConversionLog(jobs, outcome) + Closing(finished)
  }

  /** What `main` prints from the chosen format on: one progress line per file, the
      bare `print()` that ends them, and the thank-you line. */
  function ChosenConsole(files: seq<string>): seq<Message>
  {
    ProgressLines(files) + [EndOfProgress, ThankYou]
  }

  /** What `main` logs from the chosen format on, and the commands it launches: the
      loop's log for the jobs `jobs` in one piece, after entries of other kinds and
      before the closing entries, and one command per job. */
  ghost predicate LoggedConversions(log: seq<Message>, commands: seq<seq<string>>, ffmpeg: string,
                                    jobs: seq<Job>, codec: Codec, outcome: nat -> RunResult, finished: string)
  {
    commands == Launches(ffmpeg, jobs, codec) &&
    exists pre :: OutsideLoop(pre) && log == pre + ConversionLog(jobs, outcome) + Closing(finished)
  }

  /** The part of `main` after files were found: list them, show the menu, read the
      choice, and convert every file. */
  method ChooseAndConvert(videoFiles: seq<string>, ffmpeg: string, inputFolder: string, outputFolder: string,
                          choice: Choice, outcome: nat -> RunResult, finished: string)
    returns (exit: Exit, log: seq<Message>, console: seq<Message>, commands: seq<seq<string>>)
    ensures exit == (if SelectFormat(choice).None? then InvalidChoice else Completed)
    ensures exit == InvalidChoice ==>
      commands == [] && OutsideLoop(log) &&
      log == FoundLog(videoFiles) + [ChoiceRejected] && console == MenuConsole() + [ChoiceRejected]
    ensures exit == Completed ==>
      var ext := SelectFormat(choice).value;
      var jobs := Jobs(videoFiles, inputFolder, outputFolder, ext);
      LoggedConversions(log, commands, ffmpeg, jobs, CodecFor(ext).value, outcome, finished) &&
      log == FoundLog(videoFiles) + ChosenLog(ext, CodecFor(ext).value, jobs, outcome, finished) &&
      console == MenuConsole() + ChosenConsole(videoFiles)
  {
    commands := [];
    var detected := ListDetected(videoFiles);
    var menuConsole, menuLog := FormatMenu();
    console := [MenuHeader] + menuConsole + [ChoicePrompt];
    assert console == MenuConsole();
    assert OutsideLoop([DetectedFiles] + detected);
    assert OutsideLoop(menuLog);
    OutsideLoopAppend([DetectedFiles] + detected, menuLog);
    var pre := [DetectedFiles] + detected + menuLog;
    assert detected == DetectedEntries(videoFiles);
    assert pre == FoundLog(videoFiles);
    var selected := SelectFormat(choice);
    if selected.None? {
      OutsideLoopAppend(pre, [ChoiceRejected]);
      console, log := console + [ChoiceRejected], pre + [ChoiceRejected];
      exit := InvalidChoice;
    } else {
      var restLog, restConsole;
      restLog, restConsole, commands := ConvertChosen(videoFiles, ffmpeg, inputFolder, outputFolder,
                                                      selected.value, outcome, finished);
      console := console + restConsole;
      log := pre + restLog;
      exit := Completed;
      LoggedAfter(pre, restLog, commands, ffmpeg, Jobs(videoFiles, inputFolder, outputFolder, selected.value),
                  CodecFor(selected.value).value, outcome, finished);
    }
  }

  /** The part of `main` after a format was chosen: log the choice, convert every file,
      and finish. */
  method ConvertChosen(videoFiles: seq<string>, ffmpeg: string, inputFolder: string, outputFolder: string,
                       outputExt: string, outcome: nat -> RunResult, finished: string)
    returns (log: seq<Message>, console: seq<Message>, commands: seq<seq<string>>)
    requires CodecFor(outputExt).Some?
    ensures var jobs := Jobs(videoFiles, inputFolder, outputFolder, outputExt);
      log == [ChosenFormat(outputExt, CodecFor(outputExt).value), BeginningConversions] + ConversionLog(jobs, outcome) +
             [BatchComplete, ThankYou, FinishedAt(finished)] &&
      console == ProgressLines(videoFiles) + [EndOfProgress, ThankYou]
    ensures LoggedConversions(log, commands, ffmpeg, Jobs(videoFiles, inputFolder, outputFolder, outputExt),
                              CodecFor(outputExt).value, outcome, finished)
  {
    var codec := CodecFor(outputExt).value;
    var pre := [ChosenFormat(outputExt, codec), BeginningConversions];
    assert OutsideLoop(pre);
    var loopLog, progress, cmds := ConvertAll(videoFiles, ffmpeg, inputFolder, outputFolder, outputExt, codec, outcome);
    commands := cmds;
    console := progress + [EndOfProgress, ThankYou];
    log := pre + loopLog + [BatchComplete, ThankYou, FinishedAt(finished)];
    LoopLogged(pre, ffmpeg, Jobs(videoFiles, inputFolder, outputFolder, outputExt), codec, outcome, finished);
  }

  /** The conversion stage's log and launches are what `LoggedConversions` asks for. */
  lemma LoopLogged(pre: seq<Message>, ffmpeg: string, jobs: seq<Job>, codec: Codec, outcome: nat -> RunResult,
                   finished: string)
    requires OutsideLoop(pre)
    ensures LoggedConversions(pre + ConversionLog(jobs, outcome) + Closing(finished), Launches(ffmpeg, jobs, codec),
                              ffmpeg, jobs, codec, outcome, finished)
  {
  }

  /** Entries logged before the conversion phase leave its log in one piece. */
  lemma LoggedAfter(head: seq<Message>, log: seq<Message>, commands: seq<seq<string>>, ffmpeg: string,
                    jobs: seq<Job>, codec: Codec, outcome: nat -> RunResult, finished: string)
    requires OutsideLoop(head) && LoggedConversions(log, commands, ffmpeg, jobs, codec, outcome, finished)
    ensures LoggedConversions(head + log, commands, ffmpeg, jobs, codec, outcome, finished)
  {
    var mid, post := ConversionLog(jobs, outcome), Closing(finished);
    var pre :| OutsideLoop(pre) && log == pre + mid + post;
    OutsideLoopAppend(head, pre);
    AppendAssoc(head, pre + mid, post);
    AppendAssoc(head, pre, mid);
  }

  /** A log the conversion phase ends ends in the `Finished:` entry. */
  lemma LoggedEnds(log: seq<Message>, commands: seq<seq<string>>, ffmpeg: string, jobs: seq<Job>, codec: Codec,
                   outcome: nat -> RunResult, finished: string)
    requires LoggedConversions(log, commands, ffmpeg, jobs, codec, outcome, finished)
    ensures log != [] && log[|log| - 1] == FinishedAt(finished)
  {
    var pre :| OutsideLoop(pre) && log == pre + ConversionLog(jobs, outcome) + Closing(finished);
    LastOfAppend(pre + ConversionLog(jobs, outcome), Closing(finished));
  }

  /** Such a log holds, of all its Converting and terminal entries, exactly those of the
      loop: one of each per job, in job order, the terminal one reporting that job's own
      outcome; and each job's command is launched in the same order. */
  lemma LoggedReport(log: seq<Message>, commands: seq<seq<string>>, ffmpeg: string, jobs: seq<Job>, codec: Codec,
                     outcome: nat -> RunResult, finished: string)
    requires LoggedConversions(log, commands, ffmpeg, jobs, codec, outcome, finished)
    ensures var c, t := Filter(log, IsConverting), Filter(log, IsTerminal);
      |commands| == |jobs| && |c| == |jobs| && |t| == |jobs| &&
      forall i :: 0 <= i < |jobs| ==>
        commands[i] == VideoCommand(ffmpeg, jobs[i].input, codec, jobs[i].output) &&
        c[i] == Converting(i + 1, |jobs|, jobs[i].input, jobs[i].output) &&
        t[i] == Terminal(i + 1, |jobs|, jobs[i], outcome(i))
  {
    var pre :| OutsideLoop(pre) && log == pre + ConversionLog(jobs, outcome) + Closing(finished);
    assert OutsideLoop(Closing(finished));
    EveryFileAttempted(jobs, outcome);
    OneOutcomePerFile(jobs, outcome);
    CompletedFilters(pre, ConversionLog(jobs, outcome), Closing(finished));
  }

  /** The part of `main` after ffmpeg was found: check the input folder, then go on to
      the scan. */
  method ScanAndConvert(ffmpeg: string, inputFolder: string, outputFolder: string, inputIsDir: bool,
                        outputIsDir: bool, listing: seq<Entry>, choice: Choice, outcome: nat -> RunResult,
                        finished: string)
    returns (exit: Exit, log: seq<Message>, console: seq<Message>, commands: seq<seq<string>>)
    requires ffmpeg != []
    ensures exit == ExitFor(Some(ffmpeg), inputIsDir, VideoFiles(listing), choice)
    ensures exit != Completed ==> commands == [] && OutsideLoop(log)
    ensures exit == InputFolderMissing ==>
      log == [MissingInputFolder(inputFolder)] && console == [MissingInputFolder(inputFolder)]
    ensures var notice := OutputFolderNotice(outputIsDir, outputFolder);
      exit == NoVideoFiles ==> log == notice + [NoVideoFilesFound] && console == notice + [NoVideoFilesFound]
    ensures var notice, files := OutputFolderNotice(outputIsDir, outputFolder), VideoFiles(listing);
      exit == InvalidChoice ==>
        log == notice + FoundLog(files) + [ChoiceRejected] && console == notice + MenuConsole() + [ChoiceRejected]
    ensures exit == Completed ==>
      var notice, files, ext := OutputFolderNotice(outputIsDir, outputFolder), VideoFiles(listing), SelectFormat(choice).value;
      var jobs := Jobs(files, inputFolder, outputFolder, ext);
      LoggedConversions(log, commands, ffmpeg, jobs, CodecFor(ext).value, outcome, finished) &&
      log == notice + FoundLog(files) + ChosenLog(ext, CodecFor(ext).value, jobs, outcome, finished) &&
      console == notice + MenuConsole() + ChosenConsole(files)
  {
    if !inputIsDir {
      commands := [];
      console, log := [MissingInputFolder(inputFolder)], [MissingInputFolder(inputFolder)];
      exit := InputFolderMissing;
    } else {
      exit, log, console, commands := FindAndConvert(ffmpeg, inputFolder, outputFolder, outputIsDir, listing,
                                                     choice, outcome, finished);
    }
  }

  /** The part of `main` after the input folder was found: create the output folder when
      it is missing, scan the input folder, then choose a format and convert. */
  method FindAndConvert(ffmpeg: string, inputFolder: string, outputFolder: string, outputIsDir: bool,
                        listing: seq<Entry>, choice: Choice, outcome: nat -> RunResult, finished: string)
    returns (exit: Exit, log: seq<Message>, console: seq<Message>, commands: seq<seq<string>>)
    ensures exit == if VideoFiles(listing) == [] then NoVideoFiles
      else if SelectFormat(choice).None? then InvalidChoice else Completed
    ensures exit != Completed ==> commands == [] && OutsideLoop(log)
    ensures var notice := OutputFolderNotice(outputIsDir, outputFolder);
      exit == NoVideoFiles ==> log == notice + [NoVideoFilesFound] && console == notice + [NoVideoFilesFound]
    ensures var notice, files := OutputFolderNotice(outputIsDir, outputFolder), VideoFiles(listing);
      exit == InvalidChoice ==>
        log == notice + FoundLog(files) + [ChoiceRejected] && console == notice + MenuConsole() + [ChoiceRejected]
    ensures exit == Completed ==>
      var notice, files, ext := OutputFolderNotice(outputIsDir, outputFolder), VideoFiles(listing), SelectFormat(choice).value;
      var jobs := Jobs(files, inputFolder, outputFolder, ext);
      LoggedConversions(log, commands, ffmpeg, jobs, CodecFor(ext).value, outcome, finished) &&
      log == notice + FoundLog(files) + ChosenLog(ext, CodecFor(ext).value, jobs, outcome, finished) &&
      console == notice + MenuConsole() + ChosenConsole(files)
  {
    commands := [];
    log, console := [], [];
    if !outputIsDir {
      console, log := [CreatingOutputFolder(outputFolder)], [CreatingOutputFolder(outputFolder)];
    }
    var videoFiles := GetVideoFiles(listing);
    var pre := log;
    assert pre == console == OutputFolderNotice(outputIsDir, outputFolder);
    if videoFiles == [] {
      console, log := console + [NoVideoFilesFound], log + [NoVideoFilesFound];
      exit := NoVideoFiles;
      return;
    }
    assert OutsideLoop(pre);
    var restLog, restConsole;
    exit, restLog, restConsole, commands := ChooseAndConvert(videoFiles, ffmpeg, inputFolder, outputFolder,
                                                            choice, outcome, finished);
    log := pre + restLog;
    console := console + restConsole;
    if exit == InvalidChoice {
      OutsideLoopAppend(pre, restLog);
      AppendAssoc(pre, FoundLog(videoFiles), [ChoiceRejected]);
      AppendAssoc(pre, MenuConsole(), [ChoiceRejected]);
    } else {
      var ext := SelectFormat(choice).value;
      var jobs := Jobs(videoFiles, inputFolder, outputFolder, ext);
      LoggedAfter(pre, restLog, commands, ffmpeg, jobs, CodecFor(ext).value, outcome, finished);
      AppendAssoc(pre, FoundLog(videoFiles), ChosenLog(ext, CodecFor(ext).value, jobs, outcome, finished));
      AppendAssoc(pre, MenuConsole(), ChosenConsole(videoFiles));
    }
  }

  /** One `main()` run. The environment is given as data: the script's folder, the two
      typed paths, what `find_ffmpeg` found, whether each folder is a directory, the
      input folder's listing, the parsed menu answer, how each ffmpeg launch ends, and
      the two timestamps. Each exit's log and console are stated in full. */
  method Run(scriptDir: string, rawInput: string, rawOutput: string, ffmpeg: Option<string>,
             inputIsDir: bool, outputIsDir: bool, listing: seq<Entry>, choice: Choice,
             outcome: nat -> RunResult, started: string, finished: string)
    returns (exit: Exit, log: seq<Message>, console: seq<Message>, commands: seq<seq<string>>)
    ensures exit == ExitFor(ffmpeg, inputIsDir, VideoFiles(listing), choice)
    ensures log != [] && log[0] == Header(started, scriptDir)
    ensures exit != Completed ==> commands == [] && OutsideLoop(log)
    ensures var head := [Header(started, scriptDir), InputFolderIs(CleanPath(rawInput)), OutputFolderIs(CleanPath(rawOutput))];
      exit == FfmpegNotFound ==>
        log == head + [MissingFfmpeg] && console == [InputPrompt, OutputPrompt, MissingFfmpeg]
    ensures var head := [Header(started, scriptDir), InputFolderIs(CleanPath(rawInput)), OutputFolderIs(CleanPath(rawOutput))];
      exit == InputFolderMissing ==>
        log == head + [UsingFfmpeg(ffmpeg.value), MissingInputFolder(CleanPath(rawInput))] &&
        console == [InputPrompt, OutputPrompt, MissingInputFolder(CleanPath(rawInput))]
    ensures var head := [Header(started, scriptDir), InputFolderIs(CleanPath(rawInput)), OutputFolderIs(CleanPath(rawOutput))];
      var notice := OutputFolderNotice(outputIsDir, CleanPath(rawOutput));
      exit == NoVideoFiles ==>
        log == head + [UsingFfmpeg(ffmpeg.value)] + notice + [NoVideoFilesFound] &&
        console == [InputPrompt, OutputPrompt] + notice + [NoVideoFilesFound]
    ensures var head := [Header(started, scriptDir), InputFolderIs(CleanPath(rawInput)), OutputFolderIs(CleanPath(rawOutput))];
      var notice, files := OutputFolderNotice(outputIsDir, CleanPath(rawOutput)), VideoFiles(listing);
      exit == InvalidChoice ==>
        log == head + [UsingFfmpeg(ffmpeg.value)] + notice + FoundLog(files) + [ChoiceRejected] &&
        console == [InputPrompt, OutputPrompt] + notice + MenuConsole() + [ChoiceRejected]
    ensures exit == Completed ==>
      var head := [Header(started, scriptDir), InputFolderIs(CleanPath(rawInput)), OutputFolderIs(CleanPath(rawOutput))];
      var notice, files, ext := OutputFolderNotice(outputIsDir, CleanPath(rawOutput)), VideoFiles(listing), SelectFormat(choice).value;
      var jobs := Jobs(files, CleanPath(rawInput), CleanPath(rawOutput), ext);
      LoggedConversions(log, commands, ffmpeg.value, jobs, CodecFor(ext).value, outcome, finished) &&
      log[|log| - 1] == FinishedAt(finished) &&
      log == head + [UsingFfmpeg(ffmpeg.value)] + notice + FoundLog(files) + ChosenLog(ext, CodecFor(ext).value, jobs, outcome, finished) &&
      console == [InputPrompt, OutputPrompt] + notice + MenuConsole() + ChosenConsole(files)
  {
    commands := [];
    log := [Header(started, scriptDir)];
    console := [InputPrompt];
    var inputFolder := CleanPath(rawInput);
    console := console + [OutputPrompt];
    var outputFolder := CleanPath(rawOutput);
    log := log + [InputFolderIs(inputFolder), OutputFolderIs(outputFolder)];
    ghost var head := [Header(started, scriptDir), InputFolderIs(inputFolder), OutputFolderIs(outputFolder)];
    assert log == head && console == [InputPrompt, OutputPrompt];
    PreambleOutsideLoop(log[0], log[1], log[2]);
    if !Found(ffmpeg) {
      OutsideLoopAppend(log, [MissingFfmpeg]);
      console, log := console + [MissingFfmpeg], log + [MissingFfmpeg];
      exit := FfmpegNotFound;
    } else {
      var pre := log;
      var prompts := console;
      var restLog, restConsole;
      exit, restLog, restConsole, commands := ReportAndConvert(pre, ffmpeg.value, inputFolder, outputFolder,
                                                              inputIsDir, outputIsDir, listing, choice, outcome,
                                                              finished);
      log := pre + restLog;
      console := prompts + restConsole;
      FirstOfAppend(pre, restLog);
      var u, notice, files := [UsingFfmpeg(ffmpeg.value)], OutputFolderNotice(outputIsDir, outputFolder), VideoFiles(listing);
      if exit == InputFolderMissing {
        AppendAssoc(pre, u, [MissingInputFolder(inputFolder)]);
      } else if exit == NoVideoFiles {
        PrependThree(pre, u, notice, [NoVideoFilesFound]);
        AppendAssoc(prompts, notice, [NoVideoFilesFound]);
      } else if exit == InvalidChoice {
        PrependFour(pre, u, notice, FoundLog(files), [ChoiceRejected]);
        PrependThree(prompts, notice, MenuConsole(), [ChoiceRejected]);
      } else if exit == Completed {
        var ext := SelectFormat(choice).value;
        var jobs := Jobs(files, inputFolder, outputFolder, ext);
        PrependFour(pre, u, notice, FoundLog(files), ChosenLog(ext, CodecFor(ext).value, jobs, outcome, finished));
        PrependThree(prompts, notice, MenuConsole(), ChosenConsole(files));
        LoggedEnds(log, commands, ffmpeg.value, jobs, CodecFor(ext).value, outcome, finished);
      }
    }
  }

  /** The part of `main` after `find_ffmpeg` found an executable: log it, then go on to
      check the input folder. `pre` is what was logged before. */
  method ReportAndConvert(pre: seq<Message>, ffmpeg: string, inputFolder: string, outputFolder: string,
                          inputIsDir: bool, outputIsDir: bool, listing: seq<Entry>, choice: Choice,
                          outcome: nat -> RunResult, finished: string)
    returns (exit: Exit, log: seq<Message>, console: seq<Message>, commands: seq<seq<string>>)
    requires ffmpeg != [] && OutsideLoop(pre)
    ensures exit == ExitFor(Some(ffmpeg), inputIsDir, VideoFiles(listing), choice)
    ensures exit != Completed ==> commands == [] && OutsideLoop(pre + log)
    ensures exit == InputFolderMissing ==>
      log == [UsingFfmpeg(ffmpeg), MissingInputFolder(inputFolder)] && console == [MissingInputFolder(inputFolder)]
    ensures var notice := OutputFolderNotice(outputIsDir, outputFolder);
      exit == NoVideoFiles ==>
        log == [UsingFfmpeg(ffmpeg)] + notice + [NoVideoFilesFound] && console == notice + [NoVideoFilesFound]
    ensures var notice, files := OutputFolderNotice(outputIsDir, outputFolder), VideoFiles(listing);
      exit == InvalidChoice ==>
        log == [UsingFfmpeg(ffmpeg)] + notice + FoundLog(files) + [ChoiceRejected] &&
        console == notice + MenuConsole() + [ChoiceRejected]
    ensures exit == Completed ==>
      var notice, files, ext := OutputFolderNotice(outputIsDir, outputFolder), VideoFiles(listing), SelectFormat(choice).value;
      var jobs := Jobs(files, inputFolder, outputFolder, ext);
      LoggedConversions(pre + log, commands, ffmpeg, jobs, CodecFor(ext).value, outcome, finished) &&
      log == [UsingFfmpeg(ffmpeg)] + notice + FoundLog(files) + ChosenLog(ext, CodecFor(ext).value, jobs, outcome, finished) &&
      console == notice + MenuConsole() + ChosenConsole(files)
  {
    OutsideLoopAppend(pre, [UsingFfmpeg(ffmpeg)]);
    var head := pre + [UsingFfmpeg(ffmpeg)];
    var restLog, restConsole;
    exit, restLog, restConsole, commands := ScanAndConvert(ffmpeg, inputFolder, outputFolder, inputIsDir,
                                                          outputIsDir, listing, choice, outcome, finished);
    log := [UsingFfmpeg(ffmpeg)] + restLog;
    console := restConsole;
    AppendAssoc(pre, [UsingFfmpeg(ffmpeg)], restLog);
    var u, notice, files := [UsingFfmpeg(ffmpeg)], OutputFolderNotice(outputIsDir, outputFolder), VideoFiles(listing);
    if exit != Completed {
      OutsideLoopAppend(head, restLog);
      if exit == NoVideoFiles {
        AppendAssoc(u, notice, [NoVideoFilesFound]);
      } else if exit == InvalidChoice {
        PrependThree(u, notice, FoundLog(files), [ChoiceRejected]);
      }
    } else {
      var ext := SelectFormat(choice).value;
      var jobs := Jobs(files, inputFolder, outputFolder, ext);
      LoggedAfter(head, restLog, commands, ffmpeg, jobs, CodecFor(ext).value, outcome, finished);
      PrependThree(u, notice, FoundLog(files), ChosenLog(ext, CodecFor(ext).value, jobs, outcome, finished));
    }
  }

  /** Entries logged before and after the loop do not disturb what the loop logged. */
  lemma CompletedFilters(pre: seq<Message>, mid: seq<Message>, post: seq<Message>)
    requires OutsideLoop(pre) && OutsideLoop(post)
    ensures Filter(pre + mid + post, IsConverting) == Filter(mid, IsConverting)
    ensures Filter(pre + mid + post, IsTerminal) == Filter(mid, IsTerminal)
  {
    FilterNone(pre, IsConverting);
    FilterNone(post, IsConverting);
    FilterNone(pre, IsTerminal);
    FilterNone(post, IsTerminal);
    FilterAppend(pre, mid, IsConverting);
    FilterAppend(pre + mid, post, IsConverting);
    FilterAppend(pre, mid, IsTerminal);
    FilterAppend(pre + mid, post, IsTerminal);
  }
}
