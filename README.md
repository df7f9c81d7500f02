# ffmpeg batch converters, modelled in Dafny

The repository holds two command-line scripts, `video.py` and `audio.py`. Each script:

1. asks for an input and an output folder and cleans the typed paths;
2. finds an ffmpeg executable;
3. scans the input folder for files with a known extension;
4. shows a numbered menu of output formats and reads a choice;
5. launches ffmpeg once per file, with an argument list built from a codec table.

The video script also writes a log file and redraws a progress bar. The audio script prints one line per file and reports a failed conversion.

The model covers all of this once the environment is given as data:

- the directory listing is a sequence of `(name, isFile)` entries;
- the menu answer is an already parsed number, or "not a number";
- the end of each ffmpeg launch is a function from the launch's index to its result;
- the timestamps, the script's folder and the working directory are strings;
- what each script prints or logs is a sequence of `Message` values. A `Render` function gives each `Message`'s exact text.

Modules, one per file:

- `Common` (`common.dfy`): Python building blocks. These are list indexing with negative indices, `//`, string `*`, ASCII `lower`, the `{s:40}` field and `endswith`.
- `Paths` (`paths.dfy`): `str.strip`, `clean_path`, `os.path.splitext` (POSIX rules), `os.path.join` (POSIX), and the per-file job (input path and output path).
- `Scanning` (`scanning.dfy`): the folder scan both scripts share, the extension filter, and Python's `sorted` on names (an insertion sort, proved sorted and a permutation).
- `Arguments` (`arguments.dfy`): how ffmpeg reads an argument list back. The executable comes first, the output last, and flag/value pairs sit in between.
- `Sequences` (`sequences.dfy`): filtering and joining the per-file groups of log lines.
- `VideoConverter` (`video.dfy`): `video.py`.
- `AudioConverter` (`audio.dfy`): `audio.py`.

The scans and the per-file loops are methods with loop invariants. Each is proved equal to a specification function, and the source's promises are proved about those functions:

- every file is attempted, in order;
- every file gets exactly one outcome entry (video);
- an error line appears exactly for the non-zero exits (audio);
- the commands are the ones the codec table calls for.

`main` is a chain of methods, one per stage where the script can stop (for example `Run`, `ScanAndConvert`, `FindAndConvert`). Each method states:

- which exit it reaches;
- for each exit, the whole log (video) and console, entry by entry: the stage's own messages, the early-exit message, and, once the loop ran, the loop's output in one piece followed by the closing entries;
- on an early exit, that nothing was launched;
- once the loop ran, the commands launched.

Small functions name the fixed pieces: the output-folder notice, the lines that list the files and show the menu, and what a chosen format logs and prints.

Where the code is easy to misread, the model follows the code:

- `clean_path` removes every layer of surrounding quotes, not one layer (`Paths.CleanPathRemovesEveryQuoteLayer`).
- The audio scan keeps listing order and does not sort (`AudioConverter.AudioFilesUnsorted`).
- In the audio loop, only a non-zero exit of ffmpeg is caught. Any other error raised by a launch ends the run after that file's "Converting" line (`AudioConverter.Run`, exit `Crashed`).

## Model

| member | source | states |
|---|---|---|
| Common.PyIndex | video.py:105 | Python list indexing: defined exactly for `-len <= i < len`, and then gives element `i mod len`, so negative indices count from the end |
| Common.FloorDiv | video.py:45 | Python `//`: the floor of the quotient, `q*b <= a < q*b + b` for a positive divisor (mirrored for a negative one) |
| Common.Repeat | video.py:46 | string `c * n`: `max(n, 0)` copies of `c` |
| Common.Lower | video.py:24 | `str.lower` on ASCII: same length, each character lower-cased |
| Common.PadRight | video.py:48 | the `{s:40}` field: `s` left-justified, space padded to the width, never truncated |
| Common.NatToString | video.py:48 | `str(n)` of a counter: non-empty decimal digits whose value is `n`, with no leading zero unless `n` is 0 |
| Common.IntToString | video.py:48 | `str(n)` of any integer: a `-` first exactly when `n` is negative, then decimal digits only, with value `abs(n)` and no leading zero unless `n` is 0 |
| Paths.StripSpec | video.py:17 | `Strip`: `strip` drops the longest prefix and the longest suffix made of the given characters, and what remains neither begins nor ends with one of them |
| Paths.StripsToUnique | video.py:17 | that description of `strip` has one answer |
| Paths.StripCharacterized | video.py:17 | `Strip`: a string is the result of `strip` exactly when it meets that description |
| Paths.StripKeepsBareString | video.py:17 | `Strip` returns a string that neither begins nor ends with a stripped character unchanged |
| Paths.StripPadded | video.py:17 | stripping characters of the set from both sides of a bare middle gives the middle back |
| Paths.CleanPathIsTrimming | video.py:16-17 | `CleanPath`: `clean_path` returns its input with some prefix and some suffix of whitespace and quote characters removed |
| Paths.CleanPathEnds | video.py:16-17 | `CleanPath`: the result is empty or neither begins nor ends with `'` (`audio.py:14-15` has the same text) |
| Paths.CleanPathKeepsCleanPath | audio.py:14-15 | `CleanPath` returns a path without surrounding whitespace or quotes unchanged |
| Paths.CleanPathUnquotes | video.py:16-17 | `CleanPath`: a quoted path with whitespace around it, pasted as users do, comes back as the inner path |
| Paths.CleanPathRemovesEveryQuoteLayer | video.py:17 | `  ""a""  ` cleans to `a`: every layer of quotes goes, not one |
| Paths.LastIndex | video.py:24 | `rfind`: the position of the last occurrence, or -1, with no occurrence after it |
| Paths.SplitExt | video.py:24 | `splitext` gives root and extension that concatenate back to the name, and the extension is empty or starts with `.` |
| Paths.SplitExtCharacterized | video.py:24 | `ExtIndex` and `SplitExt`: the extension is non-empty exactly when the last path component has a dot after a non-dot character. Then the extension holds no other dot and no `/`, and the root's last component has a non-dot character |
| Paths.SplitExtOfRenamed | video.py:119-120 | splitting `root + ext` gives back `(root, ext)` when `ext` is a dot followed by neither dot nor `/` |
| Paths.Join | video.py:118 | POSIX `join(a, b)` ends with `b` and, unless `b` is absolute, starts with `a` or `a + "/"` |
| Paths.JoinAbsolute | video.py:118 | an absolute `b` (leading `/`) replaces `a`: `join(a, b) == b` |
| Paths.JoinRelative | video.py:118 | for a relative `b`, `join(a, b)` is `a`, then one `/` only when `a` is non-empty and does not already end in `/`, then `b` (fixed by its prefix, its suffix and its length) |
| Paths.JoinExamples | video.py:118 | `join("out/", "a.wav")` and `join("out", "a.wav")` both give `out/a.wav`, and `join("out", "/abs")` gives `/abs` |
| Paths.OutputPathInFolder | audio.py:70-72 | for a file name that does not start with `/`, the output path is the output folder, a `/` unless the folder is empty or already ends in one, then the renamed file |
| Paths.JobFor | video.py:117-120 | the job for a file keeps the file's name |
| Paths.JobForPaths | video.py:118-120 | a job's input path ends with the file name, and its output path ends with `.` and the chosen extension |
| Paths.Jobs | video.py:117-120 | one job per file, in file order |
| Paths.OutputPathEndsWithExtension | video.py:120 | `OutputPath`: every output path ends with `.` and the chosen extension |
| Paths.OutputNameEndsWithExtension | video.py:120 | the renamed file (root, `.`, chosen extension) ends with `.` and the chosen extension |
| Paths.OutputNameHasChosenExtension | video.py:119-120 | `OutputName`: `splitext` of the output name gives the input's root and the chosen extension |
| Paths.OutputPathExample | audio.py:70-72 | `a.flac` converted to wav in `out` is written to `out/a.wav` |
| Paths.OutputPathCollision | audio.py:70-72 | `song.mp3` and `song.wav` are both converted to the same output path, so with `-y` the later one overwrites the earlier |
| Scanning.LastIndexLower | video.py:24 | lower-casing a name does not move the last `.` or `/` |
| Scanning.ExtIndexLower | video.py:24 | lower-casing a name does not move where `splitext` cuts it |
| Scanning.KeepIgnoresCase | video.py:23-25 | `Keep`: two names that lower-case alike are both kept or both dropped, so `A.MP4` passes as `a.mp4` does (`audio.py:20-22` has the same test) |
| Scanning.DotFileHasNoExtension | video.py:24-25 | `Keep`: a file named `.mp4` is dropped, since `splitext` gives it no extension |
| Scanning.Scan | video.py:21-26 | a scan keeps at most as many names as there are entries |
| Scanning.ScanMembership | video.py:21-26 | a name is in the scan exactly when some listed entry with that name passes the filter |
| Scanning.ScanIsSubsequence | audio.py:19-23 | the scan is the listing's names with some left out, in listing order |
| Scanning.ScanPermutation | video.py:21-26 | two listings of the same entries in different orders scan to the same names, the same number of times |
| Scanning.StrLeTotal | video.py:21 | `StrLe`, Python's `<=` on strings, compares any two names |
| Scanning.StrLeTransitive | video.py:21 | `StrLe` is transitive |
| Scanning.StrLeAntisymmetric | video.py:21 | names that compare both ways under `StrLe` are equal |
| Scanning.Insert | video.py:21 | inserting into a sorted listing keeps it sorted and adds exactly the one entry |
| Scanning.SortByName | video.py:21 | `sorted` gives the same entries, sorted by name |
| Scanning.ScanOfSorted | video.py:21-26 | scanning a listing sorted by name gives names in sorted order |
| Arguments.Options | video.py:125-133 | the flag/value region is what remains without the executable, `-y` and the output: three elements fewer |
| Arguments.Flags | video.py:125-133 | one flag per flag/value pair |
| Arguments.FlagValue | video.py:125-133 | a flag has a value exactly when it is one of the flags |
| VideoConverter.CodecFor | video.py:6-12 | `CODECS` has an entry exactly for mp4, mkv, avi, mov and webm |
| VideoConverter.CodecForTable | video.py:6-12 | every video format has a non-empty bitrate, and the video codec is libx264 for every format except webm |
| VideoConverter.GetVideoFiles | video.py:19-27 | the scanning loop returns `VideoFiles(listing)`: the sorted listing scanned for regular files with a video extension |
| VideoConverter.VideoFilesSortedPermutation | video.py:19-27 | `VideoFiles` come out sorted by name, and are the same names, with the same multiplicities, as the unsorted scan of the listing |
| VideoConverter.VideoFilesMembership | video.py:19-27 | `VideoFiles`: a name is returned exactly when a listed regular file has it and its lower-cased extension is in `INPUT_EXTENSIONS` |
| VideoConverter.FilledBounds | video.py:44-45 | `Filled`: for `1 <= current <= total` the fill `40*current // total` lies in `[0, 40]` and is 40 exactly when `current == total` |
| VideoConverter.FilledMonotone | video.py:45 | `Filled` never decreases as `current` grows |
| VideoConverter.BarShape | video.py:46 | `Bar` is exactly 40 characters: `filled` block characters, then dashes |
| VideoConverter.DisplayName | video.py:47 | a name of at most 39 characters is shown as it is; a longer one as its first 36 characters and `...`; never longer than 39 |
| VideoConverter.ProgressLineBar | video.py:43-48 | `ProgressLine` starts with a carriage return and `[`, then the 40-character bar, then `] ` |
| VideoConverter.ProgressLineName | video.py:47-48 | `ProgressLine` ends with the display name padded to 40 characters |
| VideoConverter.SelectFormat | video.py:102-110 | a choice is accepted exactly when it is a number `n` with `-4 <= n <= 5`, and it picks a key of `CODECS` |
| VideoConverter.SelectFormatPicks | video.py:104-105 | an accepted `n` picks the key at `(n - 1) mod 5` of mp4, mkv, avi, mov, webm, which has a codec entry |
| VideoConverter.SelectFormatWraps | video.py:104-105 | 1 picks mp4, 5 picks webm, 0 picks webm, -4 picks mp4, and 6 and -5 are rejected |
| VideoConverter.FormatMenu | video.py:97-100 | the menu prints `i. ext` and logs `Format option i: .ext` for each key, numbered from 1 in table order |
| VideoConverter.VideoCommandReadsBack | video.py:125-133 | `VideoCommand` has 11 elements: the ffmpeg path, `-y`, then `-i`, `-c:v`, `-b:v`, `-c:a` in that order with the input path, video codec, bitrate and audio codec as their values, and the output path last |
| VideoConverter.CounterSpellsNumbers | video.py:122 | the `[idx/total]` counter writes both numbers as `str` does: digits only, with their values, and no leading zero |
| VideoConverter.PerFileEntryCounted | video.py:122-145 | `Render`: the Converting, SUCCESS, ERROR and UNEXPECTED ERROR entries of a file all start with its `[idx/total]` counter |
| VideoConverter.Terminal | video.py:135-145 | the entry that ends a file's log is SUCCESS for a zero exit, ERROR for a non-zero exit (carrying the decoded stderr, or the exception text when stderr is empty), UNEXPECTED ERROR for any other fault |
| VideoConverter.StderrTextStripped | video.py:136-138 | `StderrText`: for a zero exit, the stderr with the surrounding whitespace stripped; a failed launch logs no ffmpeg-output entry |
| VideoConverter.Attempt | video.py:122-145 | a file logs its Converting entry first, then the ffmpeg-output entry exactly when the stripped stderr is non-empty, then its terminal entry |
| VideoConverter.EveryFileAttempted | video.py:116-145 | the Converting entries of the loop's log are one per file, in file order, numbered `[i/total]` with the file's input and output paths |
| VideoConverter.OneOutcomePerFile | video.py:135-145 | the terminal entries of the loop's log are one per file, in file order, each the one its own launch's result calls for, so a failure never stops later files |
| VideoConverter.ConversionLogFramed | video.py:116-145 | read entry by entry, the loop's log is a run of groups: Converting, an optional ffmpeg-output entry, then exactly one terminal entry before the next file's Converting |
| VideoConverter.LogAttempt | video.py:135-145 | the entries logged for one launch are that launch's `Attempt` |
| VideoConverter.ConvertFile | video.py:118-145 | one iteration logs the file's attempt, draws its progress line, and launches the command for its job |
| VideoConverter.ConvertAll | video.py:116-145 | the loop logs the attempts of all files in order, draws one progress line per file, and launches one command per file |
| VideoConverter.ListDetected | video.py:93-95 | one ` - name` entry per detected file, in order |
| VideoConverter.ExitForChecks | video.py:65-110 | `ExitFor` and `Found`: a run completes exactly when ffmpeg is found, the input folder exists, files are found and the choice is valid; it stops at "not found" exactly when ffmpeg is missing, and both `None` and the empty path count as missing |
| VideoConverter.CompletedFilters | video.py:113-152 | entries of other kinds logged before and after the loop leave its Converting and terminal entries as they are |
| VideoConverter.LoopLogged | video.py:112-152 | entries of other kinds, then the loop's log, then "Batch conversion complete!", the thank-you line and the Finished line, with one command per job, make up the conversion phase's log |
| VideoConverter.LoggedAfter | video.py:50-111 | entries of other kinds logged before the conversion phase keep its log in one piece |
| VideoConverter.LoggedEnds | video.py:150-152 | the conversion phase's log ends with the Finished line |
| VideoConverter.LoggedReport | video.py:116-145 | in the conversion phase's log, the Converting and terminal entries are exactly one of each per job, in job order, each terminal entry reporting that job's own result, and the commands are the jobs' commands in the same order |
| VideoConverter.ConvertChosen | video.py:112-152 | once a format is chosen, the log is exactly the "Chosen output format" and "Beginning conversions" entries, the loop's log for every job, then "Batch conversion complete!", the thank-you line and the Finished line. The console is one progress line per file, the bare `print()` and the thank-you line. The commands are one per job |
| VideoConverter.ChooseAndConvert | video.py:93-152 | the log starts with "Detected video files:", one ` - name` entry per file and one `Format option` entry per key, and the console with the menu and the prompt. An invalid choice then logs and prints "Invalid choice." last and launches nothing. A valid one continues with what the chosen format logs and prints |
| VideoConverter.FindAndConvert | video.py:80-152 | a missing output folder is logged and printed first. An empty scan then ends the run with "No video files found in input folder." as the only other entry and line, so no menu is shown. Otherwise the choice decides, as above |
| VideoConverter.ScanAndConvert | video.py:74-152 | a missing input folder ends the run with "ERROR: Input folder does not exist" as its only log entry and console line, before the scan; otherwise the later stages' output follows |
| VideoConverter.ReportAndConvert | video.py:72-152 | the "Using ffmpeg" entry is logged, then each later exit's exact output follows, and the later stages' guarantees hold for the whole log |
| VideoConverter.Run | video.py:50-152 | a `main()` run stops at the first failing check (no ffmpeg, no input folder, no video files, bad choice) and otherwise completes. For each exit the whole log and console are stated: the header and the two folder entries, then "ERROR: ffmpeg executable not found", or "Using ffmpeg" and the later stages' output. A run that stops early launches nothing. A completed run logs the loop's entries for every video file in one piece, launches the matching commands on the cleaned folders, prints a progress line per file and the thank-you line, and ends the log with the Finished line |
| AudioConverter.CodecFor | audio.py:4-10 | `CODECS` has an entry exactly for mp3, aac, wav, opus and flac |
| AudioConverter.CodecForBitrate | audio.py:4-10 | `Truthy`: the bitrate is truthy for every format except wav and flac |
| AudioConverter.GetAudioFiles | audio.py:17-24 | the scanning loop returns the listing's regular files with an audio extension, in listing order |
| AudioConverter.AudioFilesMembership | audio.py:17-24 | a name is returned exactly when a listed regular file has it and its lower-cased extension is in `INPUT_EXTENSIONS` |
| AudioConverter.AudioFilesInListingOrder | audio.py:19-23 | the audio files are the listing's names with some left out, in listing order |
| AudioConverter.AudioFilesUnsorted | audio.py:19 | a listing `b.mp3, a.mp3` scans to `b.mp3, a.mp3`: nothing is sorted |
| AudioConverter.SelectFormat | audio.py:58-64 | a choice is accepted exactly when it is a number `n` with `-4 <= n <= 5`, and it picks a key of `CODECS` |
| AudioConverter.SelectFormatPicks | audio.py:59-61 | an accepted `n` picks the key at `(n - 1) mod 5` of mp3, aac, wav, opus, flac, which has a codec entry |
| AudioConverter.SelectFormatWraps | audio.py:59-61 | 1 picks mp3, 5 and 0 pick flac, -4 picks mp3, and 6 and -5 are rejected |
| AudioConverter.AudioCommandReadsBack | audio.py:76-86 | `AudioCommand` is the ffmpeg path, `-y`, `-i` with the input path, `-codec:a` with the codec, then `-b:a` with the bitrate exactly when it is `Truthy`, and the output path last: 9 elements with a bitrate, 7 without |
| AudioConverter.CommandLength | audio.py:76-86 | the command has 7 elements for wav and flac and 9 for mp3, aac and opus |
| AudioConverter.ConvertingNamesOutput | audio.py:74 | `Render`: the Converting line ends with the output file's name, `base.ext` |
| AudioConverter.ListDetected | audio.py:50-52 | one ` - name` line per detected file, in order |
| AudioConverter.FormatMenu | audio.py:54-56 | the menu prints `i. ext` for each key, numbered from 1 in table order |
| AudioConverter.FirstRaised | audio.py:88-91 | the first launch that raises something other than a non-zero exit: none before it does |
| AudioConverter.ConvertFile | audio.py:70-91 | one iteration prints the Converting line, then an error line exactly on a non-zero exit, launches its job's command, and reports any other error as raised |
| AudioConverter.ConvertAll | audio.py:69-91 | the loop prints the lines of the files up to and including the first one whose launch raises (all files if none does), launches one command each for those files, and reports the raised error |
| AudioConverter.StopStep | audio.py:88-91 | a launch before the first raising one either is that one or leaves it ahead |
| AudioConverter.AttemptedInOrder | audio.py:69-74 | the Converting lines are one per file reached, in file order, so a failed conversion does not skip a file |
| AudioConverter.ErrorsReported | audio.py:88-91 | `Errors`: the error lines are exactly one `Error converting` per non-zero exit, in file order, and none for a success |
| AudioConverter.AttemptFilters | audio.py:74-91 | `Attempt`: one file's lines hold its Converting line, and an error line exactly on a non-zero exit |
| AudioConverter.AttemptedCount | audio.py:69-91 | the loop reaches every file when no launch raises, and otherwise stops right after the first file whose launch raised |
| AudioConverter.ExitForChecks | audio.py:33-91 | `ExitFor` and `LoopExit`: a run reaches the loop exactly when the four checks pass; it then completes exactly when no launch raises, and a crash carries the message of the first launch that raised |
| AudioConverter.FfmpegPathUnderCwd | audio.py:32 | `FfmpegPath` is `ffmpeg/ffmpeg.exe` under the working directory, with a `/` after the directory unless it is empty or already ends in one |
| AudioConverter.LaunchedCommands | audio.py:70-86 | the commands launched are one per file reached, each built from the file's input path and output path |
| AudioConverter.LoopPrinted | audio.py:67-94 | lines of other kinds printed before and after the loop leave its Converting and error lines as they are |
| AudioConverter.PrintedIntro | audio.py:66-94 | lines of other kinds, then the loop's lines, then the closing lines when no launch raised, make up the conversion phase's output |
| AudioConverter.PrintedAfter | audio.py:26-65 | lines of other kinds printed before the conversion phase keep its output in one piece |
| AudioConverter.PrintedReport | audio.py:69-91 | the conversion phase's output holds exactly the loop's Converting lines, one per file reached, in order, and its error lines, one per non-zero exit |
| AudioConverter.PrintedEnds | audio.py:74-94 | the conversion phase's output ends with the thank-you line when no launch raised, and with the raising file's Converting line otherwise |
| AudioConverter.CompletedEnds | audio.py:93-94 | when no launch raised, the last line is the thank-you line |
| AudioConverter.CrashedEnds | audio.py:74-89 | when a launch raised, the last line is that file's Converting line |
| AudioConverter.ReachedOutput | audio.py:26-94 | lines printed before the format announcement keep the loop's lines in one piece, and the last line is the thank-you line, or the raising file's Converting line |
| AudioConverter.CrashLastLine | audio.py:74-89 | when a launch raises, the loop's last printed line is that file's Converting line |
| AudioConverter.ConvertChosen | audio.py:66-94 | once a format is chosen, the console is exactly the "Converting all audio files to ..." line, the loop's lines in one piece, and the closing lines unless a launch raised. The commands are those of the files reached |
| AudioConverter.ChooseAndConvert | audio.py:50-94 | the console starts with "Detected audio files:", one ` - name` line per file, the menu and the prompt. An invalid choice then prints "Invalid choice." last and launches nothing. A valid one runs the loop |
| AudioConverter.FindAndConvert | audio.py:41-94 | a missing output folder is announced first. An empty scan then ends the run with "No audio files found in input folder." as the only other line, so no menu is shown. Otherwise the choice decides, as above |
| AudioConverter.ScanAndConvert | audio.py:37-94 | a missing input folder ends the run with "Input folder does not exist" as its only line, before the scan; otherwise the later stages' output follows |
| AudioConverter.Run | audio.py:26-94 | a `main()` run prints the banner and the two prompts first. It stops at the first failing check before launching anything, and for each exit the whole console is stated: "ffmpeg executable not found at cwd/ffmpeg/ffmpeg.exe", "Input folder does not exist", "No audio files found", or "Invalid choice." last. Otherwise the loop's lines appear in one piece and the commands are those of the files reached on the cleaned folders. A completed run's last line is the thank-you line; a crashed run's is the Converting line of the file whose launch raised |

## Left out

- Running ffmpeg, and the filesystem calls (`os.listdir`, `os.path.isfile`, `os.path.isdir`, `os.makedirs`). They are inputs: a listing of `(name, isFile)` entries, two "is a directory" flags, and a function giving each launch's result. The folder creation is only the message that announces it. When `os.makedirs` fails, the real run ends with an uncaught exception, but the model goes on. A blank or quote-only output path is one case: `os.path.isdir("")` is False, and `os.makedirs("")` raises FileNotFoundError.
- Terminal output other than the script's own. The audio script runs ffmpeg without capturing its output (audio.py:89), so ffmpeg's messages, and the traceback of any unexpected error, go straight to the terminal. The model's `console` holds only the script's print lines and prompts.
- `find_ffmpeg` (video.py:29-37) searches the filesystem and `PATH`. Its answer is an input, `Option<string>`, and an empty path counts as not found, as `if not ffmpeg_path` does. The audio script's fixed-path check is the input `ffmpegIsFile`.
- Terminal I/O. `input()` answers are inputs. `int(choice)` is an already parsed number or "not a number". Python's full integer grammar is not modelled.
- The log file itself. Opening, truncating and appending are a sequence of log entries, each written as its rendered text and a line break. The three header writes (video.py:54-57) are one `Header` entry whose text holds their line breaks.
- Timestamps. `datetime.now()` and the script's folder are string inputs.
- The decoding of ffmpeg's stderr as UTF-8 with replacement, and the text of `str(e)`. Both are given as text in a launch's result.
- The carriage-return redraw of the progress bar, and `flush`. Each progress line is one message.
- Unicode. `lower()` lower-cases ASCII letters only, and `strip()` strips the ASCII characters Python treats as whitespace; other Unicode case mappings and spaces are not modelled.
- `os.path.join` and `os.path.splitext` follow POSIX rules with `/` as the only separator. The Windows rules (`\`, drive letters) are not modelled.
- The audio command's ffmpeg path is fixed at `cwd/ffmpeg/ffmpeg.exe`, joined by POSIX rules.
- Paths.JobFor: states only that the job keeps the file's name. The facts about its paths are in `Paths.JobForPaths` and `Paths.Jobs`, so that they are not re-proved at every use.
- Scanning.Scan: its own contract is only a size bound. Membership, order and sorting are the separate lemmas listed above.
