# dylt: a verified model of the download pipeline

dylt is a command-line tool that downloads a YouTube video. It fetches the video
metadata with bounded retry. It downloads the last matching mp4 video stream and the
last mp4 audio stream into fixed temp files. Then it either saves a clip (given as
`"M:S,M:S"`) or muxes the two streams with ffmpeg into `<name>.mkv`. It removes the
temp files and writes a markdown "source note" beside the output. The model covers
the packaged command (`dylt/cli.py`, `dylt/core.py`, `dylt/note.py`, `dylt/lib.py`)
and the older single-file command (`dylt/main.py`).

Modules, in dependency order:

| module | what it holds |
|---|---|
| `Base` | `Option`, `Result`, and the Python exceptions the code can raise (`Raised`) |
| `Text` | `str.split` on one character and `str.join`, with their round trips |
| `Paths` | the part of `pathlib` in use: `/`, `parent`, `name`, `stem`, `suffix`, `with_suffix`, `str()` |
| `Config` | the constants and paths of `dylt/config.py` |
| `Streams` | pytube's `filter(...)[-1]` over an ordered stream list |
| `Fetch` | the retry loop of `fetch_from_youtube`, over a sequence of attempt outcomes |
| `Clip` | `strptime(i, "%M:%S")` on the clip string, `time2seconds`, and the minimum-duration log |
| `Mux` | the ffmpeg command string and how its shell quoting splits |
| `Files` | the filesystem: a `World` value (paths that exist plus an effect log) and a `FileSystem` class updated in place |
| `Stages` | each stage of `download_from_youtube` as a function from world to result and world, with the sequencing lemmas |
| `Core` | the same stages as methods on a `FileSystem`, each proved equal to its `Stages` function |
| `Note` | `source_note` and `create_note` of `dylt/note.py`: the `.md` path and the exact lines written |
| `Lib` | `TagList.convert` |
| `Cli` | `cli` of `dylt/cli.py`, with the stage outcomes as parameters |
| `MainScript` | `cli` and `source_note` of `dylt/main.py` |

The outside world is modelled by oracles passed in as parameters:
- The network is a sequence of `YouTube(url)` outcomes.
- Each `stream.download` has an outcome.
- moviepy has a "decodes" flag and an "encodes" flag.
- ffmpeg has a "writes the output" flag.
- `validate_url` is a `string -> bool` parameter.
- The clipboard contents, the zettel timestamp prefix and the home directory are plain values.

## Model

| member | source | states |
|---|---|---|
| Text.JoinSplit | dylt/lib.py:15 | joining the pieces of `s.split(c)` with `c` gives back `s` |
| Text.SplitLength | dylt/lib.py:15 | `split` gives one more piece than there are separators |
| Text.SplitSegmentsFree | dylt/lib.py:15 | no piece of `split` contains the separator |
| Text.SplitJoin | dylt/lib.py:15 | a non-empty list of separator-free strings, joined and split again, is the same list |
| Text.SplitFree | dylt/core.py:166 | a string without the separator splits into itself alone |
| Paths.Divide | dylt/cli.py:73 | `dir / s` keeps a path well formed (no empty or "." components) |
| Paths.DivideComponent | dylt/config.py:6-17 | `dir / name` for one component is that child: its parent is `dir` and its name is `name` |
| Paths.ChildInjective | dylt/config.py:12-17 | two children are equal exactly when their directories and names are equal |
| Paths.SlashMakesSubdirectory | dylt/cli.py:73 | a '/' inside the appended name makes a deeper path whose parent is not `dir` |
| Paths.StemSuffix | dylt/note.py:42 | `stem + suffix` is the name |
| Paths.StemNonEmpty | dylt/note.py:50 | a non-empty name has a non-empty stem |
| Paths.WithSuffixReplaces | dylt/note.py:42 | `with_suffix` keeps the parent, gives name `stem + suffix` and that suffix, keeps the stem, and is idempotent |
| Paths.AppendedExtension | dylt/core.py:41 | appending ".mkv" to `str(filename)` names a sibling of `filename` with ".mkv" appended to its name |
| Paths.DotInNameIsSuffix | dylt/note.py:42 | the title "Mr. Smith" has stem "Mr" and its note is "Mr.md" |
| Config.ConfigPathsAreDivisions | dylt/config.py:6-17 | the output dir is `home / "Downloads"`, and the two temp files and both log files are `output_dir / name` |
| Config.TempFilesDistinct | dylt/config.py:12-17 | both temp files lie in the output dir, are distinct, and differ from the log file |
| Streams.Filter | dylt/core.py:156 | every stream the filter keeps matches the query |
| Streams.FilterLast | dylt/core.py:156-160 | the filter is empty iff no stream matches; otherwise its last entry is the last matching stream |
| Streams.SelectLast | dylt/core.py:156-161 | `IndexError` iff no stream matches; otherwise the stream at the highest matching index |
| Streams.NoResolutionMayPickAudio | dylt/config.py:9 | with the default resolution `None`, the "video" selection is the last mp4 stream, which can be the audio stream |
| Fetch.FirstStop | dylt/core.py:116-126 | the index of the first attempt that ends the loop (a success or an exception other than `PytubeError`), or the limit; every attempt before it raised `PytubeError` |
| Fetch.RetryMessages | dylt/core.py:124 | failed attempt `i` reports `retry_attempts - i` |
| Fetch.FetchFromYouTube | dylt/core.py:101-132 | the first success within `retry_attempts` attempts; `None` when every attempt raises `PytubeError`, also when the object was made and only its title failed, and for `retry_attempts <= 0`; an exception other than `PytubeError` escapes; no more calls than attempts; the exact message trace; "Cannot fetch url" never printed |
| Clip.Field | dylt/core.py:166 | a minute or second field is 1-2 ASCII digits with value below 60 |
| Clip.ParseMinSec | dylt/core.py:166 | `strptime(s, "%M:%S")` gives hour 0 and minute and second below 60, or `ValueError` |
| Clip.ParseAll | dylt/core.py:166 | every part parsed in order, or `ValueError` naming a part that fails |
| Clip.ParseClip | dylt/core.py:166 | succeeds iff the clip splits on ',' into exactly two parts that both parse, giving those two times; otherwise `ValueError` (from `strptime`, or Python's unpacking message) |
| Clip.FormatField | dylt/core.py:166 | the printed field parses back to its value and holds no ':' or ',' |
| Clip.ParseFormatMinSec | dylt/core.py:166 | parsing a printed "M:S" gives the time back |
| Clip.ParseFormatClip | dylt/core.py:166 | parsing a printed "M:S,M:S" gives both times back |
| Clip.ParsedClipInRange | dylt/core.py:166 | both parsed times are below one hour, with hour 0 |
| Clip.ThreeTimesRefused | dylt/core.py:166 | three times that each parse, joined by ',', raise "too many values to unpack (expected 2)" |
| Clip.TenToFifteen | dylt/core.py:166-174 | "0:10,0:15" parses to 0:00:10 and 0:00:15 and clips from second 10 to second 15 with no log |
| Clip.SecondsInverse | dylt/core.py:67 | `60*minute + second` is below 3600 and gives minute and second back by division |
| Clip.SecondsIgnoresHour | dylt/core.py:67 | the hour does not enter the seconds |
| Clip.ClipAudioVideo | dylt/core.py:67-71 | start and end in seconds; one "too short" log iff the start is below the minimum; never rejects; dylt/main.py:55-59 is the same code |
| Clip.EndBeforeStartAccepted | dylt/core.py:67-78 | an end before the start is accepted with no log |
| Clip.MinimumCheckUsesStart | dylt/core.py:70-71 | the minimum is compared with the start, not with the length of the clip |
| Mux.JoinPieces | dylt/core.py:41 | the command is the seven quote-separated pieces joined by a quote |
| Mux.QuotedArguments | dylt/core.py:41 | without quotes in the paths, the quoted arguments are, in order, the audio path, the video path and `filename + ".mkv"`; dylt/main.py:29 builds the same string |
| Mux.QuoteInNameBreaksQuoting | dylt/core.py:41 | a quote in the output name splits the command into more than seven quoted pieces |
| Files.AfterDownload | dylt/core.py:157 | a download succeeds iff it completes; a failure leaves the file or not; one effect is recorded |
| Files.AfterRemove | dylt/core.py:98-99 | `os.remove` succeeds iff the path exists; otherwise `FileNotFoundError` and no change |
| Files.AfterCreate | dylt/core.py:36-37 | opening a file for writing makes it exist and records the effect |
| Files.FileSystem.Download | dylt/core.py:157 | the in-place state after a download is `AfterDownload` of the state before |
| Files.FileSystem.Remove | dylt/core.py:98 | the in-place state after a removal is `AfterRemove` of the state before |
| Files.FileSystem.Create | dylt/note.py:44 | the in-place state after creating a file is `AfterCreate` of the state before |
| Files.FileSystem.Record | dylt/core.py:42 | an effect with no file change is appended to the log |
| Stages.NoVideoMatchDownloadsNothing | dylt/core.py:156-157 | with no matching video stream, `IndexError` and nothing downloaded |
| Stages.NoAudioMatchAfterVideo | dylt/core.py:156-161 | with no audio stream, `IndexError` after the video file has been written |
| Stages.DownloadOrder | dylt/core.py:156-161 | the stage succeeds iff both selections and both downloads succeed; then the effects are the video download, then the audio download |
| Stages.CleanUpRemovesBoth | dylt/core.py:93-99 | cleanup succeeds iff both temp files exist; then it removes the video and then the audio file; dylt/main.py:82-86 is the same code |
| Stages.CleanUpStopsAtMissingFile | dylt/core.py:98-99 | a missing video file raises before the audio file is touched; a missing audio file raises after the video file is removed |
| Stages.CleanUpTwiceFails | dylt/core.py:98-99 | cleaning up twice raises `FileNotFoundError`: cleanup is not idempotent |
| Stages.MuxOnlyWithoutClip | dylt/core.py:182-189 | without a clip: the log file is opened twice and ffmpeg runs with the Config paths; nothing raises; the new files are the log file and, when ffmpeg writes and both temp files exist, `<name>.mkv` |
| Stages.ClipOnlyWithClip | dylt/core.py:165-181 | with a clip: either a failure that changes nothing, or the clip parsed and exactly one clip saved at `with_suffix(".mp4")`, cut by `clip_audio_video` from the two parsed times, that file being the only new path |
| Stages.NoCleanupAfterFailure | dylt/core.py:165-194 | a failing download or postprocess stage ends the run with no removal |
| Stages.CompletedRunOrder | dylt/core.py:149-194 | a completed run records video download, audio download, the clip save (cut from the two parsed times) or the mux, video removal, audio removal, in that order, and leaves no temp file |
| Stages.DownloadDirMismatchOrphansTemps | dylt/core.py:149-194 | when the output's parent is not the Config output dir and no stale temp video lies in the Config dir, a muxing run (no clip) ends with `FileNotFoundError` from cleanup and the downloaded files stay behind |
| Stages.DownloadDirMismatchClipFails | dylt/core.py:149-181 | under the same mismatch a clipping run raises in the clip stage (the clip's parse error, or moviepy's on the missing Config temp files) before cleanup; only the two downloads are done |
| Stages.MkvBesideOutput | dylt/core.py:41 | for an output base name in the Config output dir, `f"{filename}.mkv"` lies in that dir, is named `<name>.mkv`, and is neither temp file |
| Stages.SameDirMuxCleansUp | dylt/core.py:149-194 | when the output lies in the Config output dir, a muxing run completes and leaves no temp file; the mkv output lies in the Config output dir, is named `<name>.mkv`, and is kept when ffmpeg wrote it |
| Core.DownloadStreams | dylt/core.py:156-161 | the in-place download stage is `Stages.DownloadStreams` |
| Core.ClipAndSave | dylt/core.py:165-181 | the in-place clip stage is `Stages.ClipAndSave` |
| Core.MuxAudioVideo | dylt/core.py:17-42 | the in-place mux stage is `Stages.MuxAudioVideo` |
| Core.CleanUpTempFiles | dylt/core.py:93-99 | the in-place cleanup is `Stages.CleanUpTempFiles` |
| Core.RunStages | dylt/core.py:156-194 | the in-place stage sequence is `Stages.RunStages` |
| Core.DownloadFromYouTube | dylt/core.py:134-194 | the in-place `download_from_youtube` is `Stages.DownloadFromYouTube` (downloads into `output_filename.parent`) |
| Note.YamlLines | dylt/note.py:46 | one line per yaml entry, in order, each with a newline |
| Note.NotePath | dylt/note.py:42 | `ValueError` iff the name is empty; otherwise a sibling named `stem + ".md"` |
| Note.SourceNote | dylt/note.py:15-57 | the `.md` path, then the front matter followed by exactly six entries: heading with the stem, tags line or blank, source link, fixed text, clip line or blank, comment block or blank |
| Note.FrontMatterShape | dylt/note.py:45-46 | "---", each yaml entry on its own line in order, "---"; nothing without yaml |
| Note.NoFrontMatterStartsWithHeading | dylt/note.py:45-50 | without yaml the first line is the heading |
| Note.TagsLineShape | dylt/note.py:51 | tags joined with ", #" after "Tags: #"; an empty list gives "Tags: #" |
| Note.DottedTitleNote | dylt/note.py:42-50 | a dot in the title is taken as a suffix: "Mr. Smith" gives "Mr.md" and heading "# Mr" |
| Note.BuildYaml | dylt/note.py:79-87 | author, title, publish date, then "tags: a, b" only when tags are given |
| Note.CreateNote | dylt/note.py:89-96 | the note is `source_note` with that yaml, and clip, note and tags forwarded unchanged |
| Note.NoteYamlUnique | dylt/note.py:79-87 | the yaml layout determines the list |
| Lib.Convert | dylt/lib.py:13-16 | for a string, pieces whose join is the input, count of commas plus one, none containing a comma; otherwise the `fail` message |
| Lib.ConvertJoin | dylt/lib.py:14-15 | splitting a join of comma-free tags gives the tags back |
| Lib.ConvertKeepsEverything | dylt/lib.py:15 | "" gives [""]; whitespace and empty pieces are kept |
| Cli.BindDownloadArguments | dylt/core.py:134 | a call binds iff it passes three to four positional arguments; otherwise `TypeError` |
| Cli.FiveArgumentsRefused | dylt/cli.py:79-81 | the call's five positional arguments give `TypeError("download_from_youtube() takes from 3 to 4 positional arguments but 5 were given")` |
| Cli.OutputFilenameInOutputDir | dylt/cli.py:73 | without '/', the output base name is `"<zettel> - <title>"` directly in the output dir |
| Cli.CliYaml | dylt/cli.py:87-91 | author, title and publish date, in that order |
| Cli.ChosenUrl | dylt/cli.py:56-57 | the `-u` URL when given, else the clipboard contents |
| Cli.InvalidUrlReturnsZero | dylt/cli.py:59-61 | the command returns 0 iff the URL is invalid, and then does nothing else |
| Cli.UncaughtFetchErrorRaises | dylt/cli.py:67 | the command raises with only the fetch messages exactly when an attempt raises an exception other than `PytubeError`, and then raises that exception |
| Cli.FailedFetchReturnsOne | dylt/cli.py:67-71 | when every attempt raises `PytubeError`, it returns 1 after the fetch messages, with no download and no note |
| Cli.FetchedRunsDownloadThenNote | dylt/cli.py:73-99 | after a successful fetch: the download is called with `"<zettel> - <title>"`; an exception returns 1 with no note; otherwise the note is `source_note` with the yaml, the clip and the comment |
| Cli.NoteOnlyAfterDownload | dylt/cli.py:78-99 | a note is written only after a download that did not raise, as the last step of a normal return |
| Cli.Cli | dylt/cli.py:56-99 | the command's exit and steps are `CliRun` on the chosen URL |
| Cli.CliAsWritten | dylt/cli.py:78-85 | as written the download call raises `TypeError`, which is caught: the command returns 0 or 1, or raises the fetch's uncaught exception, and never writes a note |
| MainScript.LastBound | dylt/main.py:168-175 | after attempts that all raised `PytubeError`, `yt` is bound iff one of them made an object, and then to the object of the last such attempt |
| MainScript.FetchInline | dylt/main.py:167-178 | the first success within the attempts; when every attempt raises `PytubeError`, the object of the last attempt whose title failed, or unbound; an exception other than `PytubeError` escapes; no more calls than attempts; the same messages as the packaged loop; the `return 1` branch is never taken |
| MainScript.LegacyNoteShape | dylt/main.py:113-126 | front matter, exactly three header lines, then the clip line only with a clip and the comment (no trailing newline) last, only with a comment |
| MainScript.LegacySourceNote | dylt/main.py:92-126 | `ValueError` iff the name is empty; otherwise the older layout |
| MainScript.LegacyNoteIsShorter | dylt/main.py:116-126 | without clip and comment the older note ends with the fixed text, three entries shorter than the newer one |
| MainScript.Cli | dylt/main.py:167-239 | an uncaught fetch exception, or all fetches failing with no object made (`UnboundLocalError`), ends the command with nothing done; otherwise, with the fetched object or the one a failed title left bound, the stages run with downloads into the output dir, any exception propagates, and the older note is written last |
| MainScript.MainLeavesNoTemps | dylt/main.py:185-225 | a completed run of the dylt/main.py stages leaves neither temp file |
| MainScript.MainMatchesCore | dylt/main.py:181-225 | for a title without '/', the dylt/main.py stages equal `download_from_youtube` of dylt/core.py |

## Left out

- Network access, the stream download itself, moviepy decoding and encoding, and running ffmpeg are I/O in foreign libraries. Each becomes an oracle outcome. The mkv file appears only when the ffmpeg oracle says so and both inputs exist. The exit status of ffmpeg is never inspected by the code.
- Floating-point time in moviepy's `subclip` is left out. The clip plan keeps the two integer second counts.
- Logging, `click.secho` colouring, click option parsing, pyperclip and the `-d` flag are UI. Only the retry messages are kept, as a trace.
- `zettel_format` reads the wall clock. Its result is a string parameter.
- `validate_url` is imported by dylt/cli.py from dylt/core.py, but dylt/core.py does not define it. As written, importing dylt/cli.py would fail. The model takes the validator as a parameter, as though it existed.
- The `-a`/`--audio-only` flag is accepted by dylt/cli.py but only prints a line and is passed to a function that has no such parameter. No audio-only mode exists in the code, so none is modelled.
- When no resolution is given, stream selection takes the last mp4 stream, not the highest resolution. The model follows the code.
- Cleanup raises on a missing file and is not in a `finally`. The model follows the code: cleanup is not idempotent (`Stages.CleanUpTwiceFails`).
- No range check against the video's duration exists in the code. Only the start is compared with the minimum, and only to log.
- `strptime` also accepts non-ASCII Unicode digits. The model accepts ASCII digits only.
- Clip.ParseMinSec: every refused time gives the one message `Clip.NoMatch`. Python's text depends on how the string fails: "time data '<s>' does not match format '%M:%S'", "unconverted data remains: …", or datetime's range message. The model keeps the exception type and simplifies the text.
- pytube's `skip_existing` check is not modelled. Every completed download is recorded as writing the file.
- `Stages.MuxAudioVideo`: a quote in a path breaks the shell command (`Mux.QuoteInNameBreaksQuoting`), but the model still places the output at `<name>.mkv`.
- Python's `/` on paths is modelled for POSIX paths only. The model covers component splitting, dropping empty and "." parts, and an absolute right-hand side replacing the left.
- main.py (top level) and clip.py are not part of this model.
- dylt/config.py is used only for its constants: 3 retries, default resolution `None`, and the file names `video.mp4`, `audio.mp4`, `dylt-out.log`, `dylt-err.log`.
- MainScript.Cli: when `yt` is left bound by an attempt whose title failed, later reads of `yt.streams`, `yt.title` and `yt.author` are taken to give the object's recorded values. Whether pytube raises again on such a read depends on pytube, which is not part of this model.
- Which exceptions other than `PytubeError` the fetch can raise is up to pytube. The model carries the exception as an attempt outcome (`Fetch.Attempt.OtherError`).
- Races on the fixed temp paths are not modelled, because the code runs in a single flow.
- The helpers `clip_audio_video`, `mux_audio_video` and `clean_up_temp_files` in dylt/main.py are modelled by the same members as their dylt/core.py twins, because their bodies are the same.

## Findings

| source | as written | input that shows it | evidently intended | confidence | as-written member | corrected member |
|---|---|---|---|---|---|---|
| dylt/cli.py:80 | `download_from_youtube(output_filename, yt, resolution, clip, audio_only)` passes five positional arguments to a function of four parameters; the `TypeError` is caught and the command returns 1 | any valid URL whose fetch succeeds | the download runs and the note is written after it | high, not executed | Cli.CliAsWritten | Cli.Cli |
