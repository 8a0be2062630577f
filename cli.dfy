/**
 * The command of dylt/cli.py: take the URL (from `-u` or the clipboard),
 * validate it, fetch, download, then write the note, returning early at the
 * first stage that fails. `validate_url`, the clipboard, the clock and the
 * download stage are parameters.
 */
module Cli {
  import opened Base
  import opened Paths
  import opened Fetch
  import opened Note
  import Config

  /** How the command function ends. */
  datatype Exit = Returned(code: int) | ReturnedNone | Raised(error: Raised)

  /** What the command did, in order. */
  datatype CliStep = Fetching(messages: seq<FetchMessage>) | DownloadCalled(outputFilename: Path) | NoteWritten(note: NoteFile)

  /** Positional arguments at the call of `download_from_youtube` in dylt/cli.py. */
  const CliDownloadArgs: nat := 5

  /** A natural number in decimal, as `str` writes it. */
  function Decimal(n: nat): string
  {
    if n < 10 then ['0' + n as char] else Decimal(n / 10) + ['0' + (n % 10) as char]
  }

  /** Python's messages for a call of `download_from_youtube` with too few positional arguments. */
  const MissingThree := "download_from_youtube() missing 3 required positional arguments: 'output_filename', 'youtube', and 'resolution'"
  const MissingTwo := "download_from_youtube() missing 2 required positional arguments: 'youtube' and 'resolution'"
  const MissingOne := "download_from_youtube() missing 1 required positional argument: 'resolution'"

  /** Python's message for a call with `count` positional arguments, more than the four it takes. */
  function TooManyArguments(count: nat): string
  {
    "download_from_youtube() takes from 3 to 4 positional arguments but " + Decimal(count) + " were given"
  }

  /**
   * Python's argument binding for `download_from_youtube(output_filename,
   * youtube, resolution, clip=None)`: three to four positional arguments, or
   * `TypeError` with the message Python gives for too few or too many.
   */
  function BindDownloadArguments(count: nat): (r: Result<()>)
    ensures r.Ok? <==> 3 <= count <= 4
    ensures r.Err? ==> r.error.TypeError?
  {
    if count == 0 then Err(TypeError(MissingThree))
    else if count == 1 then Err(TypeError(MissingTwo))
    else if count == 2 then Err(TypeError(MissingOne))
    else if count <= 4 then Ok(())
    else Err(TypeError(TooManyArguments(count)))
  }

  /** The call in dylt/cli.py passes five positional arguments, which Python refuses. */
  lemma FiveArgumentsRefused()
    ensures BindDownloadArguments(CliDownloadArgs)
      == Err(TypeError("download_from_youtube() takes from 3 to 4 positional arguments but 5 were given"))
  {
    assert Decimal(5) == "5";
    assert TooManyArguments(5) == "download_from_youtube() takes from 3 to 4 positional arguments but 5 were given";
  }

  /** The output base name `output_dir / f"{zettel} - {title}"`. */
  function OutputFilename(outputDir: Path, zettel: string, title: string): Path
  {
    Divide(outputDir, zettel + " - " + title)
  }

  /** Without a '/' in the zettel prefix or the title, the output lies directly in the output directory. */
  lemma OutputFilenameInOutputDir(outputDir: Path, zettel: string, title: string)
    requires '/' !in zettel && '/' !in title
    ensures Parent(OutputFilename(outputDir, zettel, title)) == outputDir
    ensures Name(OutputFilename(outputDir, zettel, title)) == zettel + " - " + title
  {
    var name := zettel + " - " + title;
    assert name[|zettel| + 1] == '-';
    assert forall c :: c in name ==> c in zettel || c in " - " || c in title;
    DivideComponent(outputDir, name);
  }

  /** The yaml the command writes: author, title and publish date, in that order. */
  function CliYaml(yt: YouTube): (y: seq<string>)
    ensures IsNoteYaml(y, yt, None)
  {
    ["author: " + yt.author, "title: " + yt.title, "publish date: " + yt.publishDate]
  }

  /** The URL the command works on: `-u` when given, else the clipboard. */
  function ChosenUrl(urlOption: Option<string>, clipboard: string): (url: string)
    ensures urlOption.Some? ==> url == urlOption.value
    ensures urlOption.None? ==> url == clipboard
  {
    if urlOption.None? then clipboard else urlOption.value
  }

  /**
   * The run of `cli` as a value: how it ends and what it did. It returns 0
   * for an invalid URL before anything else happens, raises what the fetch
   * raises (the call is outside any `try`), returns 1 when the fetch gives
   * `None` and 1 when the download stage raises, and writes the note only
   * after a download that did not raise.
   */
  function CliRun(url: string, validateUrl: string -> bool, outcomes: seq<Attempt>, outputDir: Path,
                  zettel: string, clip: Option<string>, note: Option<string>, download: Result<()>): (Exit, seq<CliStep>)
    requires Attempts(Config.RetryAttempts) <= |outcomes|
  {
    if !validateUrl(url) then (Returned(0), [])
    else
      var n := Attempts(Config.RetryAttempts);
      var k := FirstStop(outcomes, n);
      if k == n then (Returned(1), [Fetching(RetryMessages(Config.RetryAttempts, n))])
      else if outcomes[k].OtherError? then (Raised(outcomes[k].error), [Fetching(RetryMessages(Config.RetryAttempts, k))])
      else
        var yt := outcomes[k].yt;
        var f := OutputFilename(outputDir, zettel, yt.title);
        var steps := [Fetching(RetryMessages(Config.RetryAttempts, k) + [Downloading(yt.title)]), DownloadCalled(f)];
        if download.Err? then (Returned(1), steps)
        else
          var written := SourceNote(f, url, clip, Some(CliYaml(yt)), note, None);
          if written.Err? then (Raised(written.error), steps)
          else (ReturnedNone, steps + [NoteWritten(written.value)])
  }

  /** An invalid URL returns 0 and does nothing else; a valid one never returns 0. */
  lemma InvalidUrlReturnsZero(url: string, validateUrl: string -> bool, outcomes: seq<Attempt>, outputDir: Path,
                              zettel: string, clip: Option<string>, note: Option<string>, download: Result<()>)
    requires Attempts(Config.RetryAttempts) <= |outcomes|
    ensures var (exit, steps) := CliRun(url, validateUrl, outcomes, outputDir, zettel, clip, note, download);
      (exit == Returned(0) <==> !validateUrl(url)) && (!validateUrl(url) ==> steps == [])
  {
  }

  /** When every attempt raises `PytubeError`, the command returns 1 after the fetch, before any download or note. */
  lemma FailedFetchReturnsOne(url: string, validateUrl: string -> bool, outcomes: seq<Attempt>, outputDir: Path,
                              zettel: string, clip: Option<string>, note: Option<string>, download: Result<()>)
    requires Attempts(Config.RetryAttempts) <= |outcomes|
    requires validateUrl(url)
    requires forall i :: 0 <= i < Attempts(Config.RetryAttempts) ==> Caught(outcomes[i])
    ensures CliRun(url, validateUrl, outcomes, outputDir, zettel, clip, note, download)
      == (Returned(1), [Fetching(RetryMessages(Config.RetryAttempts, Attempts(Config.RetryAttempts)))])
  {
  }

  /** An exception of the fetch that is not a `PytubeError` leaves the command before any download or note. */
  lemma UncaughtFetchErrorRaises(url: string, validateUrl: string -> bool, outcomes: seq<Attempt>, outputDir: Path,
                                 zettel: string, clip: Option<string>, note: Option<string>, download: Result<()>)
    requires Attempts(Config.RetryAttempts) <= |outcomes|
    requires validateUrl(url)
    ensures var k := FirstStop(outcomes, Attempts(Config.RetryAttempts));
      var (exit, steps) := CliRun(url, validateUrl, outcomes, outputDir, zettel, clip, note, download);
      (exit.Raised? && steps == [Fetching(RetryMessages(Config.RetryAttempts, k))])
        <==> (k < Attempts(Config.RetryAttempts) && outcomes[k].OtherError? && exit == Raised(outcomes[k].error))
  {
  }

  /**
   * After a successful fetch the command computes the output base name from
   * the fetched title and calls the download stage; an exception there
   * returns 1 with no note; otherwise the note is `source_note` with the
   * command's yaml, the clip and the comment.
   */
  lemma FetchedRunsDownloadThenNote(url: string, validateUrl: string -> bool, outcomes: seq<Attempt>, outputDir: Path,
                                    zettel: string, clip: Option<string>, note: Option<string>, download: Result<()>)
    requires Attempts(Config.RetryAttempts) <= |outcomes|
    requires validateUrl(url)
    requires FirstStop(outcomes, Attempts(Config.RetryAttempts)) < Attempts(Config.RetryAttempts)
    requires outcomes[FirstStop(outcomes, Attempts(Config.RetryAttempts))].Fetched?
    ensures var k := FirstStop(outcomes, Attempts(Config.RetryAttempts));
      var yt := outcomes[k].yt;
      var f := OutputFilename(outputDir, zettel, yt.title);
      var (exit, steps) := CliRun(url, validateUrl, outcomes, outputDir, zettel, clip, note, download);
      && |steps| >= 2
      && steps[0] == Fetching(RetryMessages(Config.RetryAttempts, k) + [Downloading(yt.title)])
      && steps[1] == DownloadCalled(f)
      && (download.Err? ==> exit == Returned(1) && |steps| == 2)
      && (download.Ok? ==>
            var written := SourceNote(f, url, clip, Some(CliYaml(yt)), note, None);
            && (written.Ok? ==> exit == ReturnedNone && steps == steps[..2] + [NoteWritten(written.value)])
            && (written.Err? ==> exit == Raised(written.error) && |steps| == 2))
  {
  }

  /** A note is written only after a download that did not raise, and the command then ends normally. */
  lemma NoteOnlyAfterDownload(url: string, validateUrl: string -> bool, outcomes: seq<Attempt>, outputDir: Path,
                              zettel: string, clip: Option<string>, note: Option<string>, download: Result<()>)
    requires Attempts(Config.RetryAttempts) <= |outcomes|
    ensures var (exit, steps) := CliRun(url, validateUrl, outcomes, outputDir, zettel, clip, note, download);
      forall i :: 0 <= i < |steps| && steps[i].NoteWritten? ==> download.Ok? && exit == ReturnedNone && i == |steps| - 1
  {
  }

  /** `cli` with the download stage's outcome as a parameter: its run is `CliRun` on the chosen URL. */
  method Cli(urlOption: Option<string>, clipboard: string, validateUrl: string -> bool,
             outcomes: seq<Attempt>, outputDir: Path, zettel: string,
             clip: Option<string>, note: Option<string>, download: Result<()>)
    returns (exit: Exit, steps: seq<CliStep>)
    requires Attempts(Config.RetryAttempts) <= |outcomes|
    ensures (exit, steps) == CliRun(ChosenUrl(urlOption, clipboard), validateUrl, outcomes, outputDir, zettel, clip, note, download)
  {
    var url: string;
    if urlOption.None? {
      url := clipboard;
    } else {
      url := urlOption.value;
    }
    if !validateUrl(url) {
      return Returned(0), [];
    }
    var fetched, messages, calls := FetchFromYouTube(Config.RetryAttempts, outcomes);
    ghost var n := Attempts(Config.RetryAttempts);
    ghost var k := FirstStop(outcomes, n);
    steps := [Fetching(messages)];
    if fetched.Err? {
      assert k < n && outcomes[k].OtherError?;
      return Raised(fetched.error), steps;
    }
    var yt := fetched.value;
    if yt.None? {
      assert k == n;
      return Returned(1), steps;
    }
    assert k < n && outcomes[k].Fetched? && yt.value == outcomes[k].yt;
    var outputFilename := OutputFilename(outputDir, zettel, yt.value.title);
    steps := steps + [DownloadCalled(outputFilename)];
    assert url == ChosenUrl(urlOption, clipboard);
    assert steps == [Fetching(RetryMessages(Config.RetryAttempts, k) + [Downloading(outcomes[k].yt.title)]),
                     DownloadCalled(OutputFilename(outputDir, zettel, outcomes[k].yt.title))];
    if download.Err? {
      return Returned(1), steps;
    }
    var yaml := CliYaml(yt.value);
    var written := SourceNote(outputFilename, url, clip, Some(yaml), note, None);
    if written.Err? {
      return Raised(written.error), steps;
    }
    steps := steps + [NoteWritten(written.value)];
    exit := ReturnedNone;
  }

  /**
   * `cli` as written: the download call passes five positional arguments, so
   * it raises `TypeError` before any download, and no run writes a note. The
   * command returns 0 or 1, or raises an uncaught exception of the fetch.
   */
  method CliAsWritten(urlOption: Option<string>, clipboard: string, validateUrl: string -> bool,
                      outcomes: seq<Attempt>, outputDir: Path, zettel: string,
                      clip: Option<string>, note: Option<string>)
    returns (exit: Exit, steps: seq<CliStep>)
    requires Attempts(Config.RetryAttempts) <= |outcomes|
    ensures exit == Returned(0) || exit == Returned(1)
      || var k := FirstStop(outcomes, Attempts(Config.RetryAttempts));
         k < Attempts(Config.RetryAttempts) && outcomes[k].OtherError? && exit == Raised(outcomes[k].error)
    ensures forall i :: 0 <= i < |steps| ==> !steps[i].NoteWritten?
  {
    exit, steps := Cli(urlOption, clipboard, validateUrl, outcomes, outputDir, zettel, clip, note,
                       BindDownloadArguments(CliDownloadArgs));
    NoteOnlyAfterDownload(ChosenUrl(urlOption, clipboard), validateUrl, outcomes, outputDir, zettel, clip, note,
                          BindDownloadArguments(CliDownloadArgs));
  }
}
