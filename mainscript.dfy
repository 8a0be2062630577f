/**
 * The single-file command of dylt/main.py. Its helpers `clip_audio_video`,
 * `mux_audio_video` and `clean_up_temp_files` behave like the ones of
 * dylt/core.py and are modelled by the same members (`Stages`, `Core`); what
 * differs is the inline fetch loop, the older note layout, the download
 * directory, and that nothing is caught: every exception leaves the command.
 */
module MainScript {
  import opened Base
  import opened Paths
  import opened Fetch
  import opened Files
  import opened Note
  import Config
  import Stages
  import Core
  import C = Cli

  /**
   * The object `yt` is left bound to after the first `i` attempts when all of
   * them were caught: the one of the last attempt that made an object and
   * then failed on its title, since this `except` clause does not reset `yt`.
   */
  function LastBound(outcomes: seq<Attempt>, i: nat): (yt: Option<YouTube>)
    requires i <= |outcomes|
    ensures yt.None? <==> forall j :: 0 <= j < i ==> !outcomes[j].TitleFailed?
    ensures yt.Some? ==> exists j :: 0 <= j < i && outcomes[j] == TitleFailed(yt.value)
                                  && forall l :: j < l < i ==> !outcomes[l].TitleFailed?
  {
    if i == 0 then None
    else if outcomes[i - 1].TitleFailed? then Some(outcomes[i - 1].yt)
    else LastBound(outcomes, i - 1)
  }

  /**
   * The loop of `cli` in dylt/main.py. `gaveUp` records whether the
   * `return 1` branch was taken; `i == retry_attempts` cannot hold inside
   * `range(retry_attempts)`, so it never is. After a success `yt` is that
   * object; when every attempt raises `PytubeError` it is the object of the
   * last attempt whose title failed, or unbound (`None`) if there is none.
   * An exception that is not a `PytubeError` leaves the loop (`Err`).
   * `calls` is how many times `YouTube(url)` ran.
   */
  method FetchInline(retryAttempts: int, outcomes: seq<Attempt>)
    returns (r: Result<Option<YouTube>>, messages: seq<FetchMessage>, gaveUp: bool, ghost calls: nat)
    requires Attempts(retryAttempts) <= |outcomes|
    ensures !gaveUp
    ensures var n := Attempts(retryAttempts); var k := FirstStop(outcomes, n);
      calls == (if k == n then n else k + 1)
    ensures calls <= Attempts(retryAttempts)
    ensures var n := Attempts(retryAttempts); var k := FirstStop(outcomes, n);
      if k == n then
        r == Ok(LastBound(outcomes, n)) && messages == RetryMessages(retryAttempts, n)
      else if outcomes[k].Fetched? then
        r == Ok(Some(outcomes[k].yt)) && messages == RetryMessages(retryAttempts, k) + [Downloading(outcomes[k].yt.title)]
      else
        r == Err(outcomes[k].error) && messages == RetryMessages(retryAttempts, k)
    ensures CannotFetch !in messages
  {
    var n := Attempts(retryAttempts);
    var yt: Option<YouTube> := None;
    messages := [];
    gaveUp := false;
    calls := 0;
    var i := 0;
    while i < n
      invariant 0 <= i <= n && calls == i
      invariant forall j :: 0 <= j < i ==> Caught(outcomes[j])
      invariant yt == LastBound(outcomes, i) && !gaveUp
      invariant messages == RetryMessages(retryAttempts, i)
    {
      calls := calls + 1;
      match outcomes[i] {
        case Fetched(v) =>
          yt := Some(v);
          messages := messages + [Downloading(v.title)];
          break;
        case PytubeFailed =>
        case TitleFailed(v) =>
          yt := Some(v);
        case OtherError(e) =>
          return Err(e), messages, gaveUp, calls;
      }
      messages := messages + [Retrying(retryAttempts - i)];
      if i == retryAttempts {
        messages := messages + [CannotFetch];
        gaveUp := true;
        return Ok(yt), messages, gaveUp, calls;
      }
      i := i + 1;
    }
    r := Ok(yt);
  }

  /**
   * What the older `source_note` of dylt/main.py writes: the front matter,
   * then the heading, the source link and the fixed text, then the clip line
   * only when a clip is given, then the comment after two newlines and with no
   * newline after it, only when a comment is given. There is no tags line and
   * no blank placeholder lines.
   */
  predicate IsLegacyNote(nf: NoteFile, filename: Path, url: string, clip: Option<string>,
                         yaml: Option<seq<string>>, comment: Option<string>)
  {
    && NotePath(filename) == Ok(nf.path)
    && nf.lines == FrontMatter(yaml)
         + ["# " + Stem(Name(filename)) + "\n", "[Source](" + url + ")\n", "Video downloaded from YouTube\n"]
         + (if clip.Some? then ["Clipped: " + clip.value + "\n"] else [])
         + (if comment.Some? then ["\n\n" + comment.value] else [])
  }

  /**
   * The older layout entry by entry: three fixed entries after the front
   * matter, one more for a clip and one more for a comment; the clip line
   * comes right after the fixed text and the comment is the last entry.
   */
  lemma LegacyNoteShape(nf: NoteFile, filename: Path, url: string, clip: Option<string>,
                        yaml: Option<seq<string>>, comment: Option<string>)
    requires IsLegacyNote(nf, filename, url, clip, yaml, comment)
    ensures var m := |FrontMatter(yaml)|;
      && |nf.lines| == m + 3 + (if clip.Some? then 1 else 0) + (if comment.Some? then 1 else 0)
      && nf.lines[..m] == FrontMatter(yaml)
      && nf.lines[m] == "# " + Stem(Name(filename)) + "\n"
      && nf.lines[m + 1] == "[Source](" + url + ")\n"
      && nf.lines[m + 2] == "Video downloaded from YouTube\n"
      && (clip.Some? ==> nf.lines[m + 3] == "Clipped: " + clip.value + "\n")
      && (comment.Some? ==> nf.lines[|nf.lines| - 1] == "\n\n" + comment.value)
  {
    var header := ["# " + Stem(Name(filename)) + "\n", "[Source](" + url + ")\n", "Video downloaded from YouTube\n"];
    var clipEntry := if clip.Some? then ["Clipped: " + clip.value + "\n"] else [];
    var commentEntry := if comment.Some? then ["\n\n" + comment.value] else [];
    LayoutParts(nf.lines, FrontMatter(yaml), header, clipEntry, commentEntry);
  }

  /** Where each part of `front + header + clipEntry + commentEntry` lies. */
  lemma LayoutParts(lines: seq<string>, front: seq<string>, header: seq<string>,
                    clipEntry: seq<string>, commentEntry: seq<string>)
    requires lines == front + header + clipEntry + commentEntry
    requires |header| == 3 && |clipEntry| <= 1 && |commentEntry| <= 1
    ensures |lines| == |front| + 3 + |clipEntry| + |commentEntry|
    ensures lines[..|front|] == front
    ensures lines[|front|] == header[0] && lines[|front| + 1] == header[1] && lines[|front| + 2] == header[2]
    ensures |clipEntry| == 1 ==> lines[|front| + 3] == clipEntry[0]
    ensures |commentEntry| == 1 ==> lines[|lines| - 1] == commentEntry[0]
  {
    assert lines == front + (header + clipEntry + commentEntry);
  }

  /** `source_note` of dylt/main.py: `ValueError` for a filename without a name, else the note it writes. */
  method LegacySourceNote(filename: Path, url: string, clip: Option<string>,
                          yaml: Option<seq<string>>, comment: Option<string>)
    returns (r: Result<NoteFile>)
    ensures r.Err? <==> Name(filename) == ""
    ensures r.Err? ==> r == Err(ValueError("empty name"))
    ensures r.Ok? ==> IsLegacyNote(r.value, filename, url, clip, yaml, comment)
  {
    var note := NotePath(filename);
    if note.Err? {
      return Err(note.error);
    }
    ghost var front := FrontMatter(yaml);
    var lines: seq<string> := [];
    if yaml.Some? {
      lines := lines + FrontMatter(yaml);
    }
    assert lines == front;
    var header := [
      "# " + Stem(Name(note.value)) + "\n",
      "[Source](" + url + ")\n",
      "Video downloaded from YouTube\n"
    ];
    lines := lines + header;
    ghost var clipEntry: seq<string> := [];
    if clip.Some? {
      clipEntry := ["Clipped: " + clip.value + "\n"];
      lines := lines + ["Clipped: " + clip.value + "\n"];
    }
    assert lines == front + header + clipEntry;
    ghost var commentEntry: seq<string> := [];
    if comment.Some? {
      commentEntry := ["\n\n" + comment.value];
      lines := lines + ["\n\n" + comment.value];
    }
    assert lines == front + header + clipEntry + commentEntry;
    r := Ok(NoteFile(note.value, lines));
  }

  /**
   * The two note layouts differ: without a clip and a comment the older one
   * ends with the fixed text, where the one of dylt/note.py writes three more
   * entries (tags or a blank line, clip or a blank line, comment or a blank line).
   */
  lemma LegacyNoteIsShorter(nf: NoteFile, filename: Path, url: string, yaml: Option<seq<string>>)
    requires IsLegacyNote(nf, filename, url, None, yaml, None)
    ensures nf.lines[|nf.lines| - 1] == "Video downloaded from YouTube\n"
    ensures var n := SourceNote(filename, url, None, yaml, None, None);
      n.Ok? && |n.value.lines| == |nf.lines| + 3 && n.value.path == nf.path
  {
  }

  /**
   * `cli` of dylt/main.py, on a file system. The fetch is `FetchInline`; an
   * exception it lets through ends the command. When every attempt raises
   * `PytubeError` and none made an object, `yt` is unbound and reading
   * `yt.streams` raises `UnboundLocalError`. Otherwise, with the fetched
   * object or the one left bound by a failed title, the streams are
   * downloaded into the configured output directory, the output base name is
   * built from the zettel prefix and the title, the clip is saved or the
   * streams are muxed, the temp files are removed, and the older note is
   * written. Any exception ends the command where it is raised.
   */
  method Cli(fs: FileSystem, home: Path, url: string, resolution: Option<string>,
             clip: Option<string>, note: Option<string>, outcomes: seq<Attempt>,
             zettel: string, io: Stages.Oracle)
    returns (exit: C.Exit, messages: seq<FetchMessage>)
    requires Attempts(Config.RetryAttempts) <= |outcomes|
    modifies fs
    ensures var n := Attempts(Config.RetryAttempts); var k := FirstStop(outcomes, n);
      k < n && outcomes[k].OtherError? ==>
        && exit == C.Raised(outcomes[k].error)
        && messages == RetryMessages(Config.RetryAttempts, k)
        && fs.State() == old(fs.State())
    ensures var n := Attempts(Config.RetryAttempts); var k := FirstStop(outcomes, n);
      k == n && LastBound(outcomes, n).None? ==>
        && exit == C.Raised(UnboundLocalError("yt"))
        && messages == RetryMessages(Config.RetryAttempts, n)
        && fs.State() == old(fs.State())
    ensures var n := Attempts(Config.RetryAttempts); var k := FirstStop(outcomes, n);
      (k < n && outcomes[k].Fetched?) || (k == n && LastBound(outcomes, n).Some?) ==>
        var yt := if k < n then outcomes[k].yt else LastBound(outcomes, n).value;
        var f := C.OutputFilename(Config.OutputDir(home), zettel, yt.title);
        var s := Stages.RunStages(old(fs.State()), home, Config.OutputDir(home), f, yt, resolution, clip, io);
        && messages == RetryMessages(Config.RetryAttempts, k) + (if k < n then [Downloading(yt.title)] else [])
        && (s.result.Err? ==> exit == C.Raised(s.result.error) && fs.State() == s.world)
        && (s.result.Ok? && Name(f) == "" ==> exit == C.Raised(ValueError("empty name")) && fs.State() == s.world)
        && (s.result.Ok? && Name(f) != "" ==>
              && exit == C.ReturnedNone
              && exists nf :: IsLegacyNote(nf, f, url, clip, Some(C.CliYaml(yt)), note)
                              && fs.State() == AfterCreate(s.world, nf.path, NoteWritten(nf.path, nf.lines)))
  {
    var fetched, gaveUp;
    ghost var calls;
    fetched, messages, gaveUp, calls := FetchInline(Config.RetryAttempts, outcomes);
    if fetched.Err? {
      return C.Raised(fetched.error), messages;
    }
    if gaveUp {
      return C.Returned(1), messages;
    }
    var yt := fetched.value;
    if yt.None? {
      return C.Raised(UnboundLocalError("yt")), messages;
    }
    var output := Config.OutputDir(home);
    var outputFilename := C.OutputFilename(output, zettel, yt.value.title);
    var r := Core.RunStages(fs, home, output, outputFilename, yt.value, resolution, clip, io);
    if r.Err? {
      return C.Raised(r.error), messages;
    }
    var yaml := C.CliYaml(yt.value);
    var written := LegacySourceNote(outputFilename, url, clip, Some(yaml), note);
    if written.Err? {
      return C.Raised(written.error), messages;
    }
    fs.Create(written.value.path, NoteWritten(written.value.path, written.value.lines));
    exit := C.ReturnedNone;
  }

  /**
   * Downloads of dylt/main.py go into the output directory, which is where
   * the temp paths of `Config` lie: a complete run of its stages leaves
   * neither temp file behind, for any title.
   */
  lemma MainLeavesNoTemps(w: World, home: Path, outputFilename: Path, yt: YouTube,
                          resolution: Option<string>, clip: Option<string>, io: Stages.Oracle)
    requires Stages.RunStages(w, home, Config.OutputDir(home), outputFilename, yt, resolution, clip, io).result.Ok?
    ensures var s := Stages.RunStages(w, home, Config.OutputDir(home), outputFilename, yt, resolution, clip, io);
      Config.TempVideo(home) !in s.world.paths && Config.TempAudio(home) !in s.world.paths
  {
    Stages.CompletedRunOrder(w, home, Config.OutputDir(home), outputFilename, yt, resolution, clip, io);
  }

  /**
   * For a title and zettel prefix without '/', the stages of dylt/main.py are
   * exactly those of `download_from_youtube` in dylt/core.py for the same
   * output base name.
   */
  lemma MainMatchesCore(w: World, home: Path, zettel: string, yt: YouTube,
                        resolution: Option<string>, clip: Option<string>, io: Stages.Oracle)
    requires '/' !in zettel && '/' !in yt.title
    ensures var f := C.OutputFilename(Config.OutputDir(home), zettel, yt.title);
      Stages.RunStages(w, home, Config.OutputDir(home), f, yt, resolution, clip, io)
        == Stages.DownloadFromYouTube(w, home, f, yt, resolution, clip, io)
  {
    C.OutputFilenameInOutputDir(Config.OutputDir(home), zettel, yt.title);
  }
}
