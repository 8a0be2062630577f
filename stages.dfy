/**
 * The stages of `download_from_youtube` (dylt/core.py) as functions from the
 * world before to the result and the world after. The methods of `Core`
 * perform them in place on a `FileSystem`; the lemmas here state what the
 * sequencing promises.
 */
module Stages {
  import opened Base
  import opened Paths
  import opened Streams
  import opened Clip
  import opened Files
  import opened Fetch
  import Config
  import Mux

  /** What the foreign libraries do: the two downloads, moviepy's decode and encode, ffmpeg's output. */
  datatype Oracle = Oracle(
    videoDownload: DownloadOutcome,
    audioDownload: DownloadOutcome,
    decodeOk: bool,
    encodeOk: bool,
    ffmpegWrites: bool)

  /** Select and download the video stream, then select and download the audio stream, into `dir` (`Child` is pathlib's `/`). */
  function DownloadStreams(w: World, dir: Path, yt: YouTube, resolution: Option<string>, io: Oracle): Step
  {
    match SelectLast(yt.streams, VideoQuery(resolution))
    case Err(e) => Step(Err(e), w)
    case Ok(video) =>
      var s1 := AfterDownload(w, video, Child(dir, Config.TempVideoName), io.videoDownload);
      if s1.result.Err? then s1
      else match SelectLast(yt.streams, AudioQuery)
        case Err(e) => Step(Err(e), s1.world)
        case Ok(audio) => AfterDownload(s1.world, audio, Child(dir, Config.TempAudioName), io.audioDownload)
  }

  /**
   * The clip branch: parse the clip argument, clip the temp files (moviepy
   * raises when they are missing), then `save_clipped_video` to
   * `output_filename.with_suffix(".mp4")`.
   */
  function ClipAndSave(w: World, home: Path, outputFilename: Path, clip: string, io: Oracle): Step
  {
    match ParseClip(clip)
    case Err(e) => Step(Err(e), w)
    case Ok((start, end)) =>
      var plan := ClipAudioVideo(start, end);
      if !(io.decodeOk && Config.TempAudio(home) in w.paths && Config.TempVideo(home) in w.paths) then
        Step(Err(OSError("decode")), w)
      else match WithSuffix(outputFilename, ".mp4")
        case None => Step(Err(ValueError("with_suffix")), w)
        case Some(target) =>
          if io.encodeOk then Step(Ok(()), AfterCreate(w, target, ClipSaved(target, plan)))
          else Step(Err(OSError("encode")), w)
  }

  /** Where ffmpeg writes: the path named by `f"{filename}.mkv"`. */
  function MkvPath(filename: Path): Path
  {
    FromString(ToString(filename) + ".mkv")
  }

  /**
   * `mux_audio_video`: open both log files for writing, then run the command.
   * Its exit status is ignored, so it never raises; the output exists only if
   * ffmpeg, given both inputs, wrote it.
   */
  function MuxAudioVideo(w: World, filename: Path, tempAudio: Path, tempVideo: Path, stdout: Path, stderr: Path, io: Oracle): World
  {
    var logs := AfterCreate(AfterCreate(w, stdout, LogOpened(stdout)), stderr, LogOpened(stderr));
    var ran := World(logs.paths, logs.effects + [Ran(Mux.MuxCommand(filename, tempAudio, tempVideo))]);
    if io.ffmpegWrites && tempAudio in w.paths && tempVideo in w.paths then World(ran.paths + {MkvPath(filename)}, ran.effects)
    else ran
  }

  /** `clean_up_temp_files`: remove the video temp file, then the audio temp file. */
  function CleanUpTempFiles(w: World, tempAudio: Path, tempVideo: Path): Step
  {
    var s1 := AfterRemove(w, tempVideo);
    if s1.result.Err? then s1 else AfterRemove(s1.world, tempAudio)
  }

  /** The postprocess stage: exactly one of clip-and-save or mux. */
  function Postprocess(w: World, home: Path, outputFilename: Path, clip: Option<string>, io: Oracle): Step
  {
    match clip
    case Some(c) => ClipAndSave(w, home, outputFilename, c, io)
    case None =>
      Step(Ok(()), MuxAudioVideo(w, outputFilename, Config.TempAudio(home), Config.TempVideo(home),
                                 Config.Stdout(home), Config.Stdout(home), io))
  }

  /**
   * The stage sequence shared by both commands: download into `dir`, then
   * postprocess, then clean up the `Config` temp paths. Any exception ends the
   * run where it is raised: cleanup is not in a `finally`.
   */
  function RunStages(w: World, home: Path, dir: Path, outputFilename: Path, yt: YouTube,
                     resolution: Option<string>, clip: Option<string>, io: Oracle): Step
  {
    var s1 := DownloadStreams(w, dir, yt, resolution, io);
    if s1.result.Err? then s1
    else
      var s2 := Postprocess(s1.world, home, outputFilename, clip, io);
      if s2.result.Err? then s2 else CleanUpTempFiles(s2.world, Config.TempAudio(home), Config.TempVideo(home))
  }

  /** `download_from_youtube`: the stage sequence, downloading into `output_filename.parent`. */
  function DownloadFromYouTube(w: World, home: Path, outputFilename: Path, yt: YouTube,
                               resolution: Option<string>, clip: Option<string>, io: Oracle): Step
  {
    RunStages(w, home, Parent(outputFilename), outputFilename, yt, resolution, clip, io)
  }

  // ---- properties -------------------------------------------------------

  /** The effects a step added after the ones already in `w`. */
  function Added(w: World, s: Step): seq<Effect>
  {
    if |w.effects| <= |s.world.effects| then s.world.effects[|w.effects|..] else []
  }

  /** A video query that matches nothing raises before anything is downloaded. */
  lemma NoVideoMatchDownloadsNothing(w: World, dir: Path, yt: YouTube, resolution: Option<string>, io: Oracle)
    requires forall i :: 0 <= i < |yt.streams| ==> !Matches(VideoQuery(resolution), yt.streams[i])
    ensures DownloadStreams(w, dir, yt, resolution, io).world == w
    ensures DownloadStreams(w, dir, yt, resolution, io).result.Err?
    ensures DownloadStreams(w, dir, yt, resolution, io).result.error.IndexError?
  {
  }

  /** An audio query that matches nothing raises after the video download and before any audio download. */
  lemma NoAudioMatchAfterVideo(w: World, dir: Path, yt: YouTube, resolution: Option<string>, io: Oracle)
    requires SelectLast(yt.streams, VideoQuery(resolution)).Ok? && io.videoDownload == Completed
    requires forall i :: 0 <= i < |yt.streams| ==> !Matches(AudioQuery, yt.streams[i])
    ensures var vp := Child(dir, Config.TempVideoName);
      var s := DownloadStreams(w, dir, yt, resolution, io);
      && s.result.Err? && s.result.error.IndexError?
      && s.world == World(w.paths + {vp}, w.effects + [Downloaded(SelectLast(yt.streams, VideoQuery(resolution)).value, vp)])
  {
  }

  /**
   * The download stage succeeds exactly when both queries match and both
   * downloads complete, and then it has downloaded the last matching video
   * stream and then the last matching audio stream, and nothing else.
   */
  lemma DownloadOrder(w: World, dir: Path, yt: YouTube, resolution: Option<string>, io: Oracle)
    ensures var s := DownloadStreams(w, dir, yt, resolution, io);
      var video := SelectLast(yt.streams, VideoQuery(resolution));
      var audio := SelectLast(yt.streams, AudioQuery);
      s.result.Ok? <==> video.Ok? && audio.Ok? && io.videoDownload == Completed && io.audioDownload == Completed
    ensures var s := DownloadStreams(w, dir, yt, resolution, io);
      var video := SelectLast(yt.streams, VideoQuery(resolution));
      var audio := SelectLast(yt.streams, AudioQuery);
      var vp, ap := Child(dir, Config.TempVideoName), Child(dir, Config.TempAudioName);
      s.result.Ok? ==>
        s.world == World(w.paths + {vp, ap}, w.effects + [Downloaded(video.value, vp), Downloaded(audio.value, ap)])
  {
    var s := DownloadStreams(w, dir, yt, resolution, io);
    var video := SelectLast(yt.streams, VideoQuery(resolution));
    var audio := SelectLast(yt.streams, AudioQuery);
    if video.Ok? && audio.Ok? && io.videoDownload == Completed && io.audioDownload == Completed {
      var vp, ap := Child(dir, Config.TempVideoName), Child(dir, Config.TempAudioName);
      var s1 := AfterDownload(w, video.value, vp, Completed);
      assert s1.world == World(w.paths + {vp}, w.effects + [Downloaded(video.value, vp)]);
      assert s == AfterDownload(s1.world, audio.value, ap, Completed);
      assert w.paths + {vp} + {ap} == w.paths + {vp, ap};
      assert w.effects + [Downloaded(video.value, vp)] + [Downloaded(audio.value, ap)]
        == w.effects + [Downloaded(video.value, vp), Downloaded(audio.value, ap)];
    }
  }

  /** Cleanup succeeds exactly when both files exist, and then removes both, video first. */
  lemma CleanUpRemovesBoth(w: World, tempAudio: Path, tempVideo: Path)
    requires tempAudio != tempVideo
    ensures var s := CleanUpTempFiles(w, tempAudio, tempVideo);
      && (s.result.Ok? <==> tempVideo in w.paths && tempAudio in w.paths)
      && (s.result.Ok? ==>
            s.world == World(w.paths - {tempVideo, tempAudio}, w.effects + [Removed(tempVideo), Removed(tempAudio)]))
  {
    var s1 := AfterRemove(w, tempVideo);
    if s1.result.Ok? {
      assert s1.world.paths - {tempAudio} == w.paths - {tempVideo, tempAudio};
    }
  }

  /**
   * A missing video temp file raises before anything is removed, so the audio
   * file stays; a missing audio temp file raises after the video file is gone.
   */
  lemma CleanUpStopsAtMissingFile(w: World, tempAudio: Path, tempVideo: Path)
    requires tempAudio != tempVideo
    ensures tempVideo !in w.paths ==>
      CleanUpTempFiles(w, tempAudio, tempVideo) == Step(Err(FileNotFoundError(ToString(tempVideo))), w)
    ensures tempVideo in w.paths && tempAudio !in w.paths ==>
      CleanUpTempFiles(w, tempAudio, tempVideo)
        == Step(Err(FileNotFoundError(ToString(tempAudio))), World(w.paths - {tempVideo}, w.effects + [Removed(tempVideo)]))
  {
  }

  /** Cleanup is not idempotent: running it again after it succeeded raises `FileNotFoundError`. */
  lemma CleanUpTwiceFails(w: World, tempAudio: Path, tempVideo: Path)
    requires tempAudio != tempVideo
    requires CleanUpTempFiles(w, tempAudio, tempVideo).result.Ok?
    ensures CleanUpTempFiles(CleanUpTempFiles(w, tempAudio, tempVideo).world, tempAudio, tempVideo).result
      == Err(FileNotFoundError(ToString(tempVideo)))
  {
    CleanUpRemovesBoth(w, tempAudio, tempVideo);
  }

  /** Without a clip, only the mux runs: it opens the one log file twice and runs the command. */
  lemma MuxOnlyWithoutClip(w: World, home: Path, outputFilename: Path, io: Oracle)
    ensures var s := Postprocess(w, home, outputFilename, None, io);
      && s.result.Ok?
      && s.world.effects == w.effects + [LogOpened(Config.Stdout(home)), LogOpened(Config.Stdout(home)),
                                         Ran(Mux.MuxCommand(outputFilename, Config.TempAudio(home), Config.TempVideo(home)))]
      && s.world.paths == w.paths + {Config.Stdout(home)}
           + (if io.ffmpegWrites && Config.TempAudio(home) in w.paths && Config.TempVideo(home) in w.paths
              then {MkvPath(outputFilename)} else {})
  {
  }

  /** With a clip, only clip-and-save runs: it records one saved clip at `with_suffix(".mp4")`, or nothing. */
  lemma ClipOnlyWithClip(w: World, home: Path, outputFilename: Path, clip: string, io: Oracle)
    ensures var s := Postprocess(w, home, outputFilename, Some(clip), io);
      && (s.result.Err? ==> s.world == w)
      && (s.result.Ok? ==>
            && ParseClip(clip).Ok?
            && WithSuffix(outputFilename, ".mp4").Some?
            && var t := ParseClip(clip).value;
               && s.world.effects == w.effects + [ClipSaved(WithSuffix(outputFilename, ".mp4").value, ClipAudioVideo(t.0, t.1))]
               && s.world.paths == w.paths + {WithSuffix(outputFilename, ".mp4").value})
  {
  }

  /** A failure before cleanup leaves no removal behind: cleanup runs only after normal completion. */
  lemma NoCleanupAfterFailure(w: World, home: Path, dir: Path, outputFilename: Path, yt: YouTube,
                              resolution: Option<string>, clip: Option<string>, io: Oracle)
    ensures var s1 := DownloadStreams(w, dir, yt, resolution, io);
      var s := RunStages(w, home, dir, outputFilename, yt, resolution, clip, io);
      (s1.result.Err? || Postprocess(s1.world, home, outputFilename, clip, io).result.Err?) ==>
        && s.result.Err?
        && (forall e :: e in s.world.effects ==> e in w.effects || !e.Removed?)
        && s1.world.paths <= s.world.paths
  {
    var s1 := DownloadStreams(w, dir, yt, resolution, io);
    DownloadOrder(w, dir, yt, resolution, io);
    if s1.result.Ok? {
      var s2 := Postprocess(s1.world, home, outputFilename, clip, io);
      if clip.Some? { ClipOnlyWithClip(s1.world, home, outputFilename, clip.value, io); }
      else { MuxOnlyWithoutClip(s1.world, home, outputFilename, io); }
    }
  }

  /**
   * On normal completion the effects are: the video download, the audio
   * download, then the clip save (with a clip) or the mux (without one), then
   * the removal of the video and then the audio temp file; neither temp file
   * is left.
   */
  lemma CompletedRunOrder(w: World, home: Path, dir: Path, outputFilename: Path, yt: YouTube,
                          resolution: Option<string>, clip: Option<string>, io: Oracle)
    requires RunStages(w, home, dir, outputFilename, yt, resolution, clip, io).result.Ok?
    ensures var s := RunStages(w, home, dir, outputFilename, yt, resolution, clip, io);
      var video := SelectLast(yt.streams, VideoQuery(resolution)).value;
      var audio := SelectLast(yt.streams, AudioQuery).value;
      var downloads := [Downloaded(video, Child(dir, Config.TempVideoName)), Downloaded(audio, Child(dir, Config.TempAudioName))];
      var removals := [Removed(Config.TempVideo(home)), Removed(Config.TempAudio(home))];
      && (clip.Some? ==>
            var t := ParseClip(clip.value).value;
            s.world.effects
              == w.effects + downloads + [ClipSaved(WithSuffix(outputFilename, ".mp4").value, ClipAudioVideo(t.0, t.1))] + removals)
      && (clip.None? ==>
            s.world.effects == w.effects + downloads
              + [LogOpened(Config.Stdout(home)), LogOpened(Config.Stdout(home)),
                 Ran(Mux.MuxCommand(outputFilename, Config.TempAudio(home), Config.TempVideo(home)))]
              + removals)
      && Config.TempVideo(home) !in s.world.paths && Config.TempAudio(home) !in s.world.paths
  {
    var s1 := DownloadStreams(w, dir, yt, resolution, io);
    DownloadOrder(w, dir, yt, resolution, io);
    var s2 := Postprocess(s1.world, home, outputFilename, clip, io);
    Config.TempFilesDistinct(home);
    CleanUpRemovesBoth(s2.world, Config.TempAudio(home), Config.TempVideo(home));
    var removals := [Removed(Config.TempVideo(home)), Removed(Config.TempAudio(home))];
    if clip.Some? {
      ClipOnlyWithClip(s1.world, home, outputFilename, clip.value, io);
      var t := ParseClip(clip.value).value;
      var plan := ClipAudioVideo(t.0, t.1);
      assert s2.world.effects + removals
        == s1.world.effects + [ClipSaved(WithSuffix(outputFilename, ".mp4").value, plan)] + removals;
    } else {
      MuxOnlyWithoutClip(s1.world, home, outputFilename, io);
    }
  }

  /**
   * Downloads go to `output_filename.parent` but cleanup removes the `Config`
   * temp paths. When the two directories differ (a '/' in the title is enough,
   * see `Paths.SlashMakesSubdirectory`) and no old temp file lies in the
   * configured directory, a mux run ends in `FileNotFoundError` and both
   * downloaded files stay behind.
   */
  lemma DownloadDirMismatchOrphansTemps(w: World, home: Path, outputFilename: Path, yt: YouTube,
                                        resolution: Option<string>, io: Oracle)
    requires Parent(outputFilename) != Config.OutputDir(home)
    requires Config.TempVideo(home) !in w.paths
    requires DownloadStreams(w, Parent(outputFilename), yt, resolution, io).result.Ok?
    ensures var s := DownloadFromYouTube(w, home, outputFilename, yt, resolution, None, io);
      && s.result == Err(FileNotFoundError(ToString(Config.TempVideo(home))))
      && Child(Parent(outputFilename), Config.TempVideoName) in s.world.paths
      && Child(Parent(outputFilename), Config.TempAudioName) in s.world.paths
  {
    var dir := Parent(outputFilename);
    DownloadOrder(w, dir, yt, resolution, io);
    Config.TempFilesDistinct(home);
    ChildInjective(dir, Config.TempVideoName, Config.OutputDir(home), Config.TempVideoName);
    var s1 := DownloadStreams(w, dir, yt, resolution, io);
    assert Config.TempVideo(home) !in s1.world.paths;
    var s2 := Postprocess(s1.world, home, outputFilename, None, io);
    assert Config.TempVideo(home) !in s2.world.paths;
  }

  /**
   * With a clip, the same mismatch fails earlier: moviepy finds no `Config`
   * temp file, so the clip stage raises (or the clip argument already does)
   * before cleanup, and the run ends with just the two downloads done.
   */
  lemma DownloadDirMismatchClipFails(w: World, home: Path, outputFilename: Path, yt: YouTube,
                                     resolution: Option<string>, clip: string, io: Oracle)
    requires Parent(outputFilename) != Config.OutputDir(home)
    requires Config.TempVideo(home) !in w.paths
    requires DownloadStreams(w, Parent(outputFilename), yt, resolution, io).result.Ok?
    ensures var s := DownloadFromYouTube(w, home, outputFilename, yt, resolution, Some(clip), io);
      && s.result == (if ParseClip(clip).Err? then Err(ParseClip(clip).error) else Err(OSError("decode")))
      && s.world == DownloadStreams(w, Parent(outputFilename), yt, resolution, io).world
      && Child(Parent(outputFilename), Config.TempVideoName) in s.world.paths
      && Child(Parent(outputFilename), Config.TempAudioName) in s.world.paths
  {
    var dir := Parent(outputFilename);
    DownloadOrder(w, dir, yt, resolution, io);
    ChildInjective(dir, Config.TempVideoName, Config.OutputDir(home), Config.TempVideoName);
    var s1 := DownloadStreams(w, dir, yt, resolution, io);
    assert Config.TempVideo(home) !in s1.world.paths;
  }

  /**
   * With downloads into the configured directory, a completed mux run leaves
   * neither temp file behind; the mkv output is the sibling of the output
   * base name with ".mkv" appended, in the configured directory, and it stays
   * when ffmpeg wrote it.
   */
  lemma SameDirMuxCleansUp(w: World, home: Path, outputFilename: Path, yt: YouTube,
                           resolution: Option<string>, io: Oracle)
    requires Parent(outputFilename) == Config.OutputDir(home)
    requires DownloadStreams(w, Parent(outputFilename), yt, resolution, io).result.Ok?
    ensures var s := DownloadFromYouTube(w, home, outputFilename, yt, resolution, None, io);
      && s.result.Ok?
      && Config.TempVideo(home) !in s.world.paths && Config.TempAudio(home) !in s.world.paths
      && (WellFormed(outputFilename) ==>
            && Parent(MkvPath(outputFilename)) == Config.OutputDir(home)
            && Name(MkvPath(outputFilename)) == Name(outputFilename) + ".mkv"
            && (io.ffmpegWrites ==> MkvPath(outputFilename) in s.world.paths))
  {
    var dir := Parent(outputFilename);
    DownloadOrder(w, dir, yt, resolution, io);
    Config.TempFilesDistinct(home);
    var s1 := DownloadStreams(w, dir, yt, resolution, io);
    var s2 := Postprocess(s1.world, home, outputFilename, None, io);
    MuxOnlyWithoutClip(s1.world, home, outputFilename, io);
    CleanUpRemovesBoth(s2.world, Config.TempAudio(home), Config.TempVideo(home));
    if WellFormed(outputFilename) {
      MkvBesideOutput(home, outputFilename);
    }
  }

  /** For an output base name in the configured directory, the mkv output lies there too and is neither temp file. */
  lemma MkvBesideOutput(home: Path, outputFilename: Path)
    requires WellFormed(outputFilename) && Parent(outputFilename) == Config.OutputDir(home)
    ensures Parent(MkvPath(outputFilename)) == Config.OutputDir(home)
    ensures Name(MkvPath(outputFilename)) == Name(outputFilename) + ".mkv"
    ensures MkvPath(outputFilename) != Config.TempVideo(home) && MkvPath(outputFilename) != Config.TempAudio(home)
  {
    assert outputFilename.parts != [];
    AppendedExtension(outputFilename, ".mkv");
    var last := Name(outputFilename) + ".mkv";
    assert last[|last| - 1] == 'v';
    Config.TempFilesDistinct(home);
  }
}
