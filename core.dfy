/**
 * dylt/core.py's download stage, performed step by step on a `FileSystem`.
 * Each method does what the corresponding `Stages` function describes.
 */
module Core {
  import opened Base
  import opened Paths
  import opened Streams
  import opened Clip
  import opened Files
  import opened Fetch
  import Config
  import Mux
  import Stages

  method DownloadStreams(fs: FileSystem, dir: Path, yt: YouTube, resolution: Option<string>, io: Stages.Oracle)
    returns (r: Result<()>)
    modifies fs
    ensures Step(r, fs.State()) == Stages.DownloadStreams(old(fs.State()), dir, yt, resolution, io)
  {
    var video := SelectLast(yt.streams, VideoQuery(resolution));
    if video.Err? {
      return Err(video.error);
    }
    r := fs.Download(video.value, Child(dir, Config.TempVideoName), io.videoDownload);
    if r.Err? {
      return;
    }
    var audio := SelectLast(yt.streams, AudioQuery);
    if audio.Err? {
      return Err(audio.error);
    }
    r := fs.Download(audio.value, Child(dir, Config.TempAudioName), io.audioDownload);
  }

  method ClipAndSave(fs: FileSystem, home: Path, outputFilename: Path, clip: string, io: Stages.Oracle)
    returns (r: Result<()>)
    modifies fs
    ensures Step(r, fs.State()) == Stages.ClipAndSave(old(fs.State()), home, outputFilename, clip, io)
  {
    var times := ParseClip(clip);
    if times.Err? {
      return Err(times.error);
    }
    var (start, end) := times.value;
    var plan := ClipAudioVideo(start, end);
    if !(io.decodeOk && Config.TempAudio(home) in fs.paths && Config.TempVideo(home) in fs.paths) {
      return Err(OSError("decode"));
    }
    var target := WithSuffix(outputFilename, ".mp4");
    if target.None? {
      return Err(ValueError("with_suffix"));
    }
    if !io.encodeOk {
      return Err(OSError("encode"));
    }
    fs.Create(target.value, ClipSaved(target.value, plan));
    r := Ok(());
  }

  method MuxAudioVideo(fs: FileSystem, filename: Path, tempAudio: Path, tempVideo: Path,
                       stdout: Path, stderr: Path, io: Stages.Oracle)
    modifies fs
    ensures fs.State() == Stages.MuxAudioVideo(old(fs.State()), filename, tempAudio, tempVideo, stdout, stderr, io)
  {
    var inputsExist := tempAudio in fs.paths && tempVideo in fs.paths;
    fs.Create(stdout, LogOpened(stdout));
    fs.Create(stderr, LogOpened(stderr));
    fs.Record(Ran(Mux.MuxCommand(filename, tempAudio, tempVideo)));
    if io.ffmpegWrites && inputsExist {
      fs.paths := fs.paths + {Stages.MkvPath(filename)};
    }
  }

  method CleanUpTempFiles(fs: FileSystem, tempAudio: Path, tempVideo: Path) returns (r: Result<()>)
    modifies fs
    ensures Step(r, fs.State()) == Stages.CleanUpTempFiles(old(fs.State()), tempAudio, tempVideo)
  {
    r := fs.Remove(tempVideo);
    if r.Err? {
      return;
    }
    r := fs.Remove(tempAudio);
  }

  /** The stage sequence of `Stages.RunStages`. */
  method RunStages(fs: FileSystem, home: Path, dir: Path, outputFilename: Path, yt: YouTube,
                   resolution: Option<string>, clip: Option<string>, io: Stages.Oracle)
    returns (r: Result<()>)
    modifies fs
    ensures Step(r, fs.State()) == Stages.RunStages(old(fs.State()), home, dir, outputFilename, yt, resolution, clip, io)
  {
    r := DownloadStreams(fs, dir, yt, resolution, io);
    if r.Err? {
      return;
    }
    if clip.Some? {
      r := ClipAndSave(fs, home, outputFilename, clip.value, io);
      if r.Err? {
        return;
      }
    } else {
      MuxAudioVideo(fs, outputFilename, Config.TempAudio(home), Config.TempVideo(home),
                    Config.Stdout(home), Config.Stdout(home), io);
    }
    r := CleanUpTempFiles(fs, Config.TempAudio(home), Config.TempVideo(home));
  }

  /** `download_from_youtube`: the stages, downloading into `output_filename.parent`. */
  method DownloadFromYouTube(fs: FileSystem, home: Path, outputFilename: Path, yt: YouTube,
                             resolution: Option<string>, clip: Option<string>, io: Stages.Oracle)
    returns (r: Result<()>)
    modifies fs
    ensures Step(r, fs.State()) == Stages.DownloadFromYouTube(old(fs.State()), home, outputFilename, yt, resolution, clip, io)
  {
    r := RunStages(fs, home, Parent(outputFilename), outputFilename, yt, resolution, clip, io);
  }
}
