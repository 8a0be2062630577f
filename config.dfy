/** The constants of `Config` (dylt/config.py); the home directory is a parameter. */
module Config {
  import opened Base
  import opened Paths

  const RetryAttempts: int := 3

  /** `None`: no resolution filter, see `Streams.Matches`. */
  const ResolutionDefault: Option<string> := None

  const TempVideoName := "video.mp4"
  const TempAudioName := "audio.mp4"
  const StdoutName := "dylt-out.log"
  const StderrName := "dylt-err.log"

  /** `Path.home() / "Downloads"` and the files directly inside it (`Child` is `/` for one component). */
  function OutputDir(home: Path): Path { Child(home, "Downloads") }
  function TempVideo(home: Path): Path { Child(OutputDir(home), TempVideoName) }
  function TempAudio(home: Path): Path { Child(OutputDir(home), TempAudioName) }
  function Stdout(home: Path): Path { Child(OutputDir(home), StdoutName) }
  function Stderr(home: Path): Path { Child(OutputDir(home), StderrName) }

  /** The names are single components, so `Child` is what pathlib's `/` computes for them. */
  lemma ConfigPathsAreDivisions(home: Path)
    ensures OutputDir(home) == Divide(home, "Downloads")
    ensures TempVideo(home) == Divide(OutputDir(home), TempVideoName)
    ensures TempAudio(home) == Divide(OutputDir(home), TempAudioName)
    ensures Stdout(home) == Divide(OutputDir(home), StdoutName)
    ensures Stderr(home) == Divide(OutputDir(home), StderrName)
  {
    assert IsComponent("Downloads") && IsComponent(TempVideoName) && IsComponent(TempAudioName);
    assert IsComponent(StdoutName) && IsComponent(StderrName);
    DivideComponent(home, "Downloads");
    DivideComponent(OutputDir(home), TempVideoName);
    DivideComponent(OutputDir(home), TempAudioName);
    DivideComponent(OutputDir(home), StdoutName);
    DivideComponent(OutputDir(home), StderrName);
  }

  /** The temp files and the log file are three distinct files directly inside the output directory. */
  lemma TempFilesDistinct(home: Path)
    ensures Parent(TempVideo(home)) == OutputDir(home) && Parent(TempAudio(home)) == OutputDir(home)
    ensures TempVideo(home) != TempAudio(home)
    ensures Stdout(home) != TempVideo(home) && Stdout(home) != TempAudio(home)
  {
    var d := OutputDir(home);
    assert d.parts + [TempVideoName] != d.parts + [TempAudioName] by {
      assert (d.parts + [TempVideoName])[|d.parts|] == TempVideoName;
    }
    assert d.parts + [StdoutName] != d.parts + [TempVideoName] by {
      assert (d.parts + [StdoutName])[|d.parts|] == StdoutName;
    }
    assert d.parts + [StdoutName] != d.parts + [TempAudioName] by {
      assert (d.parts + [StdoutName])[|d.parts|] == StdoutName;
    }
    assert (d.parts + [TempVideoName])[..|d.parts|] == d.parts;
    assert (d.parts + [TempAudioName])[..|d.parts|] == d.parts;
  }
}
