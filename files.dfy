/**
 * The filesystem the pipeline touches, as the set of paths that exist, plus
 * the ordered record of what was done to it. `World` is the value view; the
 * `FileSystem` class is the same state updated in place.
 */
module Files {
  import opened Base
  import opened Paths
  import opened Streams
  import opened Clip

  /** How one `stream.download(...)` call ends. */
  datatype DownloadOutcome = Completed | FailedPartial | FailedNothingWritten

  datatype Effect =
    | Downloaded(stream: Stream, path: Path)
    | DownloadFailed(stream: Stream, path: Path)
    | LogOpened(path: Path)
    | Ran(command: string)
    | ClipSaved(path: Path, plan: ClipPlan)
    | Removed(path: Path)
    | NoteWritten(path: Path, lines: seq<string>)

  datatype World = World(paths: set<Path>, effects: seq<Effect>)

  /** A stage's result together with the world it leaves behind. */
  datatype Step = Step(result: Result<()>, world: World)

  /**
   * `stream.download(dir, name)`: a completed download creates or overwrites
   * the file; a failed one raises, after creating the file or before.
   */
  function AfterDownload(w: World, stream: Stream, path: Path, outcome: DownloadOutcome): (s: Step)
    ensures s.result.Ok? <==> outcome == Completed
    ensures s.world.paths == if outcome == FailedNothingWritten then w.paths else w.paths + {path}
    ensures |s.world.effects| == |w.effects| + 1 && s.world.effects[..|w.effects|] == w.effects
  {
    match outcome
    case Completed => Step(Ok(()), World(w.paths + {path}, w.effects + [Downloaded(stream, path)]))
    case FailedPartial => Step(Err(OSError("download")), World(w.paths + {path}, w.effects + [DownloadFailed(stream, path)]))
    case FailedNothingWritten => Step(Err(OSError("download")), World(w.paths, w.effects + [DownloadFailed(stream, path)]))
  }

  /** `os.remove(path)`: raises `FileNotFoundError` and changes nothing when the path does not exist. */
  function AfterRemove(w: World, path: Path): (s: Step)
    ensures s.result.Ok? <==> path in w.paths
    ensures s.result.Ok? ==> s.world == World(w.paths - {path}, w.effects + [Removed(path)])
    ensures s.result.Err? ==> s.world == w && s.result.error == FileNotFoundError(ToString(path))
  {
    if path in w.paths then Step(Ok(()), World(w.paths - {path}, w.effects + [Removed(path)]))
    else Step(Err(FileNotFoundError(ToString(path))), w)
  }

  /** Creating (or truncating) a file, recording how. */
  function AfterCreate(w: World, path: Path, e: Effect): (w': World)
    ensures w'.paths == w.paths + {path} && w'.effects == w.effects + [e]
  {
    World(w.paths + {path}, w.effects + [e])
  }

  class FileSystem {
    var paths: set<Path>
    var effects: seq<Effect>

    function State(): World
      reads this
    {
      World(paths, effects)
    }

    constructor (initial: set<Path>)
      ensures State() == World(initial, [])
    {
      paths := initial;
      effects := [];
    }

    method Download(stream: Stream, path: Path, outcome: DownloadOutcome) returns (r: Result<()>)
      modifies this
      ensures Step(r, State()) == AfterDownload(old(State()), stream, path, outcome)
    {
      if outcome != FailedNothingWritten {
        paths := paths + {path};
      }
      if outcome == Completed {
        effects := effects + [Downloaded(stream, path)];
        r := Ok(());
      } else {
        effects := effects + [DownloadFailed(stream, path)];
        r := Err(OSError("download"));
      }
    }

    method Remove(path: Path) returns (r: Result<()>)
      modifies this
      ensures Step(r, State()) == AfterRemove(old(State()), path)
    {
      if path !in paths {
        return Err(FileNotFoundError(ToString(path)));
      }
      paths := paths - {path};
      effects := effects + [Removed(path)];
      r := Ok(());
    }

    method Create(path: Path, e: Effect)
      modifies this
      ensures State() == AfterCreate(old(State()), path, e)
    {
      paths := paths + {path};
      effects := effects + [e];
    }

    method Record(e: Effect)
      modifies this
      ensures State() == World(old(paths), old(effects) + [e])
    {
      effects := effects + [e];
    }
  }
}
