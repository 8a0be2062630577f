/** The shell command `mux_audio_video` runs (dylt/core.py and dylt/main.py). */
module Mux {
  import opened Paths
  import Text

  /** `f"ffmpeg -y -i '{temp_audio}' -i '{temp_video}' -shortest '{filename}.mkv'"`. */
  function MuxCommand(filename: Path, tempAudio: Path, tempVideo: Path): string
  {
    "ffmpeg -y -i '" + ToString(tempAudio) + "' -i '" + ToString(tempVideo)
      + "' -shortest '" + ToString(filename) + ".mkv'"
  }

  /** The pieces of the command between its single quotes. */
  function MuxPieces(filename: Path, tempAudio: Path, tempVideo: Path): seq<string>
  {
    ["ffmpeg -y -i ", ToString(tempAudio), " -i ", ToString(tempVideo), " -shortest ", ToString(filename) + ".mkv", ""]
  }

  lemma {:induction false} CountIsMultiplicity(s: string, c: char)
    ensures Text.Count(s, c) == multiset(s)[c]
  {
    if s != [] {
      CountIsMultiplicity(s[1..], c);
      assert s == [s[0]] + s[1..];
    }
  }

  lemma JoinCons(x: string, rest: seq<string>, sep: string)
    requires |rest| >= 1
    ensures Text.Join([x] + rest, sep) == x + sep + Text.Join(rest, sep)
  {
    assert ([x] + rest)[1..] == rest;
  }

  lemma Join7(p0: string, p1: string, p2: string, p3: string, p4: string, p5: string, sep: string)
    ensures Text.Join([p0, p1, p2, p3, p4, p5, ""], sep) == p0 + sep + p1 + sep + p2 + sep + p3 + sep + p4 + sep + p5 + sep
  {
    JoinCons(p5, [""], sep);
    assert p5 + sep + "" == p5 + sep;
    JoinCons(p4, [p5, ""], sep);
    JoinCons(p3, [p4, p5, ""], sep);
    JoinCons(p2, [p3, p4, p5, ""], sep);
    JoinCons(p1, [p2, p3, p4, p5, ""], sep);
    JoinCons(p0, [p1, p2, p3, p4, p5, ""], sep);
  }

  lemma JoinPieces(filename: Path, tempAudio: Path, tempVideo: Path)
    ensures Text.Join(MuxPieces(filename, tempAudio, tempVideo), "'") == MuxCommand(filename, tempAudio, tempVideo)
  {
    var a, v, f := ToString(tempAudio), ToString(tempVideo), ToString(filename);
    Join7("ffmpeg -y -i ", a, " -i ", v, " -shortest ", f + ".mkv", "'");
  }

  /**
   * When no path contains a single quote, the quoted arguments are, in order,
   * the audio input, the video input and the output name followed by ".mkv".
   */
  lemma QuotedArguments(filename: Path, tempAudio: Path, tempVideo: Path)
    requires '\'' !in ToString(tempAudio) && '\'' !in ToString(tempVideo) && '\'' !in ToString(filename)
    ensures var q := Text.Split(MuxCommand(filename, tempAudio, tempVideo), '\'');
      |q| == 7 && q[1] == ToString(tempAudio) && q[3] == ToString(tempVideo) && q[5] == ToString(filename) + ".mkv"
  {
    var ps := MuxPieces(filename, tempAudio, tempVideo);
    JoinPieces(filename, tempAudio, tempVideo);
    assert '\'' !in ToString(filename) + ".mkv" by {
      assert forall x :: x in ToString(filename) + ".mkv" ==> x in ToString(filename) || x in ".mkv";
    }
    Text.SplitJoin(ps, '\'');
  }

  /** A single quote inside the output name adds a quote to the command, breaking its quoting. */
  lemma QuoteInNameBreaksQuoting(filename: Path, tempAudio: Path, tempVideo: Path)
    requires '\'' in ToString(filename)
    ensures |Text.Split(MuxCommand(filename, tempAudio, tempVideo), '\'')| > 7
  {
    var cmd := MuxCommand(filename, tempAudio, tempVideo);
    var a, v, f := ToString(tempAudio), ToString(tempVideo), ToString(filename);
    var q := "'";
    JoinPieces(filename, tempAudio, tempVideo);
    Join7("ffmpeg -y -i ", a, " -i ", v, " -shortest ", f + ".mkv", q);
    assert cmd == "ffmpeg -y -i " + q + a + q + " -i " + q + v + q + " -shortest " + q + (f + ".mkv") + q;
    Text.SplitLength(cmd, '\'');
    CountIsMultiplicity(cmd, '\'');
    assert multiset(q)['\''] == 1;
    assert multiset(f)['\''] >= 1;
  }
}
