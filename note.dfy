/** The sidecar markdown note of dylt/note.py: its path and the exact lines written to it. */
module Note {
  import opened Base
  import opened Paths
  import opened Fetch
  import Text

  /** The note's path and the strings handed to `writelines`, in order. */
  datatype NoteFile = NoteFile(path: Path, lines: seq<string>)

  /** `[i + "\n" for i in yaml]`. */
  function YamlLines(yaml: seq<string>): (r: seq<string>)
    ensures |r| == |yaml|
    ensures forall i :: 0 <= i < |yaml| ==> r[i] == yaml[i] + "\n"
  {
    if yaml == [] then [] else [yaml[0] + "\n"] + YamlLines(yaml[1..])
  }

  /** `["---\n"] + [...] + ["---\n"]` when a yaml list is given, nothing otherwise. */
  function FrontMatter(yaml: Option<seq<string>>): seq<string>
  {
    match yaml
    case Some(y) => ["---\n"] + YamlLines(y) + ["---\n"]
    case None => []
  }

  function TagsLine(tags: Option<seq<string>>): string
  {
    match tags
    case Some(ts) => "Tags: #" + Text.Join(ts, ", #") + "\n"
    case None => "\n"
  }

  function ClipLine(clip: Option<string>): string
  {
    match clip
    case Some(c) => "Clipped: " + c + "\n"
    case None => "\n"
  }

  function CommentBlock(comment: Option<string>): string
  {
    match comment
    case Some(c) => "\n\n" + c + "\n"
    case None => "\n"
  }

  /** `note = filename.with_suffix(".md")`; `ValueError` for a path without a name. */
  function NotePath(filename: Path): (r: Result<Path>)
    ensures r.Err? <==> Name(filename) == ""
    ensures r.Ok? ==> Parent(r.value) == Parent(filename) && Name(r.value) == Stem(Name(filename)) + ".md"
    ensures r.Ok? ==> Stem(Name(r.value)) == Stem(Name(filename)) && Suffix(Name(r.value)) == ".md"
  {
    if Name(filename) == "" then Err(ValueError("empty name"))
    else
      WithSuffixReplaces(filename, ".md");
      Ok(WithSuffix(filename, ".md").value)
  }

  /**
   * `source_note` (dylt/note.py): the optional front matter, then six entries
   * in a fixed order: the heading with the note's stem, the tags line or a
   * blank line, the source link, the fixed text, the clip line or a blank
   * line, the comment block or a blank line.
   */
  function SourceNote(filename: Path, url: string, clip: Option<string>, yaml: Option<seq<string>>,
                      comment: Option<string>, tags: Option<seq<string>>): (r: Result<NoteFile>)
    ensures r.Err? <==> Name(filename) == ""
    ensures r.Ok? ==> Parent(r.value.path) == Parent(filename) && Name(r.value.path) == Stem(Name(filename)) + ".md"
    ensures r.Ok? ==> |r.value.lines| == |FrontMatter(yaml)| + 6
    ensures r.Ok? ==> r.value.lines[..|FrontMatter(yaml)|] == FrontMatter(yaml)
    ensures r.Ok? ==> var m := |FrontMatter(yaml)|;
      && r.value.lines[m] == "# " + Stem(Name(filename)) + "\n"
      && r.value.lines[m + 1] == TagsLine(tags)
      && r.value.lines[m + 2] == "[Source](" + url + ")\n"
      && r.value.lines[m + 3] == "Video downloaded from YouTube\n"
      && r.value.lines[m + 4] == ClipLine(clip)
      && r.value.lines[m + 5] == CommentBlock(comment)
  {
    match NotePath(filename)
    case Err(e) => Err(e)
    case Ok(note) =>
      assert Stem(Name(note)) == Stem(Name(filename));
      var entries := [
        "# " + Stem(Name(note)) + "\n",
        TagsLine(tags),
        "[Source](" + url + ")\n",
        "Video downloaded from YouTube\n",
        ClipLine(clip),
        CommentBlock(comment)
      ];
      ConcatParts(FrontMatter(yaml), entries);
      Ok(NoteFile(note, FrontMatter(yaml) + entries))
  }

  /** A concatenation starts with its first part, and the second part follows it. */
  lemma ConcatParts(front: seq<string>, rest: seq<string>)
    ensures (front + rest)[..|front|] == front
    ensures forall i :: 0 <= i < |rest| ==> (front + rest)[|front| + i] == rest[i]
  {
  }

  /** The front matter: "---", each yaml entry on its own line in order, "---"; none without yaml. */
  lemma FrontMatterShape(yaml: Option<seq<string>>)
    ensures yaml.None? ==> FrontMatter(yaml) == []
    ensures yaml.Some? ==> var y := yaml.value;
      && |FrontMatter(yaml)| == |y| + 2
      && FrontMatter(yaml)[0] == "---\n" && FrontMatter(yaml)[|y| + 1] == "---\n"
      && forall i :: 0 <= i < |y| ==> FrontMatter(yaml)[i + 1] == y[i] + "\n"
  {
  }

  /** A note without yaml starts with its heading, not with a front-matter fence. */
  lemma NoFrontMatterStartsWithHeading(filename: Path, url: string, clip: Option<string>,
                                        comment: Option<string>, tags: Option<seq<string>>)
    requires Name(filename) != ""
    ensures var r := SourceNote(filename, url, clip, None, comment, tags);
      r.Ok? && r.value.lines[0][0] == '#' && r.value.lines[0] != "---\n"
  {
    var r := SourceNote(filename, url, clip, None, comment, tags);
    assert r.value.lines[0] == "# " + Stem(Name(filename)) + "\n";
  }

  /** The tags line joins with ", #", so an empty tag list gives "Tags: #". */
  lemma TagsLineShape(ts: seq<string>)
    ensures TagsLine(Some([])) == "Tags: #\n"
    ensures |ts| == 1 ==> TagsLine(Some(ts)) == "Tags: #" + ts[0] + "\n"
    ensures |ts| >= 2 ==> TagsLine(Some(ts)) == "Tags: #" + ts[0] + ", #" + Text.Join(ts[1..], ", #") + "\n"
  {
  }

  /** A title with a dot loses everything from that dot in the note's name and heading. */
  lemma DottedTitleNote(url: string)
    ensures var r := SourceNote(Path(false, ["Mr. Smith"]), url, None, None, None, None);
      r.Ok? && r.value.path == Path(false, ["Mr.md"]) && r.value.lines[0] == "# Mr\n"
  {
    DotInNameIsSuffix();
  }

  /** `create_note`'s yaml: author, title, publish date, and a last "tags: a, b" entry only when tags are given. */
  predicate IsNoteYaml(y: seq<string>, yt: YouTube, tags: Option<seq<string>>)
  {
    && |y| == (if tags.Some? then 4 else 3)
    && y[0] == "author: " + yt.author
    && y[1] == "title: " + yt.title
    && y[2] == "publish date: " + yt.publishDate
    && (tags.Some? ==> y[3] == "tags: " + Text.Join(tags.value, ", "))
  }

  /** The yaml list of `create_note`, built by appending the tags entry to the three fixed ones. */
  method BuildYaml(yt: YouTube, tags: Option<seq<string>>) returns (yaml: seq<string>)
    ensures IsNoteYaml(yaml, yt, tags)
  {
    yaml := [
      "author: " + yt.author,
      "title: " + yt.title,
      "publish date: " + yt.publishDate
    ];
    if tags.Some? {
      var yamlTag := "tags: " + Text.Join(tags.value, ", ");
      yaml := yaml + [yamlTag];
    }
  }

  /**
   * `create_note`: forwards the clip, the note text (as the comment) and the
   * tags unchanged to `source_note`, with the yaml of `BuildYaml`.
   */
  method CreateNote(outputFilename: Path, yt: YouTube, url: string, clip: Option<string>,
                    note: Option<string>, tags: Option<seq<string>>)
    returns (r: Result<NoteFile>)
    ensures exists y :: IsNoteYaml(y, yt, tags) && r == SourceNote(outputFilename, url, clip, Some(y), note, tags)
  {
    var yaml := BuildYaml(yt, tags);
    r := SourceNote(outputFilename, url, clip, Some(yaml), note, tags);
  }

  /** Two yaml lists that both satisfy `IsNoteYaml` for the same inputs are the same list. */
  lemma NoteYamlUnique(y1: seq<string>, y2: seq<string>, yt: YouTube, tags: Option<seq<string>>)
    requires IsNoteYaml(y1, yt, tags) && IsNoteYaml(y2, yt, tags)
    ensures y1 == y2
  {
  }
}
