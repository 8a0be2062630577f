/** `TagList.convert` (dylt/lib.py): the click parameter type that splits "tag,name,etc". */
module Lib {
  import opened Base
  import Text

  /** A command-line value as click hands it to `convert`: a string, or anything else (shown by `str`). */
  datatype Value = Str(s: string) | NonString(text: string)

  /**
   * `value.split(",")` for a string, kept exactly: no trimming and no dropping
   * of empty segments; otherwise `self.fail(...)`, which raises `BadParameter`.
   */
  function Convert(value: Value): (r: Result<seq<string>>)
    ensures value.Str? ==> r.Ok?
    ensures value.Str? ==> Text.Join(r.value, ",") == value.s
    ensures value.Str? ==> |r.value| == Text.Count(value.s, ',') + 1
    ensures value.Str? ==> forall i :: 0 <= i < |r.value| ==> ',' !in r.value[i]
    ensures value.NonString? ==> r == Err(BadParameter(value.text + " is not a valid string"))
  {
    match value
    case Str(s) =>
      Text.JoinSplit(s, ',');
      Text.SplitLength(s, ',');
      Text.SplitSegmentsFree(s, ',');
      Ok(Text.Split(s, ','))
    case NonString(text) => Err(BadParameter(text + " is not a valid string"))
  }

  /** Any non-empty list of comma-free tags is what `convert` makes of the tags joined with ",". */
  lemma ConvertJoin(tags: seq<string>)
    requires |tags| >= 1 && forall i :: 0 <= i < |tags| ==> ',' !in tags[i]
    ensures Convert(Str(Text.Join(tags, ","))) == Ok(tags)
  {
    Text.SplitJoin(tags, ',');
  }

  /** The empty string is one empty tag, and whitespace and empty segments survive. */
  lemma ConvertKeepsEverything()
    ensures Convert(Str("")) == Ok([""])
    ensures Convert(Str(" a,,b")) == Ok([" a", "", "b"])
  {
    ConvertJoin([" a", "", "b"]);
    assert Text.Join([" a", "", "b"], ",") == " a,,b" by {
      assert [" a", "", "b"][1..] == ["", "b"];
      assert ["", "b"][1..] == ["b"];
    }
  }
}
