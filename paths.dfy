/**
 * The part of `pathlib.PurePosixPath` the program relies on (as of Python 3.12):
 * a path is an absolute flag and its components; `/` splits a string on '/'
 * and drops empty and "." components; `with_suffix` replaces the final suffix
 * of the last component.
 */
module Paths {
  import opened Base
  import Text

  datatype Path = Path(absolute: bool, parts: seq<string>)

  /** What pathlib keeps as a component: non-empty, not ".", free of '/'. */
  predicate IsComponent(x: string)
  {
    x != "" && x != "." && '/' !in x
  }

  predicate WellFormed(p: Path)
  {
    forall i :: 0 <= i < |p.parts| ==> IsComponent(p.parts[i])
  }

  /** Drops the empty and "." segments, keeping the order of the others. */
  function Clean(xs: seq<string>): (ys: seq<string>)
    ensures forall i :: 0 <= i < |ys| ==> ys[i] != "" && ys[i] != "."
    ensures forall i :: 0 <= i < |ys| ==> ys[i] in xs
  {
    if xs == [] then []
    else if xs[0] == "" || xs[0] == "." then Clean(xs[1..])
    else [xs[0]] + Clean(xs[1..])
  }

  lemma {:induction false} CleanKeepsComponents(xs: seq<string>)
    requires forall i :: 0 <= i < |xs| ==> IsComponent(xs[i])
    ensures Clean(xs) == xs
  {
    if xs != [] {
      CleanKeepsComponents(xs[1..]);
      assert xs == [xs[0]] + xs[1..];
    }
  }

  function Components(s: string): seq<string>
  {
    Clean(Text.Split(s, '/'))
  }

  lemma ComponentsAreComponents(s: string)
    ensures forall i :: 0 <= i < |Components(s)| ==> IsComponent(Components(s)[i])
  {
    Text.SplitSegmentsFree(s, '/');
    var segs := Text.Split(s, '/');
    forall i | 0 <= i < |Components(s)| ensures '/' !in Components(s)[i] {
      var x := Components(s)[i];
      assert x in segs;
      var j :| 0 <= j < |segs| && segs[j] == x;
    }
  }

  /** `p / s`: an absolute `s` replaces `p`; otherwise its components are appended. */
  function Divide(p: Path, s: string): (r: Path)
    ensures WellFormed(p) ==> WellFormed(r)
  {
    ComponentsAreComponents(s);
    if |s| > 0 && s[0] == '/' then Path(true, Components(s))
    else Path(p.absolute, p.parts + Components(s))
  }

  /** `p / name` for a single component `name` (see `DivideComponent`). */
  function Child(p: Path, name: string): Path
  {
    Path(p.absolute, p.parts + [name])
  }

  /** `Path(s)`. */
  function FromString(s: string): Path
  {
    Divide(Path(false, []), s)
  }

  /** `str(p)`. */
  function ToString(p: Path): string
  {
    if p.absolute then "/" + Text.Join(p.parts, "/")
    else if p.parts == [] then "."
    else Text.Join(p.parts, "/")
  }

  /** `p.parent`: the root and the empty path are their own parents. */
  function Parent(p: Path): Path
  {
    if p.parts == [] then p else Path(p.absolute, p.parts[..|p.parts| - 1])
  }

  /** `p.name`: the last component, or "" for the root or the empty path. */
  function Name(p: Path): string
  {
    if p.parts == [] then "" else p.parts[|p.parts| - 1]
  }

  function LastIndexOf(s: string, c: char): (r: Option<nat>)
    ensures r.None? ==> c !in s
    ensures r.Some? ==> r.value < |s| && s[r.value] == c
    ensures r.Some? ==> forall j :: r.value < j < |s| ==> s[j] != c
  {
    if s == [] then None
    else if s[|s| - 1] == c then Some(|s| - 1)
    else LastIndexOf(s[..|s| - 1], c)
  }

  /** `PurePath.suffix` on a name: from the last '.', unless that dot leads or ends the name. */
  function Suffix(name: string): string
  {
    match LastIndexOf(name, '.')
    case Some(i) => if 0 < i < |name| - 1 then name[i..] else ""
    case None => ""
  }

  /** `PurePath.stem` on a name: the name without its suffix. */
  function Stem(name: string): string
  {
    match LastIndexOf(name, '.')
    case Some(i) => if 0 < i < |name| - 1 then name[..i] else name
    case None => name
  }

  /** The suffixes `with_suffix` accepts: empty, or a dot and more, with no '/'. */
  predicate ValidSuffix(suffix: string)
  {
    '/' !in suffix && (suffix == "" || (suffix[0] == '.' && suffix != "."))
  }

  /** `p.with_suffix(suffix)`; `None` where pathlib raises `ValueError`. */
  function WithSuffix(p: Path, suffix: string): Option<Path>
  {
    if !ValidSuffix(suffix) || Name(p) == "" then None
    else Some(Path(p.absolute, p.parts[..|p.parts| - 1] + [Stem(Name(p)) + suffix]))
  }

  // ---- properties -------------------------------------------------------

  /** Stem and suffix split the name. */
  lemma StemSuffix(name: string)
    ensures Stem(name) + Suffix(name) == name
  {
    match LastIndexOf(name, '.')
    case Some(i) =>
      if 0 < i < |name| - 1 {
        assert name[..i] + name[i..] == name;
      }
    case None =>
  }

  /** A non-empty name has a non-empty stem. */
  lemma StemNonEmpty(name: string)
    requires name != ""
    ensures Stem(name) != ""
  {
  }

  /** Dividing by a single component appends it: the parent is the directory and the name is that component. */
  lemma DivideComponent(dir: Path, name: string)
    requires IsComponent(name)
    ensures Divide(dir, name) == Child(dir, name)
    ensures Parent(Divide(dir, name)) == dir
    ensures Name(Divide(dir, name)) == name
  {
    Text.SplitFree(name, '/');
    assert Clean([name]) == [name] by { CleanKeepsComponents([name]); }
    assert (dir.parts + [name])[..|dir.parts|] == dir.parts;
  }

  /** Children with different names, or of different directories, are different paths. */
  lemma ChildInjective(d1: Path, n1: string, d2: Path, n2: string)
    ensures Child(d1, n1) == Child(d2, n2) <==> d1 == d2 && n1 == n2
  {
    if Child(d1, n1) == Child(d2, n2) {
      assert d1.parts == Child(d1, n1).parts[..|d1.parts|];
      assert d2.parts == Child(d2, n2).parts[..|d2.parts|];
    }
  }

  /** A '/' inside the divided string makes extra components, so the parent is not the directory. */
  lemma SlashMakesSubdirectory(dir: Path, a: string, b: string)
    requires IsComponent(a) && IsComponent(b)
    ensures Divide(dir, a + "/" + b) == Path(dir.absolute, dir.parts + [a, b])
    ensures Parent(Divide(dir, a + "/" + b)) != dir
  {
    Text.SplitJoin([a, b], '/');
    assert Text.Join([a, b], "/") == a + "/" + b by {
      assert [a, b][1..] == [b];
    }
    CleanKeepsComponents([a, b]);
    assert |Parent(Divide(dir, a + "/" + b)).parts| == |dir.parts| + 1;
  }

  lemma {:induction false} LastIndexOfAppend(a: string, b: string, c: char)
    requires |b| >= 1 && b[0] == c && c !in b[1..]
    ensures LastIndexOf(a + b, c) == Some(|a|)
    decreases |b|
  {
    var s := a + b;
    if |b| == 1 {
      assert s[|s| - 1] == c;
    } else {
      assert s[|s| - 1] == b[|b| - 1] && b[|b| - 1] in b[1..];
      assert s[..|s| - 1] == a + b[..|b| - 1];
      assert b[..|b| - 1][1..] == b[1..|b| - 1];
      assert forall x :: x in b[1..|b| - 1] ==> x in b[1..];
      LastIndexOfAppend(a, b[..|b| - 1], c);
    }
  }

  /**
   * After `with_suffix(s)`, for a suffix with a single leading dot, the new name
   * has exactly that suffix and keeps the old stem: replacing again changes nothing.
   */
  lemma WithSuffixReplaces(p: Path, suffix: string)
    requires Name(p) != ""
    requires |suffix| >= 2 && suffix[0] == '.' && '.' !in suffix[1..] && '/' !in suffix
    ensures WithSuffix(p, suffix).Some?
    ensures Parent(WithSuffix(p, suffix).value) == Parent(p)
    ensures Name(WithSuffix(p, suffix).value) == Stem(Name(p)) + suffix
    ensures Suffix(Name(WithSuffix(p, suffix).value)) == suffix
    ensures Stem(Name(WithSuffix(p, suffix).value)) == Stem(Name(p))
    ensures WithSuffix(WithSuffix(p, suffix).value, suffix) == WithSuffix(p, suffix)
  {
    var stem := Stem(Name(p));
    StemNonEmpty(Name(p));
    LastIndexOfAppend(stem, suffix, '.');
    var q := WithSuffix(p, suffix).value;
    var n := |p.parts|;
    assert q.parts[..n - 1] == p.parts[..n - 1];
    assert (stem + suffix)[|stem|..] == suffix;
    assert (stem + suffix)[..|stem|] == stem;
  }

  lemma {:induction false} JoinAppendLast(xs: seq<string>, sep: string, t: string)
    requires |xs| >= 1
    ensures Text.Join(xs, sep) + t == Text.Join(xs[..|xs| - 1] + [xs[|xs| - 1] + t], sep)
  {
    var ys := xs[..|xs| - 1] + [xs[|xs| - 1] + t];
    if |xs| > 1 {
      JoinAppendLast(xs[1..], sep, t);
      assert ys[1..] == xs[1..][..|xs[1..]| - 1] + [xs[1..][|xs[1..]| - 1] + t];
      assert ys[0] == xs[0];
    }
  }

  lemma {:induction false} JoinHead(xs: seq<string>, sep: string)
    requires |xs| >= 1 && xs[0] != ""
    ensures |Text.Join(xs, sep)| > 0 && Text.Join(xs, sep)[0] == xs[0][0]
  {
  }

  lemma ComponentsOfJoin(ys: seq<string>)
    requires |ys| >= 1 && forall i :: 0 <= i < |ys| ==> IsComponent(ys[i])
    ensures Components(Text.Join(ys, "/")) == ys
    ensures Components("/" + Text.Join(ys, "/")) == ys
  {
    var j := Text.Join(ys, "/");
    Text.SplitJoin(ys, '/');
    CleanKeepsComponents(ys);
    var s := "/" + j;
    assert s[1..] == j;
    assert Text.Split(s, '/') == [""] + ys;
    assert ([""] + ys)[1..] == ys;
  }

  lemma AppendedParts(p: Path, ext: string)
    requires WellFormed(p) && |p.parts| >= 1
    requires ext != "" && '/' !in ext
    ensures var ys := p.parts[..|p.parts| - 1] + [Name(p) + ext];
      && (forall i :: 0 <= i < |ys| ==> IsComponent(ys[i]))
      && Text.Join(p.parts, "/") + ext == Text.Join(ys, "/")
      && Text.Join(ys, "/")[0] != '/'
  {
    var n := |p.parts|;
    var ys := p.parts[..n - 1] + [p.parts[n - 1] + ext];
    JoinAppendLast(p.parts, "/", ext);
    forall i | 0 <= i < |ys| ensures IsComponent(ys[i]) {
      if i < n - 1 { assert ys[i] == p.parts[i]; }
    }
    JoinHead(ys, "/");
    assert ys[0][0] in ys[0];
  }

  /**
   * `Path(f"{p}{ext}")` for a path with at least one component lies in the same
   * directory and its name is the old name followed by `ext`.
   */
  lemma AppendedExtension(p: Path, ext: string)
    requires WellFormed(p) && |p.parts| >= 1
    requires ext != "" && '/' !in ext
    ensures FromString(ToString(p) + ext) == Path(p.absolute, p.parts[..|p.parts| - 1] + [Name(p) + ext])
    ensures Parent(FromString(ToString(p) + ext)) == Parent(p)
    ensures Name(FromString(ToString(p) + ext)) == Name(p) + ext
  {
    var n := |p.parts|;
    var ys := p.parts[..n - 1] + [Name(p) + ext];
    AppendedParts(p, ext);
    ComponentsOfJoin(ys);
    var j := Text.Join(ys, "/");
    if p.absolute {
      assert ToString(p) + ext == "/" + j;
    } else {
      assert ToString(p) + ext == j;
    }
    assert ys[..n - 1] == p.parts[..n - 1];
  }

  /** The final suffix is the one `with_suffix` replaces, so a dot inside a title starts a "suffix". */
  lemma DotInNameIsSuffix()
    ensures Stem("Mr. Smith") == "Mr"
    ensures WithSuffix(Path(false, ["Mr. Smith"]), ".md") == Some(Path(false, ["Mr.md"]))
  {
    assert LastIndexOf("Mr. Smith", '.') == Some(2);
    assert "Mr. Smith"[..2] == "Mr";
    assert Name(Path(false, ["Mr. Smith"])) == "Mr. Smith";
    assert "Mr" + ".md" == "Mr.md";
    assert ".md"[0] == '.' && '/' !in ".md";
    assert ValidSuffix(".md");
    var q := Path(false, ["Mr. Smith"]);
    assert q.parts[..|q.parts| - 1] + ["Mr" + ".md"] == ["Mr.md"];
  }
}
