/**
 * POSIX path strings as the sandbox handles them: joining a file name to a
 * directory, normalising an absolute path (collapsing separators, "." and
 * ".." segments), and the check that a path lies inside a base directory.
 */
module Paths {
  import PyText

  const Sep: string := "/"

  predicate NoSlash(s: string) {
    forall k :: 0 <= k < |s| ==> s[k] != '/'
  }

  /** A segment that normalisation keeps as it is: not empty, not "." or "..", no separator. */
  predicate IsPlain(s: string) {
    s != "" && s != "." && s != ".." && NoSlash(s)
  }

  predicate AllPlain(segments: seq<string>) {
    forall k :: 0 <= k < |segments| ==> IsPlain(segments[k])
  }

  predicate EndsWithSlash(s: string) {
    s != [] && s[|s| - 1] == '/'
  }

  /** os.path.join(base, name): an absolute name replaces the base; otherwise one separator between them. */
  function Join(base: string, name: string): (p: string)
    ensures PyText.StartsWith(base, Sep) ==> PyText.StartsWith(p, Sep)
  {
    if PyText.StartsWith(name, Sep) then name
    else if base == "" || EndsWithSlash(base) then base + name
    else base + Sep + name
  }

  function Segments(p: string): seq<string>
  {
    PyText.Split(p, Sep)
  }

  /** One segment of normalisation: skip empty and ".", go up on ".." (never above the root), keep the rest. */
  function Step(kept: seq<string>, segment: string): seq<string>
  {
    if segment == "" || segment == "." then kept
    else if segment == ".." then (if kept == [] then [] else kept[..|kept| - 1])
    else kept + [segment]
  }

  function Resolve(segments: seq<string>): seq<string>
  {
    if segments == [] then [] else Step(Resolve(segments[..|segments| - 1]), segments[|segments| - 1])
  }

  /** "/a/b/c" from ["a", "b", "c"]; the empty sequence gives "". */
  function RenderFrom(segments: seq<string>): string
  {
    if segments == [] then "" else RenderFrom(segments[..|segments| - 1]) + Sep + segments[|segments| - 1]
  }

  /** The absolute path of a segment sequence: the root for no segments. */
  function Render(segments: seq<string>): string
  {
    if segments == [] then Sep else RenderFrom(segments)
  }

  /** os.path.normpath of an absolute path. */
  function Normalize(p: string): string
  {
    Render(Resolve(Segments(p)))
  }

  /** os.path.abspath: relative paths are taken from the current directory, then normalised. */
  function Absolute(cwd: string, p: string): string
  {
    Normalize(Join(cwd, p))
  }

  /** The containment test of the sandbox as written: the base itself, or anything under base + "/". */
  function IsInsideAsWritten(path: string, base: string): bool
  {
    PyText.StartsWith(path, base + Sep) || path == base
  }

  /** The base with exactly one trailing separator. */
  function WithSlash(base: string): string
  {
    if EndsWithSlash(base) then base else base + Sep
  }

  /** The containment test as intended: the base itself, or anything under the base followed by one separator. */
  function IsInside(path: string, base: string): bool
  {
    PyText.StartsWith(path, WithSlash(base)) || path == base
  }

  // ----- splitting on the separator -----

  lemma SplitNoSlash(s: string)
    requires NoSlash(s)
    ensures Segments(s) == [s]
  {
    forall j | 0 <= j
      ensures !PyText.OccursAt(s, Sep, j)
    {
      PyText.OccursAtChar(s, '/', j);
    }
  }

  /** Splitting around one separator splits each side on its own. */
  lemma {:induction false} SplitAroundSlash(a: string, b: string)
    decreases |a|
    ensures Segments(a + Sep + b) == Segments(a) + Segments(b)
  {
    var i := PyText.Find(a, Sep, 0);
    if i >= 0 {
      SplitAfterFirstSlash(a, b);
      assert Segments(a) == [a[..i]] + Segments(a[i + 1..]);
      SplitAroundSlash(a[i + 1..], b);
    } else {
      SplitAtOnlySlash(a, b);
    }
  }

  /** When `a` holds a separator, the split of a + "/" + b starts like that of `a`. */
  lemma SplitAfterFirstSlash(a: string, b: string)
    requires PyText.Find(a, Sep, 0) >= 0
    ensures var i := PyText.Find(a, Sep, 0);
      Segments(a + Sep + b) == [a[..i]] + Segments(a[i + 1..] + Sep + b)
  {
    var s := a + Sep + b;
    var i := PyText.Find(a, Sep, 0);
    assert a + (Sep + b) == s;
    PyText.FindInPrefix(a, Sep + b, Sep);
    assert PyText.Find(s, Sep, 0) == i;
    var rest := s[i + 1..];
    assert rest == a[i + 1..] + Sep + b;
    assert Segments(s) == [s[..i]] + Segments(rest);
    assert s[..i] == a[..i];
  }

  /** When `a` holds no separator, a + "/" + b splits into `a` and the split of `b`. */
  lemma SplitAtOnlySlash(a: string, b: string)
    requires PyText.Find(a, Sep, 0) < 0
    ensures Segments(a + Sep + b) == Segments(a) + Segments(b)
  {
    var s := a + Sep + b;
    assert s[|a|..|a| + 1] == Sep;
    assert s == a + (Sep + b);
    forall j | 0 <= j < |a|
      ensures !PyText.OccursAt(s, Sep, j)
    {
      PyText.OccursInPrefix(a, Sep + b, Sep, j);
    }
    PyText.FindFirst(s, Sep, |a|);
    assert s[..|a|] == a;
    assert s[|a| + 1..] == b;
  }

  /** A prefix where no separator occurs holds none. */
  lemma NoSlashBefore(p: string, n: int)
    requires 0 <= n <= |p|
    requires forall j :: 0 <= j < n ==> !PyText.OccursAt(p, Sep, j)
    ensures NoSlash(p[..n])
  {
    forall j | 0 <= j < n
      ensures p[..n][j] != '/'
    {
      PyText.OccursAtChar(p, '/', j);
    }
  }

  /** Prepending a part without a separator keeps every part without one. */
  lemma NoSlashCons(head: string, tail: seq<string>)
    requires NoSlash(head)
    requires forall k :: 0 <= k < |tail| ==> NoSlash(tail[k])
    ensures forall k :: 0 <= k < |[head] + tail| ==> NoSlash(([head] + tail)[k])
  {
  }

  /** The text before the first separator, or all of it when there is none, holds no separator. */
  lemma HeadNoSlash(p: string, i: int)
    requires i == PyText.Find(p, Sep, 0)
    ensures i >= 0 ==> i <= |p| && NoSlash(p[..i])
    ensures i < 0 ==> NoSlash(p)
  {
    if i >= 0 {
      NoSlashBefore(p, i);
    } else {
      NoSlashBefore(p, |p|);
      assert p[..|p|] == p;
    }
  }

  /** The first split step: either no separator (one part) or a separator-free head before it. */
  lemma SegmentsUnfold(p: string) returns (i: int)
    ensures i == -1 || 0 <= i < |p|
    ensures i == -1 ==> Segments(p) == [p] && NoSlash(p)
    ensures i >= 0 ==> Segments(p) == [p[..i]] + Segments(p[i + 1..]) && NoSlash(p[..i])
  {
    i := PyText.Find(p, Sep, 0);
    HeadNoSlash(p, i);
  }

  /** No part of a split on the separator holds the separator. */
  lemma {:induction false} SegmentsHaveNoSlash(p: string)
    decreases |p|
    ensures forall k :: 0 <= k < |Segments(p)| ==> NoSlash(Segments(p)[k])
  {
    var i := SegmentsUnfold(p);
    if i >= 0 {
      var rest := p[i + 1..];
      SegmentsHaveNoSlash(rest);
      NoSlashCons(p[..i], Segments(rest));
    }
  }

  // ----- the normal form -----

  lemma {:induction false} ResolveIsPlain(segments: seq<string>)
    requires forall k :: 0 <= k < |segments| ==> NoSlash(segments[k])
    ensures AllPlain(Resolve(segments))
  {
    if segments != [] {
      ResolveIsPlain(segments[..|segments| - 1]);
    }
  }

  lemma {:induction false} SegmentsOfRender(segments: seq<string>)
    requires AllPlain(segments)
    ensures Segments(RenderFrom(segments)) == [""] + segments
  {
    if segments == [] {
      assert PyText.Find("", Sep, 0) == -1;
    } else {
      var init, last := segments[..|segments| - 1], segments[|segments| - 1];
      SegmentsOfRender(init);
      SplitAroundSlash(RenderFrom(init), last);
      SplitNoSlash(last);
      assert segments == init + [last];
    }
  }

  lemma {:induction false} ResolveAfterRoot(segments: seq<string>)
    requires AllPlain(segments)
    ensures Resolve([""] + segments) == segments
  {
    if segments == [] {
      assert Resolve([""]) == Step(Resolve([]), "");
    } else {
      var init := segments[..|segments| - 1];
      ResolveAfterRoot(init);
      assert ([""] + segments)[..|segments|] == [""] + init;
      assert segments == init + [segments[|segments| - 1]];
    }
  }

  /** A rendered sequence of plain segments is already normal. */
  lemma NormalizeRender(segments: seq<string>)
    requires AllPlain(segments)
    ensures Normalize(Render(segments)) == Render(segments)
  {
    if segments == [] {
      SplitAroundSlash("", "");
      assert Segments("") == [""] by {
        assert PyText.Find("", Sep, 0) == -1;
      }
      assert Sep == "" + Sep + "";
      assert Resolve(["", ""]) == Step(Resolve([""]), "");
      assert Resolve([""]) == Step(Resolve([]), "");
    } else {
      SegmentsOfRender(segments);
      ResolveAfterRoot(segments);
    }
  }

  /** Normalising twice is normalising once. */
  lemma NormalizeIdempotent(p: string)
    ensures Normalize(Normalize(p)) == Normalize(p)
  {
    SegmentsHaveNoSlash(p);
    ResolveIsPlain(Segments(p));
    NormalizeRender(Resolve(Segments(p)));
  }

  /** A normal path is the rendering of its plain segments. */
  lemma NormalIsRendered(base: string)
    requires Normalize(base) == base
    ensures AllPlain(Resolve(Segments(base))) && base == Render(Resolve(Segments(base)))
  {
    SegmentsHaveNoSlash(base);
    ResolveIsPlain(Segments(base));
  }

  /** Normalisation always yields an absolute path. */
  lemma NormalizeStartsAtRoot(p: string)
    ensures PyText.StartsWith(Normalize(p), Sep)
  {
    SegmentsHaveNoSlash(p);
    ResolveIsPlain(Segments(p));
    if Resolve(Segments(p)) != [] {
      RenderFromShape(Resolve(Segments(p)));
    }
  }

  /** An absolute normal path is its own absolute form, whatever the current directory. */
  lemma AbsoluteOfNormal(cwd: string, p: string)
    requires PyText.StartsWith(p, Sep) && Normalize(p) == p
    ensures Absolute(cwd, p) == p
  {
  }

  lemma {:induction false} RenderFromShape(segments: seq<string>)
    requires AllPlain(segments) && segments != []
    ensures PyText.StartsWith(RenderFrom(segments), Sep) && !EndsWithSlash(RenderFrom(segments))
    ensures |RenderFrom(segments)| > |RenderFrom(segments[..|segments| - 1])|
  {
    var init, last := segments[..|segments| - 1], segments[|segments| - 1];
    if init != [] {
      RenderFromShape(init);
    }
    assert last[|last| - 1] != '/';
  }

  /** Joining a plain name to a normal directory adds it as one more segment. */
  lemma JoinRender(segments: seq<string>, name: string)
    requires AllPlain(segments) && IsPlain(name)
    ensures Join(Render(segments), name) == Render(segments + [name])
  {
    var longer := segments + [name];
    assert longer[..|segments|] == segments && longer[|segments|] == name;
    assert !PyText.StartsWith(name, Sep) by {
      assert name[0] != '/';
    }
    assert Render(longer) == RenderFrom(segments) + Sep + name;
    if segments != [] {
      RenderFromShape(segments);
    } else {
      assert Render(segments) == Sep;
    }
  }

  /**
   * A plain file name joined to a normal directory is already normal and
   * lies inside the directory.
   */
  lemma JoinPlainIsInside(base: string, name: string)
    requires Normalize(base) == base && IsPlain(name)
    ensures Normalize(Join(base, name)) == Join(base, name)
    ensures IsInside(Join(base, name), base)
  {
    NormalIsRendered(base);
    var segments := Resolve(Segments(base));
    JoinRender(segments, name);
    assert (segments + [name])[..|segments|] == segments;
    NormalizeRender(segments + [name]);
    if segments != [] {
      RenderFromShape(segments);
    }
  }

  /** Going up from a normal directory other than the root drops its last segment. */
  lemma ParentDropsLast(base: string)
    requires Normalize(base) == base && base != Sep
    ensures Resolve(Segments(base)) != []
    ensures Absolute(base, "..") == Render(Resolve(Segments(base))[..|Resolve(Segments(base))| - 1])
  {
    NormalIsRendered(base);
    RenderFromShape(Resolve(Segments(base)));
    SplitAroundSlash(base, "..");
    SplitNoSlash("..");
    assert Join(base, "..") == base + Sep + "..";
    assert (Segments(base) + [".."])[..|Segments(base)|] == Segments(base);
  }

  /** Going up from a normal directory other than the root leaves it. */
  lemma ParentIsOutside(base: string)
    requires Normalize(base) == base && base != Sep
    ensures !IsInside(Absolute(base, ".."), base)
  {
    ParentDropsLast(base);
    NormalIsRendered(base);
    var segments := Resolve(Segments(base));
    var init := segments[..|segments| - 1];
    RenderFromShape(segments);
    if init != [] {
      RenderFromShape(init);
    }
    assert |Render(init)| < |base|;
  }

  /** A normal path other than the root does not end in a separator. */
  lemma NormalEndsWithoutSlash(p: string)
    ensures Normalize(p) == p && p != Sep ==> !EndsWithSlash(p)
  {
    if Normalize(p) == p && p != Sep {
      NormalIsRendered(p);
      RenderFromShape(Resolve(Segments(p)));
    }
  }

  /** Away from the root, the containment test as written is the intended one. */
  lemma AsWrittenAgreesBelowRoot(path: string, base: string)
    requires !EndsWithSlash(base)
    ensures IsInsideAsWritten(path, base) == IsInside(path, base)
  {
  }

  /**
   * With the root as base directory, the test as written asks for the prefix
   * "//" and so rejects every file in it, though each is inside the root.
   */
  lemma RootRejectsEveryFile(name: string)
    requires IsPlain(name)
    ensures Normalize(Join(Sep, name)) == Join(Sep, name)
    ensures !IsInsideAsWritten(Join(Sep, name), Sep)
    ensures IsInside(Join(Sep, name), Sep)
  {
    NormalizeRender([]);
    JoinPlainIsInside(Sep, name);
    assert name[0] != '/';
    assert Join(Sep, name)[1] == name[0];
  }
}
