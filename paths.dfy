/**
 * The three functions of Node's `path.posix` that the stager calls: `normalize` (through `join`),
 * `join` and `dirname`, written after Node's algorithms.
 */
module Paths {
  import opened Strings

  /** A path segment that normalization keeps as it is. */
  predicate PlainSegment(s: string) {
    s != "" && '/' !in s && s != "." && s != ".."
  }

  /**
   * Node's `normalizeString`: empty and "." segments vanish, ".." drops the last kept segment;
   * a ".." that has nothing to drop is kept for a relative path and discarded for an absolute one.
   */
  function Resolve(segs: seq<string>, kept: seq<string>, allowAboveRoot: bool): seq<string>
    decreases |segs|
  {
    if segs == [] then kept
    else if segs[0] == "" || segs[0] == "." then Resolve(segs[1..], kept, allowAboveRoot)
    else if segs[0] == ".." then
      if kept != [] && kept[|kept| - 1] != ".." then Resolve(segs[1..], kept[..|kept| - 1], allowAboveRoot)
      else if allowAboveRoot then Resolve(segs[1..], kept + [".."], allowAboveRoot)
      else Resolve(segs[1..], kept, allowAboveRoot)
    else Resolve(segs[1..], kept + [segs[0]], allowAboveRoot)
  }

  /** `path.posix.normalize`. */
  function Normalize(p: string): (r: string)
    ensures r != ""
    ensures p != "" && p[0] == '/' ==> r[0] == '/'
  {
    if p == "" then "."
    else
      var isAbsolute := p[0] == '/';
      var trailing := p[|p| - 1] == '/';
      var body := Join(Resolve(Split(p, '/'), [], !isAbsolute), '/');
      if body == "" then (if isAbsolute then "/" else if trailing then "./" else ".")
      else (if isAbsolute then "/" else "") + body + (if trailing then "/" else "")
  }

  /** `path.posix.join(a, b)`: the non-empty arguments joined by '/', then normalized. */
  function PosixJoin(a: string, b: string): string {
    Normalize(if a == "" then b else if b == "" then a else a + "/" + b)
  }

  /** The scan of Node's `dirname`, from index `i` down to 1, skipping trailing slashes. */
  function DirEnd(p: string, i: int, matchedSlash: bool): (end: int)
    requires i < |p|
    ensures end == -1 || 1 <= end <= i
    decreases i
  {
    if i < 1 then -1
    else if p[i] == '/' then (if !matchedSlash then i else DirEnd(p, i - 1, true))
    else DirEnd(p, i - 1, false)
  }

  /** `path.posix.dirname`. */
  function Dirname(p: string): string {
    if p == "" then "."
    else
      var end := DirEnd(p, |p| - 1, true);
      if end == -1 then (if p[0] == '/' then "/" else ".")
      else if p[0] == '/' && end == 1 then "//"
      else p[..end]
  }

  lemma {:induction false} DirEndOverName(p: string, i: int, k: int, matchedSlash: bool)
    requires 1 <= k < i < |p| && p[k] == '/'
    requires forall j :: k < j <= i ==> p[j] != '/'
    ensures DirEnd(p, i, matchedSlash) == k
    decreases i
  {
    if i > k + 1 {
      DirEndOverName(p, i - 1, k, false);
    }
  }

  /** The directory of `dir/name` is `dir`, for a file name without '/'. */
  lemma DirnameOfChild(dir: string, name: string)
    requires |dir| >= 2 && name != "" && '/' !in name
    ensures Dirname(dir + "/" + name) == dir
  {
    var p := dir + "/" + name;
    forall j | |dir| < j <= |p| - 1
      ensures p[j] != '/'
    {
      assert p[j] == name[j - |dir| - 1];
    }
    DirEndOverName(p, |p| - 1, |dir|, true);
    assert p[..|dir|] == dir;
  }

  lemma {:induction false} ResolvePlain(segs: seq<string>, kept: seq<string>, allowAboveRoot: bool)
    requires forall i :: 0 <= i < |segs| ==> PlainSegment(segs[i])
    ensures Resolve(segs, kept, allowAboveRoot) == kept + segs
    decreases |segs|
  {
    if segs != [] {
      assert PlainSegment(segs[0]);
      ResolvePlain(segs[1..], kept + [segs[0]], allowAboveRoot);
      assert kept + [segs[0]] + segs[1..] == kept + segs;
    }
  }

  lemma SplitEndsEmpty(p: string)
    requires p != [] && p[|p| - 1] == '/'
    ensures Split(p, '/')[|Split(p, '/')| - 1] == ""
  {
    var a := p[..|p| - 1];
    assert p == a + ['/'] + [];
    SplitAt(a, [], '/');
  }

  lemma SplitRooted(segs: seq<string>)
    requires |segs| >= 1
    requires forall i :: 0 <= i < |segs| ==> PlainSegment(segs[i])
    ensures Split("/" + Join(segs, '/'), '/') == [""] + segs
  {
    var body := Join(segs, '/');
    assert [] + ['/'] + body == "/" + body;
    SplitAt([], body, '/');
    assert forall q :: q in segs ==> '/' !in q;
    SplitJoin(segs, '/');
  }

  lemma NoTrailingSlash(p: string, segs: seq<string>)
    requires p != [] && Split(p, '/') == [""] + segs && |segs| >= 1 && segs[|segs| - 1] != ""
    ensures p[|p| - 1] != '/'
  {
    if p[|p| - 1] == '/' {
      SplitEndsEmpty(p);
    }
  }

  lemma NormalizeAbsolute(p: string, body: string)
    requires p != "" && p[0] == '/' && p[|p| - 1] != '/'
    requires body != "" && Join(Resolve(Split(p, '/'), [], false), '/') == body
    ensures Normalize(p) == "/" + body
  {
  }

  /** An absolute path made of plain segments is already normal. */
  lemma NormalizeCanonical(segs: seq<string>)
    requires |segs| >= 1
    requires forall i :: 0 <= i < |segs| ==> PlainSegment(segs[i])
    ensures Normalize("/" + Join(segs, '/')) == "/" + Join(segs, '/')
  {
    var body := Join(segs, '/');
    var p := "/" + body;
    SplitRooted(segs);
    var parts := Split(p, '/');
    assert parts[0] == "" && parts[1..] == segs;
    ResolvePlain(segs, [], false);
    assert Resolve(parts, [], false) == segs;
    assert body != "";
    assert PlainSegment(segs[|segs| - 1]);
    NoTrailingSlash(p, segs);
    NormalizeAbsolute(p, body);
  }
}
