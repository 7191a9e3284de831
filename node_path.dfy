/** Node's POSIX `path` functions as the git service uses them: isAbsolute,
    normalize, join, resolve and relative. A path is worked on as its list of
    segments between '/' separators; `..` removes the segment before it and
    empty and `.` segments vanish, as Node's normalizeString does. */
module NodePath {
  import opened JsRuntime

  /** path.isAbsolute: the path starts with '/'. */
  predicate IsAbsolute(p: string) {
    |p| > 0 && p[0] == '/'
  }

  /** A segment that normalisation keeps as it is. */
  predicate Plain(seg: string) {
    seg != "" && seg != "." && seg != ".." && '/' !in seg
  }

  predicate AllPlain(segs: seq<string>) {
    forall i :: 0 <= i < |segs| ==> Plain(segs[i])
  }

  /** Adds one segment to a normalised list: empty and `.` segments vanish,
      `..` removes the last segment, or is kept (relative paths) or dropped
      (at the root of an absolute path) when there is nothing to remove. */
  function Step(acc: seq<string>, seg: string, allowAboveRoot: bool): seq<string> {
    if seg == "" || seg == "." then acc
    else if seg == ".." then
      if acc != [] && acc[|acc| - 1] != ".." then acc[..|acc| - 1]
      else if allowAboveRoot then acc + [".."]
      else acc
    else acc + [seg]
  }

  /** Node's normalizeString: folds Step over the segments, left to right. */
  function NormalizeFrom(acc: seq<string>, segs: seq<string>, allowAboveRoot: bool): seq<string>
    decreases |segs|
  {
    if segs == [] then acc
    else NormalizeFrom(Step(acc, segs[0], allowAboveRoot), segs[1..], allowAboveRoot)
  }

  /** path.normalize. */
  function Normalize(p: string): string {
    if p == "" then "."
    else
      var absolute := IsAbsolute(p);
      var trailing := p[|p| - 1] == '/';
      var segs := NormalizeFrom([], Split(p, '/'), !absolute);
      if segs == [] then (if absolute then "/" else if trailing then "./" else ".")
      else (if absolute then "/" else "") + Join(segs, "/") + (if trailing then "/" else "")
  }

  /** path.join(dir, name): the non-empty arguments joined with '/' and
      normalised. */
  function JoinPath(dir: string, name: string): string {
    var parts := (if dir == "" then [] else [dir]) + (if name == "" then [] else [name]);
    if parts == [] then "." else Normalize(Join(parts, "/"))
  }

  /** The segments of `p` resolved against the directory whose segments are
      `base`: an absolute `p` ignores the base. */
  function ResolveFrom(base: seq<string>, p: string): seq<string> {
    if IsAbsolute(p) then NormalizeFrom([], Split(p, '/'), false)
    else NormalizeFrom(base, Split(p, '/'), false)
  }

  /** path.resolve(p), as segments of an absolute path, with `cwd` the
      process working directory (an absolute path). */
  function Resolve(cwd: string, p: string): seq<string> {
    ResolveFrom(NormalizeFrom([], Split(cwd, '/'), false), p)
  }

  /** The length of the longest common prefix of two lists. */
  function CommonPrefixLength(a: seq<string>, b: seq<string>): (k: nat)
    ensures k <= |a| && k <= |b| && a[..k] == b[..k]
    ensures k < |a| && k < |b| ==> a[k] != b[k]
  {
    if a != [] && b != [] && a[0] == b[0] then
      var k := 1 + CommonPrefixLength(a[1..], b[1..]);
      assert a[..k] == [a[0]] + a[1..][..k - 1];
      assert b[..k] == [b[0]] + b[1..][..k - 1];
      k
    else 0
  }

  function Dots(n: nat): seq<string> {
    seq(n, _ => "..")
  }

  /** path.relative(from, to): one `..` for every segment of `from` below
      the common ancestor, then the rest of `to`. */
  function Relative(cwd: string, from: string, to: string): string {
    var f := Resolve(cwd, from);
    var t := Resolve(cwd, to);
    var k := CommonPrefixLength(f, t);
    Join(Dots(|f| - k) + t[k..], "/")
  }

  lemma {:induction false} NormalizeConcat(acc: seq<string>, a: seq<string>, b: seq<string>, allow: bool)
    ensures NormalizeFrom(acc, a + b, allow) == NormalizeFrom(NormalizeFrom(acc, a, allow), b, allow)
    decreases |a|
  {
    if a == [] {
      assert a + b == b;
    } else {
      assert (a + b)[0] == a[0] && (a + b)[1..] == a[1..] + b;
      NormalizeConcat(Step(acc, a[0], allow), a[1..], b, allow);
    }
  }

  /** Normalising an absolute path never leaves an empty, `.` or `..`
      segment behind. */
  lemma {:induction false} NormalizePlain(acc: seq<string>, segs: seq<string>)
    requires AllPlain(acc)
    requires forall i :: 0 <= i < |segs| ==> '/' !in segs[i]
    ensures AllPlain(NormalizeFrom(acc, segs, false))
    decreases |segs|
  {
    if segs != [] {
      var next := Step(acc, segs[0], false);
      assert AllPlain(next) by {
        if segs[0] == ".." && acc != [] && acc[|acc| - 1] != ".." {
          assert forall i :: 0 <= i < |next| ==> next[i] == acc[i];
        }
      }
      NormalizePlain(next, segs[1..]);
    }
  }

  lemma {:induction false} NormalizeAppendPlain(acc: seq<string>, b: seq<string>, allow: bool)
    requires AllPlain(b)
    ensures NormalizeFrom(acc, b, allow) == acc + b
    decreases |b|
  {
    if b == [] {
      assert acc + b == acc;
    } else {
      NormalizeAppendPlain(acc + [b[0]], b[1..], allow);
      assert acc + [b[0]] + b[1..] == acc + b;
    }
  }

  lemma {:induction false} NormalizeDots(acc: seq<string>, n: nat)
    requires AllPlain(acc) && n <= |acc|
    ensures NormalizeFrom(acc, Dots(n), false) == acc[..|acc| - n]
  {
    if n == 0 {
      assert acc[..|acc|] == acc;
    } else {
      var rest := acc[..|acc| - 1];
      assert Dots(n)[0] == ".." && Dots(n)[1..] == Dots(n - 1);
      assert acc[|acc| - 1] != "..";
      NormalizeDots(rest, n - 1);
      assert rest[..|rest| - (n - 1)] == acc[..|acc| - n];
    }
  }

  lemma ResolvePlain(cwd: string, p: string)
    ensures AllPlain(Resolve(cwd, p))
  {
    NormalizePlain([], Split(cwd, '/'));
    NormalizePlain([], Split(p, '/'));
    NormalizePlain(NormalizeFrom([], Split(cwd, '/'), false), Split(p, '/'));
  }

  /** The first character of a join is that of its first piece. */
  lemma JoinStart(parts: seq<string>, sep: string)
    requires |parts| >= 1 && parts[0] != ""
    ensures Join(parts, sep) != [] && Join(parts, sep)[0] == parts[0][0]
  {
  }

  /** Walking up `|f| - k` levels from `f` reaches its prefix of length k. */
  lemma WalkUp(f: seq<string>, k: nat)
    requires AllPlain(f) && k <= |f|
    ensures NormalizeFrom(f, Dots(|f| - k), false) == f[..k]
  {
    var up := |f| - k;
    NormalizeDots(f, up);
    assert |f| - up == k;
  }

  /** Walking up from `f` to the common ancestor with `t` and then down
      along the rest of `t` arrives at `t`. */
  lemma WalkBack(f: seq<string>, t: seq<string>, k: nat)
    requires AllPlain(f) && AllPlain(t)
    requires k <= |f| && k <= |t| && f[..k] == t[..k]
    ensures NormalizeFrom(f, Dots(|f| - k) + t[k..], false) == t
  {
    var down := t[k..];
    PlainSuffix(t, k);
    NormalizeConcat(f, Dots(|f| - k), down, false);
    WalkUp(f, k);
    NormalizeAppendPlain(t[..k], down, false);
    assert t[..k] + down == t;
  }

  lemma PlainSuffix(t: seq<string>, k: nat)
    requires AllPlain(t) && k <= |t|
    ensures AllPlain(t[k..])
  {
    forall i | 0 <= i < |t| - k ensures Plain(t[k..][i]) { assert t[k..][i] == t[k + i]; }
  }

  /** The pieces path.relative joins contain no separator, and the first
      of them is not empty. */
  lemma RelativePieces(t: seq<string>, k: nat, d: nat)
    requires AllPlain(t) && k <= |t|
    ensures forall i :: 0 <= i < |Dots(d) + t[k..]| ==> '/' !in (Dots(d) + t[k..])[i]
    ensures Dots(d) + t[k..] != [] ==> (Dots(d) + t[k..])[0] != ""
  {
    var segs := Dots(d) + t[k..];
    forall i | 0 <= i < |segs| ensures '/' !in segs[i] && segs[i] != "" {
      if i < d { assert segs[i] == ".."; } else { assert segs[i] == t[k + (i - d)]; }
    }
  }

  /** What path.relative computes is a relative path that leads from `from`
      back to `to`: resolving it in the directory `from` names `to`. */
  lemma {:induction false} RelativeRoundTrip(cwd: string, from: string, to: string)
    ensures !IsAbsolute(Relative(cwd, from, to))
    ensures ResolveFrom(Resolve(cwd, from), Relative(cwd, from, to)) == Resolve(cwd, to)
  {
    var f := Resolve(cwd, from);
    var t := Resolve(cwd, to);
    ResolvePlain(cwd, from);
    ResolvePlain(cwd, to);
    var k := CommonPrefixLength(f, t);
    var segs := Dots(|f| - k) + t[k..];
    var rel := Join(segs, "/");
    assert rel == Relative(cwd, from, to);
    WalkBack(f, t, k);
    if segs == [] {
      assert rel == "";
      assert Split(rel, '/') == [""];
      assert NormalizeFrom(f, [""], false) == NormalizeFrom(f, [], false);
    } else {
      RelativePieces(t, k, |f| - k);
      JoinStart(segs, "/");
      SplitJoin(segs, '/');
    }
  }

  /** When `to` lies inside `from`, path.relative gives the segments below
      `from`, joined with '/'. */
  lemma {:induction false} RelativeInside(cwd: string, from: string, to: string, rest: seq<string>)
    requires Resolve(cwd, to) == Resolve(cwd, from) + rest
    ensures Relative(cwd, from, to) == Join(rest, "/")
  {
    var f := Resolve(cwd, from);
    var t := Resolve(cwd, to);
    var k := CommonPrefixLength(f, t);
    if k < |f| {
      assert false;
    }
    assert Dots(|f| - k) == [];
    assert t[k..] == rest;
    assert Dots(|f| - k) + t[k..] == rest;
  }
}
