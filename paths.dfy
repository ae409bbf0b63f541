/** POSIX `path.resolve` as segment normalisation, and the workspace containment test
    shared by the shell and file tools. A resolved path is a list of segments; its string
    form is `/` followed by the segments joined with `/`. */
module Paths {
  import opened JsText

  type Segments = seq<string>

  /** A segment that survives normalisation. */
  predicate IsName(seg: string) {
    seg != "" && seg != "." && seg != ".." && '/' !in seg
  }

  predicate Normal(p: Segments) {
    forall k :: 0 <= k < |p| ==> IsName(p[k])
  }

  predicate IsPrefix(a: Segments, b: Segments) {
    |a| <= |b| && b[..|a|] == a
  }

  /** `s.split('/')`. */
  function Split(s: string): (parts: seq<string>)
    ensures |parts| >= 1
    ensures forall k :: 0 <= k < |parts| ==> '/' !in parts[k]
    decreases |s|
  {
    if s == [] then [""]
    else if s[0] == '/' then [""] + Split(s[1..])
    else
      var rest := Split(s[1..]);
      [[s[0]] + rest[0]] + rest[1..]
  }

  /** `parts.join('/')`. */
  function Join(parts: seq<string>): string
    decreases |parts|
  {
    if parts == [] then "" else if |parts| == 1 then parts[0] else parts[0] + "/" + Join(parts[1..])
  }

  /** Splitting on '/' loses nothing: joining the parts back gives the string. */
  lemma {:induction false} SplitJoin(s: string)
    ensures Join(Split(s)) == s
    decreases |s|
  {
    if s == [] {
    } else if s[0] == '/' {
      SplitJoin(s[1..]);
      assert Split(s)[1..] == Split(s[1..]);
      assert s == "" + "/" + s[1..];
    } else {
      SplitJoin(s[1..]);
      var rest := Split(s[1..]);
      var parts := Split(s);
      assert parts[0] == [s[0]] + rest[0];
      if |rest| == 1 {
        assert Join(rest) == rest[0];
      } else {
        assert parts[1..] == rest[1..];
        assert Join(rest) == rest[0] + "/" + Join(rest[1..]);
      }
    }
  }

  /** Node's normalisation of an absolute path: empty and `.` segments vanish, `..` drops
      the last segment and never climbs above `/`. */
  function Normalize(acc: Segments, parts: seq<string>): Segments
    decreases |parts|
  {
    if parts == [] then acc
    else
      var seg := parts[0];
      var next :=
        if seg == "" || seg == "." then acc
        else if seg == ".." then (if acc == [] then [] else acc[..|acc| - 1])
        else acc + [seg];
      Normalize(next, parts[1..])
  }

  /** `path.resolve(base, input)` for an already resolved `base`. */
  function Resolve(base: Segments, input: string): Segments {
    if input != [] && input[0] == '/' then Normalize([], Split(input))
    else Normalize(base, Split(input))
  }

  function Slashed(p: Segments): string {
    if p == [] then "" else "/" + p[0] + Slashed(p[1..])
  }

  /** The string form of a resolved path. */
  function Format(p: Segments): (s: string)
    ensures s != [] && s[0] == '/'
  {
    if p == [] then "/" else Slashed(p)
  }

  /** `full === root || full.startsWith(root + path.sep)`, POSIX separator. */
  predicate Inside(root: string, full: string) {
    full == root || StartsWith(full, root + "/")
  }

  /** `path.dirname` of a resolved path. */
  function Parent(p: Segments): (q: Segments)
    ensures IsPrefix(q, p)
  {
    if p == [] then [] else p[..|p| - 1]
  }

  lemma {:induction false} NormalizeIsNormal(acc: Segments, parts: seq<string>)
    requires Normal(acc)
    requires forall k :: 0 <= k < |parts| ==> '/' !in parts[k]
    ensures Normal(Normalize(acc, parts))
    decreases |parts|
  {
    if parts != [] {
      var seg := parts[0];
      var next :=
        if seg == "" || seg == "." then acc
        else if seg == ".." then (if acc == [] then [] else acc[..|acc| - 1])
        else acc + [seg];
      assert Normal(next);
      NormalizeIsNormal(next, parts[1..]);
    }
  }

  /** Every resolved path is normal. */
  lemma ResolveIsNormal(base: Segments, input: string)
    requires Normal(base)
    ensures Normal(Resolve(base, input))
  {
    NormalizeIsNormal(base, Split(input));
    NormalizeIsNormal([], Split(input));
  }

  /** Without `..` segments, normalisation only appends to what it started from. */
  lemma {:induction false} NormalizeExtends(acc: Segments, parts: seq<string>)
    requires forall k :: 0 <= k < |parts| ==> parts[k] != ".."
    ensures IsPrefix(acc, Normalize(acc, parts))
    decreases |parts|
  {
    if parts != [] {
      var seg := parts[0];
      var next := if seg == "" || seg == "." then acc else acc + [seg];
      NormalizeExtends(next, parts[1..]);
      var r := Normalize(next, parts[1..]);
      assert r[..|acc|] == r[..|next|][..|acc|];
    }
  }

  lemma {:induction false} SlashedAppend(a: Segments, b: Segments)
    ensures Slashed(a + b) == Slashed(a) + Slashed(b)
    decreases |a|
  {
    if a != [] {
      assert (a + b)[0] == a[0];
      assert (a + b)[1..] == a[1..] + b;
      SlashedAppend(a[1..], b);
      assert Slashed(a + b) == "/" + a[0] + Slashed(a[1..] + b);
      assert Slashed(a) == "/" + a[0] + Slashed(a[1..]);
      calc {
        Slashed(a + b);
        "/" + a[0] + Slashed(a[1..] + b);
        "/" + a[0] + (Slashed(a[1..]) + Slashed(b));
        ("/" + a[0] + Slashed(a[1..])) + Slashed(b);
      }
    } else {
      assert a + b == b;
    }
  }

  lemma {:induction false} SlashedLength(p: Segments)
    requires Normal(p)
    ensures p != [] ==> |Slashed(p)| >= 2 && Slashed(p)[1] != '/'
    decreases |p|
  {
    if p != [] {
      assert Slashed(p) == "/" + p[0] + Slashed(p[1..]);
      assert Slashed(p)[1] == p[0][0];
    }
  }

  /** `x` occurs in `y` at `at` and is followed there by `/` or the end of `y`. */
  predicate AtBoundary(x: string, y: string, at: nat) {
    at + |x| <= |y| && y[at..at + |x|] == x && (at + |x| == |y| || y[at + |x|] == '/')
  }

  lemma BoundaryPrepend(w: string, x: string, y: string)
    ensures AtBoundary(w + x, w + y, 0) <==> AtBoundary(x, y, 0)
  {
    if AtBoundary(x, y, 0) {
      assert (w + y)[..|w + x|] == w + y[..|x|];
      if |x| < |y| {
        assert (w + y)[|w + x|] == y[|x|];
      }
    }
    if AtBoundary(w + x, w + y, 0) {
      assert y[..|x|] == (w + y)[|w|..|w + x|];
      assert (w + x)[|w|..] == x;
      if |x| < |y| {
        assert (w + y)[|w + x|] == y[|x|];
      }
    }
  }

  lemma NameBoundary(a: string, b: string, rest: string, tail: string)
    requires '/' !in a && '/' !in b && a != [] && b != []
    requires rest == [] || rest[0] == '/'
    requires tail == [] || tail[0] == '/'
    requires AtBoundary(a + rest, b + tail, 0) || (|rest| == 0 && AtBoundary(a, b + tail, 0))
    ensures a == b
  {
    var y := b + tail;
    assert (a + rest)[..|a|] == a;
    assert y[..|b|] == b;
    if |a| == |b| {
      assert y[..|a|] == b;
    }
  }

  /** The string test sees a segment boundary: the slashed form of `f` begins with that of
      `r`, at a `/` or at its end, exactly when `r` is a prefix of `f`. */
  lemma {:induction false} BoundaryPrefix(r: Segments, f: Segments)
    requires Normal(r) && Normal(f)
    ensures AtBoundary(Slashed(r), Slashed(f), 0) <==> IsPrefix(r, f)
    decreases |r|
  {
    if r == [] {
      SlashedLength(f);
      assert Slashed(f) == [] || Slashed(f)[0] == '/';
    } else if f == [] {
      SlashedLength(r);
    } else {
      var sr, sf := Slashed(r[1..]), Slashed(f[1..]);
      assert Slashed(r) == "/" + r[0] + sr;
      assert Slashed(f) == "/" + f[0] + sf;
      SlashedLength(r[1..]);
      SlashedLength(f[1..]);
      assert sr == [] || sr[0] == '/';
      assert sf == [] || sf[0] == '/';
      BoundaryPrefix(r[1..], f[1..]);
      assert Slashed(r) == "/" + (r[0] + sr);
      assert Slashed(f) == "/" + (f[0] + sf);
      BoundaryPrepend("/", r[0] + sr, f[0] + sf);
      if AtBoundary(Slashed(r), Slashed(f), 0) {
        assert AtBoundary(r[0] + sr, f[0] + sf, 0);
        NameBoundary(r[0], f[0], sr, sf);
        BoundaryPrepend(r[0], sr, sf);
        assert AtBoundary(sr, sf, 0);
        assert IsPrefix(r[1..], f[1..]);
        assert f[..|r|] == [f[0]] + f[1..][..|r| - 1];
      }
      if IsPrefix(r, f) {
        assert r[0] == f[0];
        assert f[1..][..|r| - 1] == f[..|r|][1..];
        assert IsPrefix(r[1..], f[1..]);
        assert AtBoundary(sr, sf, 0);
        BoundaryPrepend(r[0], sr, sf);
      }
    }
  }

  /** The containment test on strings is exactly "root is a leading part of the path";
      when the root is `/` itself, only `/` passes, because `//` starts no resolved path. */
  lemma InsideIffPrefix(root: Segments, full: Segments)
    requires Normal(root) && Normal(full)
    ensures Inside(Format(root), Format(full)) <==> IsPrefix(root, full) && (root == [] ==> full == [])
  {
    SlashedLength(full);
    if root == [] {
      if full != [] {
        assert Format(full)[1] != '/';
        assert !StartsWith(Format(full), "//");
      }
    } else {
      var x, y := Slashed(root), Format(full);
      SlashedLength(root);
      if full == [] {
        assert y == "/";
        assert |x| >= 2;
      } else {
        BoundaryPrefix(root, full);
        assert Inside(x, y) <==> AtBoundary(x, y, 0) by {
          if StartsWith(y, x + "/") {
            assert y[..|x|] == (x + "/")[..|x|];
            assert y[|x|] == (x + "/")[|x|];
          }
          if AtBoundary(x, y, 0) && y != x {
            assert y[..|x| + 1] == x + "/";
          }
        }
      }
    }
  }

  /** A sibling whose name merely starts with the root's name is rejected. */
  lemma SiblingRejected(root: string, x: string)
    requires x != [] && x[0] != '/'
    ensures !Inside(root, root + x)
  {
    assert (root + x)[|root|] == x[0];
    assert (root + "/")[|root|] == '/';
    assert (root + x)[..|root| + 1][|root|] == x[0];
  }

  /** A relative input without `..` segments always stays inside the base. */
  lemma RelativeStaysInside(base: Segments, input: string)
    requires Normal(base) && base != []
    requires !(input != [] && input[0] == '/')
    requires forall k :: 0 <= k < |Split(input)| ==> Split(input)[k] != ".."
    ensures Inside(Format(base), Format(Resolve(base, input)))
  {
    NormalizeExtends(base, Split(input));
    ResolveIsNormal(base, input);
    InsideIffPrefix(base, Resolve(base, input));
  }

  /** `..` from a root other than `/` leaves it. */
  lemma ParentEscapes(base: Segments)
    requires Normal(base) && base != []
    ensures Resolve(base, "..") == Parent(base)
    ensures !Inside(Format(base), Format(Resolve(base, "..")))
  {
    var one, two := ".", "..";
    assert one[1..] == "" && two[1..] == one && one[0] == '.' && two[0] == '.';
    assert Split("") == [""];
    var e := Split("");
    assert e[0] == "" && e[1..] == [];
    assert ['.'] + e[0] == one;
    assert Split(one) == [['.'] + e[0]] + e[1..];
    assert Split(one) == [one];
    var o := Split(one);
    assert o[0] == one && o[1..] == [];
    assert ['.'] + o[0] == two;
    assert Split(two) == [['.'] + o[0]] + o[1..];
    assert Split(two) == [two];
    var none: seq<string> := [];
    assert [two][1..] == none;
    assert Resolve(base, two) == Normalize(base, [two]) == Normalize(Parent(base), []);
    InsideIffPrefix(base, Parent(base));
  }
}
