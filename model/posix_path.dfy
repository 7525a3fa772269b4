/**
  * POSIX paths as Node's `path` module treats them. A path is the list of its
  * '/'-separated segments: `path.join` concatenates segment lists, and
  * `path.resolve` of an absolute path normalises it ('' and '.' are dropped,
  * '..' removes the segment before it and stops at the root).
  */
module PosixPath {
  import opened Text

  type Segments = seq<string>

  /** The segments of a path string. */
  function SegmentsOf(p: string): Segments {
    Split(p, '/')
  }

  /** A normalised path: no empty, '.' or '..' segment. */
  predicate Clean(p: Segments) {
    forall i :: 0 <= i < |p| ==> p[i] != "" && p[i] != "." && p[i] != ".."
  }

  function Step(acc: Segments, s: string): Segments {
    if s == "" || s == "." then acc
    else if s == ".." then (if acc == [] then [] else acc[..|acc| - 1])
    else acc + [s]
  }

  /** `path.resolve` of the absolute path made of `p`. */
  function Normalize(p: Segments): (r: Segments)
    ensures Clean(r)
  {
    if p == [] then []
    else
      var acc := Normalize(p[..|p| - 1]);
      assert Clean(Step(acc, p[|p| - 1])) by {
        if p[|p| - 1] == ".." && acc != [] {
          assert forall i :: 0 <= i < |acc| - 1 ==> acc[..|acc| - 1][i] == acc[i];
        }
      }
      Step(acc, p[|p| - 1])
  }

  /** The absolute path written out: "/a/b", or "/" for the root. */
  function Render(p: Segments): string {
    "/" + Join("/", p)
  }

  lemma NormalizeNext(p: Segments, i: nat)
    requires i < |p|
    ensures Normalize(p[..i + 1]) == Step(Normalize(p[..i]), p[i])
  {
    assert p[..i + 1][..i] == p[..i];
  }

  /** A normalised path normalises to itself. */
  lemma {:induction false} NormalizeClean(p: Segments)
    requires Clean(p)
    ensures Normalize(p) == p
  {
    if p != [] {
      NormalizeClean(p[..|p| - 1]);
      assert p == p[..|p| - 1] + [p[|p| - 1]];
    }
  }

  /** Normalising twice is normalising once. */
  lemma NormalizeIdempotent(p: Segments)
    ensures Normalize(Normalize(p)) == Normalize(p)
  {
    NormalizeClean(Normalize(p));
  }

  /** Appending segments none of which is '..' never climbs above a normalised `root`. */
  lemma {:induction false} NormalizeKeepsRoot(root: Segments, x: Segments)
    requires Clean(root)
    requires forall i :: 0 <= i < |x| ==> x[i] != ".."
    ensures root <= Normalize(root + x)
  {
    if x == [] {
      assert root + x == root;
      NormalizeClean(root);
    } else {
      var front := x[..|x| - 1];
      NormalizeKeepsRoot(root, front);
      assert (root + x)[..|root + x| - 1] == root + front;
    }
  }

  /** A path under `root`, written out, starts with `root` written out. */
  lemma {:induction false} RenderPrefix(root: Segments, p: Segments)
    requires root <= p
    ensures StartsWith(Render(p), Render(root))
  {
    if root == [] {
    } else if p != root {
      var front := p[..|p| - 1];
      assert root <= front;
      RenderPrefix(root, front);
      assert p == front + [p[|p| - 1]];
      JoinLast("/", front, p[|p| - 1]);
    }
  }

  /** A name without '/' is one segment. */
  lemma SegmentsOfName(name: string)
    requires '/' !in name
    ensures SegmentsOf(name) == [name]
  {
  }

  /** `a/b` with neither holding '/' is the two segments `a` and `b`. */
  lemma SegmentsOfPair(a: string, b: string)
    requires '/' !in a && '/' !in b
    ensures SegmentsOf(a + "/" + b) == [a, b]
  {
    var s := a + "/" + b;
    assert IndexOf(s, '/') == |a| by {
      assert s[|a|] == '/';
      forall i | 0 <= i < |a| ensures s[i] != '/' {
        assert s[i] == a[i];
      }
    }
    assert s[..|a|] == a && s[|a| + 1..] == b;
    assert '/' in s;
    assert SegmentsOf(s) == [a] + Split(b, '/');
  }
}
