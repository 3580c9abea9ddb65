/** POSIX path text as the scripts build and take apart: os.path.join with two
    arguments, os.path.basename, and the second-to-last piece of
    location.split("/") that the oscilloscope files take their new names from. */
module Paths {
  import opened Wrappers
  import opened Strings

  type Path = string

  /** The text os.path.join puts in front of a relative second argument: the
      first argument, with a '/' added unless it is empty or already ends in one. */
  function DirPrefix(a: Path): (r: Path)
    ensures |a| <= |r| && r[..|a|] == a
    ensures r == "" || r[|r| - 1] == '/'
    ensures r == a || r == a + "/"
    ensures a == "" || a[|a| - 1] == '/' ==> r == a
  {
    if a == "" || a[|a| - 1] == '/' then a else a + "/"
  }

  /** os.path.join(a, b): b alone when it is absolute, else b after DirPrefix(a). */
  function Join(a: Path, b: Path): Path
  {
    if |b| > 0 && b[0] == '/' then b else DirPrefix(a) + b
  }

  /** os.path.join(a, b) with b relative puts exactly one '/' between a and b
      unless a is empty or already ends in one; an absolute b replaces a. */
  lemma JoinCases(a: Path, b: Path)
    ensures |b| > 0 && b[0] == '/' ==> Join(a, b) == b
    ensures (|b| == 0 || b[0] != '/') && (a == "" || a[|a| - 1] == '/') ==> Join(a, b) == a + b
    ensures (|b| == 0 || b[0] != '/') && a != "" && a[|a| - 1] != '/' ==> Join(a, b) == a + "/" + b
    ensures |Join(a, b)| >= |b| && Join(a, b)[|Join(a, b)| - |b|..] == b
  {
    var r := Join(a, b);
    if !(|b| > 0 && b[0] == '/') {
      assert r == DirPrefix(a) + b;
      assert r[|r| - |b|..] == b;
    }
  }

  predicate IsComponent(n: string) { '/' !in n }

  /** os.path.basename(p): what follows the last '/', i.e. the longest suffix without one. */
  function Basename(p: Path): (r: string)
    ensures '/' !in r
    ensures |r| <= |p|
  {
    if p == [] then []
    else if p[|p| - 1] == '/' then []
    else Basename(p[..|p| - 1]) + [p[|p| - 1]]
  }

  /** The basename is the suffix of p after its last '/' (all of p when it has none). */
  lemma {:induction false} BasenameIsLastSuffix(p: Path)
    ensures var r := Basename(p);
            && r == p[|p| - |r|..]
            && (|r| < |p| ==> p[|p| - |r| - 1] == '/')
  {
    if p != [] && p[|p| - 1] != '/' {
      var t := p[..|p| - 1];
      BasenameIsLastSuffix(t);
      var r := Basename(t);
      assert p == t + [p[|p| - 1]];
      assert p[|p| - |r| - 1..] == t[|t| - |r|..] + [p[|p| - 1]];
    }
  }

  /** The last piece of p.split("/") is the basename. */
  lemma {:induction false} LastPieceIsBasename(p: Path)
    ensures var parts := Split(p, '/'); parts[|parts| - 1] == Basename(p)
  {
    if p != [] {
      var t := p[..|p| - 1];
      var c := p[|p| - 1];
      assert p == t + [c];
      SplitSnoc(t, c, '/');
      LastPieceIsBasename(t);
      LastOfAddChar(Split(t, '/'), c == '/', c);
    }
  }

  /** A component joined under a directory is that path's basename. */
  lemma BasenameOfJoin(d: Path, n: string)
    requires IsComponent(n)
    ensures Basename(Join(d, n)) == n
  {
    assert Join(d, n) == DirPrefix(d) + n;
    BasenameAfterSlash(DirPrefix(d), n);
  }

  lemma {:induction false} BasenameAfterSlash(x: Path, n: string)
    requires x == "" || x[|x| - 1] == '/'
    requires IsComponent(n)
    ensures Basename(x + n) == n
  {
    if n != [] {
      var n' := n[..|n| - 1];
      assert (x + n)[..|x + n| - 1] == x + n';
      BasenameAfterSlash(x, n');
    }
  }

  /** location.split("/")[-2], or None where Python raises IndexError (no '/' at all). */
  function ParentComponent(p: Path): (r: Option<string>)
    ensures r.Some? <==> '/' in p
    ensures r.Some? ==> IsComponent(r.value)
  {
    SplitCount(p, '/');
    SplitPiecesNoSep(p, '/');
    var parts := Split(p, '/');
    if |parts| < 2 then None else Some(parts[|parts| - 2])
  }

  /** A file directly inside a directory whose path is not empty and does not end
      in '/' takes the directory's own name as its parent component. */
  lemma ParentComponentOfJoin(d: Path, n: string)
    requires d != "" && d[|d| - 1] != '/'
    requires IsComponent(n)
    ensures ParentComponent(Join(d, n)) == Some(Basename(d))
  {
    var p := Join(d, n);
    JoinCases(d, n);
    assert p == d + "/" + n;
    var A := Split(d, '/');
    SplitAround(d, '/', n);
    SplitNoSep(n, '/');
    assert Split(p, '/') == A + [n];
    LastPieceIsBasename(d);
    SecondToLast(A, n);
  }

  lemma SecondToLast<T>(a: seq<T>, x: T)
    requires |a| >= 1
    ensures var b := a + [x]; |b| >= 2 && b[|b| - 2] == a[|a| - 1]
  {
  }

  /** The name under which p would be listed by os.listdir(d), if it is listed there. */
  function ChildName(d: Path, p: Path): (r: Option<string>)
    ensures r.Some? ==> r.value != "" && IsComponent(r.value) && Join(d, r.value) == p
  {
    var pre := DirPrefix(d);
    if |pre| < |p| && p[..|pre|] == pre && '/' !in p[|pre|..] then
      assert p == pre + p[|pre|..];
      Some(p[|pre|..])
    else None
  }

  /** Joining a non-empty component under d and asking for its name gives the component back. */
  lemma ChildNameOfJoin(d: Path, n: string)
    requires n != "" && IsComponent(n)
    ensures ChildName(d, Join(d, n)) == Some(n)
  {
    var pre := DirPrefix(d);
    assert Join(d, n) == pre + n;
    assert (pre + n)[..|pre|] == pre && (pre + n)[|pre|..] == n;
  }

  /** p lies somewhere below directory d. */
  predicate Under(p: Path, d: Path)
  {
    var pre := DirPrefix(d);
    |pre| <= |p| && p[..|pre|] == pre
  }

  /** Joining a relative name under d gives a path below d. */
  lemma JoinIsUnder(d: Path, n: string)
    requires n == "" || n[0] != '/'
    ensures Under(Join(d, n), d)
  {
    assert Join(d, n) == DirPrefix(d) + n;
  }

  /** Below a path that is below d is below d too. */
  lemma UnderTransitive(p: Path, q: Path, d: Path)
    requires Under(p, q) && Under(q, d)
    ensures Under(p, d)
  {
    var pd := DirPrefix(d);
    var pq := DirPrefix(q);
    assert q[..|pd|] == pd;
    assert pq[..|q|] == q;
    assert p[..|pq|] == pq;
    assert p[..|pd|] == pq[..|pd|] == q[..|pd|];
  }
}
