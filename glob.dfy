/** glob.glob(join(dir, pattern)) for the patterns the copier uses ("E*P*",
    "*.JPG", "*.CSV"): '*' matches any run of characters, every other character
    itself, and a name starting with '.' is listed only by a pattern that does. */
module Glob {
  import opened Wrappers
  import opened Paths
  import opened FileSystem

  /** fnmatch for patterns made of '*' and literal characters: a pattern without
      '*' matches only itself, and "*" matches every name. */
  function Match(pat: string, name: string): (r: bool)
    ensures '*' !in pat ==> (r <==> name == pat)
    ensures pat == "*" ==> r
    decreases |pat| + |name|
  {
    if pat == [] then name == []
    else if pat[0] == '*' then Match(pat[1..], name) || (name != [] && Match(pat, name[1..]))
    else name != [] && pat[0] == name[0] && Match(pat[1..], name[1..])
  }

  /** glob's rule for hidden names on top of fnmatch: a pattern that does not
      start with '.' lists the names it matches except those starting with '.'. */
  predicate GlobMatch(pat: string, name: string)
  {
    Match(pat, name) && (name != [] && name[0] == '.' ==> pat != [] && pat[0] == '.')
  }

  /** p is one of the paths glob(join(d, pat)) returns. */
  predicate Listed(d: Path, pat: string, p: Path)
  {
    match ChildName(d, p)
    case Some(n) => GlobMatch(pat, n)
    case None => false
  }

  /** Everything glob(join(d, pat)) returns, as a set. */
  function GlobSet(fs: Fs, d: Path, pat: string): set<Path>
  {
    set p | p in Entries(fs) && Listed(d, pat, p)
  }

  /** glob(join(d, pat)) lists exactly the entries join(d, n) for a non-empty name n
      without '/' that matches pat under glob's rules. */
  lemma GlobSetMembers(fs: Fs, d: Path, pat: string, p: Path)
    ensures p in GlobSet(fs, d, pat) <==>
              p in Entries(fs) && exists n :: n != "" && IsComponent(n) && p == Join(d, n) && GlobMatch(pat, n)
  {
    if p in Entries(fs) && exists n :: n != "" && IsComponent(n) && p == Join(d, n) && GlobMatch(pat, n) {
      var n :| n != "" && IsComponent(n) && p == Join(d, n) && GlobMatch(pat, n);
      ChildNameOfJoin(d, n);
    }
    if p in GlobSet(fs, d, pat) {
      var n := ChildName(d, p).value;
      assert GlobMatch(pat, n);
    }
  }

  predicate Distinct<T(==)>(s: seq<T>)
  {
    forall i, j :: 0 <= i < j < |s| ==> s[i] != s[j]
  }

  /** glob.glob(join(d, pat)): each listed path once, in an order the model leaves open. */
  method GlobPaths(fs: Fs, d: Path, pat: string) returns (r: seq<Path>)
    ensures forall p :: p in r <==> p in GlobSet(fs, d, pat)
    ensures Distinct(r)
  {
    var left := GlobSet(fs, d, pat);
    r := [];
    while left != {}
      invariant left <= GlobSet(fs, d, pat)
      invariant forall p :: p in r <==> p in GlobSet(fs, d, pat) && p !in left
      invariant Distinct(r)
      decreases |left|
    {
      var p :| p in left;
      r := r + [p];
      left := left - {p};
    }
  }

  /** A leading '*' may skip any k characters before the rest of the pattern matches. */
  lemma {:induction false} StarSkips(q: string, s: string, k: nat)
    requires k <= |s| && Match(q, s[k..])
    ensures Match(['*'] + q, s)
  {
    var p := ['*'] + q;
    assert p[1..] == q;
    if k == 0 {
      assert s[0..] == s;
    } else {
      assert s[1..][k - 1..] == s[k..];
      StarSkips(q, s[1..], k - 1);
    }
  }

  /** A pattern '*' + ext, for ext without '*', matches only names ending in ext. */
  lemma {:induction false} StarSuffixOnly(ext: string, s: string)
    requires '*' !in ext && Match(['*'] + ext, s)
    ensures |ext| <= |s| && s[|s| - |ext|..] == ext
  {
    var p := ['*'] + ext;
    assert p[1..] == ext;
    if !Match(ext, s) {
      StarSuffixOnly(ext, s[1..]);
      assert s[1..][|s| - 1 - |ext|..] == s[|s| - |ext|..];
    }
  }

  /** "*" + ext, for ext without '*', matches exactly the names ending in ext. */
  lemma SuffixPattern(ext: string, s: string)
    requires '*' !in ext
    ensures Match(['*'] + ext, s) <==> |ext| <= |s| && s[|s| - |ext|..] == ext
  {
    if |ext| <= |s| && s[|s| - |ext|..] == ext {
      assert Match(ext, s[|s| - |ext|..]);
      StarSkips(ext, s, |s| - |ext|);
    }
    if Match(['*'] + ext, s) {
      StarSuffixOnly(ext, s);
    }
  }

  /** glob(join(d, "*" + ext)), for ext without '*', lists exactly the names that end
      in ext and are not hidden. */
  lemma SuffixGlob(ext: string, s: string)
    requires '*' !in ext
    ensures GlobMatch(['*'] + ext, s) <==> |ext| <= |s| && s[|s| - |ext|..] == ext && (s == [] || s[0] != '.')
  {
    SuffixPattern(ext, s);
  }

  /** Only a name with a 'P' in it matches "*P*". */
  lemma {:induction false} StarPFound(t: string)
    requires Match("*P*", t)
    ensures 'P' in t
  {
    assert "*P*"[1..] == "P*";
    if !Match("P*", t) {
      StarPFound(t[1..]);
      assert t == [t[0]] + t[1..];
    }
  }

  /** "E*P*" matches exactly the names that start with 'E' and have a 'P' after it. */
  lemma MatchPartPattern(s: string)
    ensures Match("E*P*", s) <==> |s| >= 1 && s[0] == 'E' && 'P' in s[1..]
  {
    assert "E*P*"[1..] == "*P*" == ['*'] + "P*";
    if s != [] && s[0] == 'E' {
      var t := s[1..];
      if 'P' in t {
        var k :| 0 <= k < |t| && t[k] == 'P';
        assert "P*"[1..] == "*";
        assert Match("*", t[k..][1..]);
        assert Match("P*", t[k..]);
        StarSkips("P*", t, k);
      }
      if Match("*P*", t) {
        StarPFound(t);
      }
    }
  }
}
