/** The string operations both scripts lean on: ASCII lower-casing (str.lower),
    the negative slice s[-k:], str.split on a one-character separator with its
    inverse str.join, and the decimal text an f-string gives an int. */
module Strings {

  predicate IsUpper(c: char) { 'A' <= c <= 'Z' }

  predicate IsDigit(c: char) { '0' <= c <= '9' }

  predicate AllDigits(s: string) { forall i :: 0 <= i < |s| ==> IsDigit(s[i]) }

  /** str.lower on one character, restricted to ASCII. */
  function LowerChar(c: char): char
  {
    if IsUpper(c) then (c as int + 32) as char else c
  }

  /** str.lower, restricted to ASCII: every character lowered in place. */
  function Lower(s: string): (r: string)
    ensures |r| == |s|
    ensures forall i :: 0 <= i < |s| ==> r[i] == LowerChar(s[i])
  {
    if s == [] then [] else Lower(s[..|s| - 1]) + [LowerChar(s[|s| - 1])]
  }

  /** A lowered string holds no upper-case ASCII letter. */
  lemma LowerHasNoUpper(s: string)
    ensures forall i :: 0 <= i < |Lower(s)| ==> !IsUpper(Lower(s)[i])
  {
  }

  lemma LowerConcat(a: string, b: string)
    ensures Lower(a + b) == Lower(a) + Lower(b)
  {
    assert forall i :: 0 <= i < |a + b| ==> Lower(a + b)[i] == (Lower(a) + Lower(b))[i];
  }

  /** Lowering neither creates nor removes a character that is not an ASCII letter. */
  lemma LowerKeepsNonLetter(s: string, c: char)
    requires !IsUpper(c) && !('a' <= c <= 'z')
    ensures c in Lower(s) <==> c in s
  {
    if c in s {
      var i :| 0 <= i < |s| && s[i] == c;
      assert Lower(s)[i] == c;
    }
    if c in Lower(s) {
      var i :| 0 <= i < |Lower(s)| && Lower(s)[i] == c;
      assert s[i] == c;
    }
  }

  /** Python's s[-k:] for k > 0: the last k characters, or all of s when it is shorter. */
  function TakeLast(s: string, k: nat): (r: string)
    requires k > 0
    ensures |r| == if |s| < k then |s| else k
    ensures s == s[..|s| - |r|] + r
  {
    if |s| <= k then s else s[|s| - k..]
  }

  function DigitChar(d: nat): (c: char)
    requires d < 10
    ensures IsDigit(c)
  {
    ('0' as int + d) as char
  }

  function DigitValue(c: char): (d: nat)
    requires IsDigit(c)
    ensures d < 10
  {
    c as int - '0' as int
  }

  /** The decimal text of a natural number, as str() or an f-string writes it. */
  function NatStr(n: nat): (r: string)
    ensures |r| >= 1 && AllDigits(r)
    ensures r[0] == '0' <==> n == 0
  {
    if n < 10 then [DigitChar(n)] else NatStr(n / 10) + [DigitChar(n % 10)]
  }

  /** Reads a run of decimal digits back as a number (int() on digit text). */
  function ParseNat(s: string): nat
    requires AllDigits(s)
  {
    if s == [] then 0 else ParseNat(s[..|s| - 1]) * 10 + DigitValue(s[|s| - 1])
  }

  /** Decimal text round-trips: parsing what NatStr writes gives the number back. */
  lemma {:induction false} ParseNatStr(n: nat)
    ensures ParseNat(NatStr(n)) == n
  {
    if n >= 10 {
      var s := NatStr(n);
      assert s[..|s| - 1] == NatStr(n / 10);
      ParseNatStr(n / 10);
    }
  }

  lemma NatStrInjective(a: nat, b: nat)
    requires NatStr(a) == NatStr(b)
    ensures a == b
  {
    ParseNatStr(a);
    ParseNatStr(b);
  }

  /** The decimal text of an int in an f-string, with a leading '-' when negative. */
  function IntStr(i: int): (r: string)
    ensures r != [] && '/' !in r
    ensures i >= 0 ==> AllDigits(r) && ParseNat(r) == i
    ensures i < 0 ==> r[0] == '-' && AllDigits(r[1..]) && ParseNat(r[1..]) == -i
  {
    if i < 0 then
      ParseNatStr(-i);
      assert ("-" + NatStr(-i))[1..] == NatStr(-i);
      "-" + NatStr(-i)
    else
      ParseNatStr(i);
      NatStr(i)
  }

  /** str.split(sep) for a one-character separator; never empty. */
  function Split(s: string, sep: char): (r: seq<string>)
    ensures |r| >= 1
  {
    if s == [] then [""]
    else
      var init := Split(s[..|s| - 1], sep);
      var c := s[|s| - 1];
      if c == sep then init + [""]
      else init[..|init| - 1] + [init[|init| - 1] + [c]]
  }

  /** No piece of a split holds the separator. */
  lemma {:induction false} SplitPiecesNoSep(s: string, sep: char)
    ensures forall i :: 0 <= i < |Split(s, sep)| ==> sep !in Split(s, sep)[i]
  {
    if s != [] {
      var t := s[..|s| - 1];
      var c := s[|s| - 1];
      SplitPiecesNoSep(t, sep);
      var init := Split(t, sep);
      assert s == t + [c];
      SplitSnoc(t, c, sep);
      if c != sep {
        var r := Split(s, sep);
        forall i | 0 <= i < |r| ensures sep !in r[i] {
          if i < |r| - 1 {
            assert r[i] == init[i];
          } else {
            assert r[i] == init[|init| - 1] + [c];
          }
        }
      }
    }
  }

  /** sep.join(xs) */
  function JoinWith(xs: seq<string>, sep: string): string
  {
    if |xs| == 0 then ""
    else if |xs| == 1 then xs[0]
    else JoinWith(xs[..|xs| - 1], sep) + sep + xs[|xs| - 1]
  }

  /** Joining the pieces of a split with the separator gives the string back. */
  lemma {:induction false} JoinSplit(s: string, sep: char)
    ensures JoinWith(Split(s, sep), [sep]) == s
  {
    if s != [] {
      var t := s[..|s| - 1];
      var c := s[|s| - 1];
      var init := Split(t, sep);
      JoinSplit(t, sep);
      var m := |init| - 1;
      if c == sep {
        var r := init + [""];
        assert r[..|r| - 1] == init;
        assert JoinWith(r, [sep]) == JoinWith(init, [sep]) + [sep] + "";
      } else if m == 0 {
        assert s == t + [c];
      } else {
        var x := init[m] + [c];
        var r := init[..m] + [x];
        assert r[..|r| - 1] == init[..m];
        assert init[..m] == init[..|init| - 1];
        assert JoinWith(init, [sep]) == JoinWith(init[..m], [sep]) + [sep] + init[m];
        assert s == t + [c];
      }
    }
  }

  /** A string without the separator splits into itself alone. */
  lemma {:induction false} SplitNoSep(s: string, sep: char)
    requires sep !in s
    ensures Split(s, sep) == [s]
  {
    if s != [] {
      SplitNoSep(s[..|s| - 1], sep);
      assert s == s[..|s| - 1] + [s[|s| - 1]];
    }
  }

  /** One more character at the end either opens a new piece or extends the last one. */
  lemma SplitSnoc(t: string, c: char, sep: char)
    ensures Split(t + [c], sep) == AddChar(Split(t, sep), c == sep, c)
  {
    assert (t + [c])[..|t + [c]| - 1] == t;
  }

  /** Splitting at one occurrence of the separator splits the two sides independently. */
  lemma {:induction false} SplitAround(a: string, sep: char, b: string)
    ensures Split(a + [sep] + b, sep) == Split(a, sep) + Split(b, sep)
  {
    if b == [] {
      SplitSnoc(a, sep, sep);
      assert a + [sep] + b == a + [sep];
    } else {
      var b' := b[..|b| - 1];
      var c := b[|b| - 1];
      assert a + [sep] + b == (a + [sep] + b') + [c];
      assert b == b' + [c];
      SplitAround(a, sep, b');
      SplitAroundStep(a, sep, b', c);
    }
  }

  /** The inductive step of SplitAround: adding one character after b. */
  lemma SplitAroundStep(a: string, sep: char, b: string, c: char)
    requires Split(a + [sep] + b, sep) == Split(a, sep) + Split(b, sep)
    ensures Split((a + [sep] + b) + [c], sep) == Split(a, sep) + Split(b + [c], sep)
  {
    SplitSnoc(a + [sep] + b, c, sep);
    SplitSnoc(b, c, sep);
    SnocPiece(Split(a, sep), Split(b, sep), c == sep, c);
  }

  /** The pieces after one more character, for pieces A + B where B holds the last one. */
  function AddChar(P: seq<string>, isSep: bool, c: char): seq<string>
    requires |P| >= 1
  {
    if isSep then P + [""] else P[..|P| - 1] + [P[|P| - 1] + [c]]
  }

  lemma LastOfAddChar(P: seq<string>, isSep: bool, c: char)
    requires |P| >= 1
    ensures var R := AddChar(P, isSep, c);
            R[|R| - 1] == if isSep then "" else P[|P| - 1] + [c]
  {
  }

  lemma SnocPiece(A: seq<string>, B: seq<string>, isSep: bool, c: char)
    requires |B| >= 1
    ensures AddChar(A + B, isSep, c) == A + AddChar(B, isSep, c)
  {
    if isSep {
      assert (A + B) + [""] == A + (B + [""]);
    } else {
      assert (A + B)[..|A + B| - 1] == A + B[..|B| - 1];
    }
  }

  /** There are at least two pieces exactly when the separator occurs. */
  lemma SplitCount(s: string, sep: char)
    ensures |Split(s, sep)| >= 2 <==> sep in s
  {
    if sep in s {
      var i :| 0 <= i < |s| && s[i] == sep;
      assert s == s[..i] + [sep] + s[i + 1..];
      SplitAround(s[..i], sep, s[i + 1..]);
    } else {
      SplitNoSep(s, sep);
    }
  }
}
