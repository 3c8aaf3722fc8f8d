/** String helpers standing for toLowerCase, startsWith, includes and `<` on strings. */
module Text {

  /** toLowerCase on one character; only 'A'..'Z' are mapped. */
  function LowerChar(c: char): char
  {
    if 'A' <= c <= 'Z' then (c as int + 32) as char else c
  }

  /** String.prototype.toLowerCase, restricted to ASCII letters. */
  function Lower(s: string): (r: string)
    ensures |r| == |s|
    ensures forall i :: 0 <= i < |s| ==> r[i] == LowerChar(s[i])
  {
    seq(|s|, i requires 0 <= i < |s| => LowerChar(s[i]))
  }

  /** Lower-casing twice is lower-casing once. */
  lemma LowerIdempotent(s: string)
    ensures Lower(Lower(s)) == Lower(s)
  {
    assert forall i :: 0 <= i < |s| ==> LowerChar(LowerChar(s[i])) == LowerChar(s[i]);
  }

  /** String.prototype.startsWith. */
  predicate StartsWith(s: string, prefix: string)
  {
    |prefix| <= |s| && s[..|prefix|] == prefix
  }

  /** String.prototype.includes: `t` occurs in `s` at some offset. */
  predicate Includes(s: string, t: string)
    decreases |s|
  {
    StartsWith(s, t) || (s != [] && Includes(s[1..], t))
  }

  /** `Includes` holds exactly when `t` sits at some offset of `s`. */
  lemma {:induction false} IncludesAt(s: string, t: string, k: nat)
    requires k + |t| <= |s| && s[k..k + |t|] == t
    ensures Includes(s, t)
    decreases k
  {
    if k > 0 {
      assert s[1..][k - 1..k - 1 + |t|] == s[k..k + |t|];
      IncludesAt(s[1..], t, k - 1);
    }
  }

  /** Every string includes the empty string and itself. */
  lemma IncludesTrivial(s: string)
    ensures Includes(s, "") && Includes(s, s)
  {
    assert StartsWith(s, "");
    assert StartsWith(s, s);
  }

  /**
   * Where a character falls in UTF-16 code-unit order. A character from U+10000
   * up is held as a surrogate pair whose first unit lies in 0xD800..0xDBFF, so it
   * sorts after U+0000..U+D7FF and before U+E000..U+FFFF. Distinct characters
   * get distinct ranks.
   */
  function UnitRank(c: char): int
  {
    if c as int < 0xD800 then c as int
    else if c as int >= 0x10000 then c as int - 0x10000 + 0xD800
    else c as int + 0x100000
  }

  /** The UTF-16 encoding of one character: one unit, or a high and a low surrogate. */
  function Utf16Char(c: char): (u: seq<int>)
    ensures |u| == (if c as int < 0x10000 then 1 else 2)
    ensures |u| == 1 ==> u[0] == c as int
    ensures |u| == 2 ==> 0xD800 <= u[0] < 0xDC00 && 0xDC00 <= u[1] < 0xE000
  {
    if c as int < 0x10000 then [c as int]
    else [0xD800 + (c as int - 0x10000) / 0x400, 0xDC00 + (c as int - 0x10000) % 0x400]
  }

  /** The code units of a string, which is what a JavaScript string holds. */
  function Utf16(s: string): (u: seq<int>)
    ensures |u| >= |s|
    decreases |s|
  {
    if s == [] then [] else Utf16Char(s[0]) + Utf16(s[1..])
  }

  /** JavaScript `a < b` on strings: the first differing code unit decides, and a proper prefix is smaller. */
  predicate UnitsLess(a: seq<int>, b: seq<int>)
    decreases |a|
  {
    if a == [] then b != []
    else if b == [] then false
    else if a[0] != b[0] then a[0] < b[0]
    else UnitsLess(a[1..], b[1..])
  }

  /** JavaScript `a < b` on strings, character by character: the first differing character decides by its UnitRank. */
  predicate LexLess(a: string, b: string)
    decreases |a|
  {
    if a == [] then b != []
    else if b == [] then false
    else if a[0] != b[0] then UnitRank(a[0]) < UnitRank(b[0])
    else LexLess(a[1..], b[1..])
  }

  /** LexLess is JavaScript's order: it agrees with comparing the UTF-16 code units. */
  lemma {:induction false} LexLessIsUtf16Order(a: string, b: string)
    ensures LexLess(a, b) <==> UnitsLess(Utf16(a), Utf16(b))
    decreases |a|
  {
    if a != [] && b != [] {
      if a[0] == b[0] {
        LexLessIsUtf16Order(a[1..], b[1..]);
        UnitsLessCommonPrefix(Utf16Char(a[0]), Utf16(a[1..]), Utf16(b[1..]));
      } else {
        FirstCharDecides(a[0], b[0], Utf16(a[1..]), Utf16(b[1..]));
      }
    }
  }

  /** A character above U+FFFF sorts before U+E000..U+FFFF, as its high surrogate does. */
  lemma AstralBeforeHighBmp()
    ensures LexLess("\U{1F600}", "\U{FF01}") && !LexLess("\U{FF01}", "\U{1F600}")
    ensures LexLess("a", "\U{1F600}")
  {
  }

  /** A shared prefix of code units does not change the comparison. */
  lemma {:induction false} UnitsLessCommonPrefix(p: seq<int>, x: seq<int>, y: seq<int>)
    ensures UnitsLess(p + x, p + y) == UnitsLess(x, y)
    decreases |p|
  {
    if p == [] {
      assert p + x == x && p + y == y;
    } else {
      assert (p + x)[0] == p[0] == (p + y)[0];
      assert (p + x)[1..] == p[1..] + x;
      assert (p + y)[1..] == p[1..] + y;
      UnitsLessCommonPrefix(p[1..], x, y);
    }
  }

  /** Two different characters are ordered by their code units as by their ranks, whatever follows them. */
  lemma FirstCharDecides(c: char, d: char, x: seq<int>, y: seq<int>)
    requires c != d
    ensures UnitsLess(Utf16Char(c) + x, Utf16Char(d) + y) <==> UnitRank(c) < UnitRank(d)
  {
    var u, v := Utf16Char(c) + x, Utf16Char(d) + y;
    if c as int >= 0x10000 && d as int >= 0x10000 {
      var m, n := c as int - 0x10000, d as int - 0x10000;
      assert m < n <==> m / 0x400 < n / 0x400 || (m / 0x400 == n / 0x400 && m % 0x400 < n % 0x400);
      if u[0] == v[0] {
        assert u[1..][0] == u[1] && v[1..][0] == v[1];
      }
    }
  }

  lemma {:induction false} LexLessIrreflexive(a: string)
    ensures !LexLess(a, a)
    decreases |a|
  {
    if a != [] {
      LexLessIrreflexive(a[1..]);
    }
  }

  lemma {:induction false} LexLessAsymmetric(a: string, b: string)
    ensures !(LexLess(a, b) && LexLess(b, a))
    decreases |a|
  {
    if a != [] && b != [] && a[0] == b[0] {
      LexLessAsymmetric(a[1..], b[1..]);
    }
  }

  lemma {:induction false} LexLessTransitive(a: string, b: string, c: string)
    requires LexLess(a, b) && LexLess(b, c)
    ensures LexLess(a, c)
    decreases |a|
  {
    if a != [] && b != [] && c != [] && a[0] == b[0] && b[0] == c[0] {
      LexLessTransitive(a[1..], b[1..], c[1..]);
    }
  }

  /** Two different strings are ordered one way or the other. */
  lemma {:induction false} LexLessTotal(a: string, b: string)
    requires a != b
    ensures LexLess(a, b) || LexLess(b, a)
    decreases |a|
  {
    if a != [] && b != [] && a[0] == b[0] {
      assert a == [a[0]] + a[1..] && b == [b[0]] + b[1..];
      LexLessTotal(a[1..], b[1..]);
    }
  }
}
