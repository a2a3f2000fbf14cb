/** JavaScript strings as sequences of 16-bit code units. */
module JsText {

  type CodeUnit = n: nat | n < 0x10000

  type Text = seq<CodeUnit>

  predicate IsLead(c: CodeUnit) { 0xD800 <= c < 0xDC00 }

  predicate IsTrail(c: CodeUnit) { 0xDC00 <= c < 0xE000 }

  predicate IsSurrogate(c: CodeUnit) { IsLead(c) || IsTrail(c) }

  /** The text starts with a surrogate pair, that is, with one code point beyond the basic plane. */
  predicate StartsWithPair(s: Text) { |s| >= 2 && IsLead(s[0]) && IsTrail(s[1]) }

  /** White space and line terminators removed by `String.prototype.trim`. */
  predicate IsWhiteSpace(c: CodeUnit)
  {
    9 <= c <= 13 || c == 32 || c == 0xA0 || c == 0x1680 || 0x2000 <= c <= 0x200A
    || c == 0x2028 || c == 0x2029 || c == 0x202F || c == 0x205F || c == 0x3000 || c == 0xFEFF
  }

  predicate IsBlank(s: Text) { forall i :: 0 <= i < |s| ==> IsWhiteSpace(s[i]) }

  function LowerUnit(c: CodeUnit): CodeUnit { if 65 <= c <= 90 then c + 32 else c }

  /** `toLowerCase` on the alphabet of UUIDs, which is also how PostgreSQL stores a uuid. */
  function Lower(s: Text): Text { seq(|s|, i requires 0 <= i < |s| => LowerUnit(s[i])) }

  lemma LowerTwice(s: Text)
    ensures Lower(Lower(s)) == Lower(s)
  {}

  /** The same code unit, or the upper-case and the lower-case form of one letter from A to Z. */
  predicate SameLetter(c: CodeUnit, d: CodeUnit)
  {
    c == d || (65 <= c <= 90 && d == c + 32) || (65 <= d <= 90 && c == d + 32)
  }

  /** Equal up to the case of the letters from A to Z. */
  predicate SameText(s: Text, t: Text) { |s| == |t| && forall i :: 0 <= i < |s| ==> SameLetter(s[i], t[i]) }

  lemma LowerForgetsCase(s: Text, t: Text)
    ensures Lower(s) == Lower(t) <==> SameText(s, t)
  {
    if Lower(s) == Lower(t) {
      forall i | 0 <= i < |s| ensures SameLetter(s[i], t[i]) {
        assert Lower(s)[i] == Lower(t)[i];
      }
    }
  }

  lemma LowerIsSame(s: Text)
    ensures SameText(Lower(s), s) && forall i :: 0 <= i < |s| ==> !(65 <= Lower(s)[i] <= 90)
  {}

  function Digits(n: nat): (r: Text)
    ensures |r| > 0 && forall i :: 0 <= i < |r| ==> 48 <= r[i] <= 57
  {
    if n < 10 then [48 + n] else Digits(n / 10) + [48 + n % 10]
  }

  /** Decimal text of an integer, as JavaScript prints integers of magnitude below 1e21. */
  function Decimal(n: int): Text { if n < 0 then [45] + Digits(-n) else Digits(n) }

  /** Number written by decimal digits, most significant first. */
  function Value(t: Text): int
  {
    if t == [] then 0 else Value(t[..|t| - 1]) * 10 + t[|t| - 1] - 48
  }

  lemma {:induction false} ValueOfDigits(n: nat)
    ensures Value(Digits(n)) == n
  {
    if n >= 10 {
      assert Digits(n)[..|Digits(n)| - 1] == Digits(n / 10);
      ValueOfDigits(n / 10);
    } else {
      assert Digits(n)[..0] == [];
    }
  }

  lemma DecimalInjective(m: int, n: int)
    requires Decimal(m) == Decimal(n)
    ensures m == n
  {
    assert Decimal(m)[0] == Decimal(n)[0];
    ValueOfDecimal(m);
    ValueOfDecimal(n);
  }

  /** The digits after the sign, if there is one, say the magnitude. */
  lemma ValueOfDecimal(n: int)
    ensures n < 0 ==> Decimal(n)[0] == 45 && Value(Decimal(n)[1..]) == -n
    ensures n >= 0 ==> Decimal(n)[0] != 45 && Value(Decimal(n)) == n
  {
    if n < 0 {
      ValueOfDigits(-n);
      assert Decimal(n)[1..] == Digits(-n);
    } else {
      ValueOfDigits(n);
    }
  }

  lemma DecimalHasNo(n: int, c: CodeUnit)
    requires c < 45 || c == 46 || c == 47 || c > 57
    ensures c !in Decimal(n)
  {}

  lemma Concat(x: Text, y: Text, z: Text)
    ensures x + y + z == x + (y + z)
  {}

  lemma SamePrefix(u: Text, x: Text, y: Text)
    requires u + x == u + y
    ensures x == y
  {
    assert x == (u + x)[|u|..];
    assert y == (u + y)[|u|..];
  }

  lemma SameSuffix(x: Text, y: Text, u: Text)
    requires x + u == y + u
    ensures x == y
  {
    assert |x| == |y|;
    assert x == (x + u)[..|x|];
    assert y == (y + u)[..|x|];
  }

  /** Two texts cut at the first occurrence of a separator have the same parts. */
  lemma {:induction false} CutUnique(u: Text, v: Text, separator: CodeUnit, x: Text, y: Text)
    requires separator !in u && separator !in v
    requires u + ([separator] + x) == v + ([separator] + y)
    ensures u == v && x == y
  {
    var s, t := u + ([separator] + x), v + ([separator] + y);
    assert s[0] == t[0] && s[1..] == t[1..];
    if u == [] || v == [] {
      assert x == s[1..] && y == t[1..];
    } else {
      assert s[1..] == u[1..] + ([separator] + x);
      assert t[1..] == v[1..] + ([separator] + y);
      CutUnique(u[1..], v[1..], separator, x, y);
    }
  }
}
