/**
 The canonical request text that order services digest: JSON.stringify of
 [customer, product, quantity, amount] with both identifiers in lower case.
 SHA-256 is taken to be injective, so the text itself stands for its digest.
 */
module Fingerprint {
  import opened Wrappers
  import opened JsText

  const QUOTE: CodeUnit := 34
  const BACKSLASH: CodeUnit := 92
  const COMMA: CodeUnit := 44

  function HexDigit(n: nat): CodeUnit
    requires n < 16
  {
    if n < 10 then 48 + n else 87 + n
  }

  function HexValue(c: CodeUnit): Option<nat>
  {
    if 48 <= c <= 57 then Some(c - 48) else if 97 <= c <= 102 then Some(c - 87) else None
  }

  function Hex4(c: CodeUnit): Text
  {
    [HexDigit(c / 4096), HexDigit(c / 256 % 16), HexDigit(c / 16 % 16), HexDigit(c % 16)]
  }

  function UnHex4(t: Text): Option<CodeUnit>
    requires |t| >= 4
  {
    match (HexValue(t[0]), HexValue(t[1]), HexValue(t[2]), HexValue(t[3]))
    case (Some(a), Some(b), Some(c), Some(d)) =>
      var n := ((a * 16 + b) * 16 + c) * 16 + d;
      if n < 0x10000 then Some(n) else None
    case _ => None
  }

  /** Letter of the two-character escape of a code unit, if it has one (section 7 of RFC 8259). */
  function ShortEscape(c: CodeUnit): Option<CodeUnit>
  {
    if c == 8 then Some(98) else if c == 9 then Some(116) else if c == 10 then Some(110)
    else if c == 12 then Some(102) else if c == 13 then Some(114)
    else if c == QUOTE || c == BACKSLASH then Some(c) else None
  }

  function UnescapeLetter(c: CodeUnit): Option<CodeUnit>
  {
    if c == 98 then Some(8) else if c == 116 then Some(9) else if c == 110 then Some(10)
    else if c == 102 then Some(12) else if c == 114 then Some(13)
    else if c == QUOTE || c == BACKSLASH then Some(c) else None
  }

  function EscapeUnit(c: CodeUnit): Text
  {
    match ShortEscape(c)
    case Some(letter) => [BACKSLASH, letter]
    case None => if c < 32 || IsSurrogate(c) then [BACKSLASH, 117] + Hex4(c) else [c]
  }

  /** Body of a JSON string: surrogate pairs stay raw, lone surrogates are escaped. */
  function Escape(s: Text): Text
  {
    if s == [] then []
    else if StartsWithPair(s) then s[..2] + Escape(s[2..])
    else EscapeUnit(s[0]) + Escape(s[1..])
  }

  /** Reads a JSON string body up to its closing quote; answers the string and what follows. */
  function Unescape(t: Text): Option<(Text, Text)>
    decreases |t|
  {
    if t == [] then None
    else if t[0] == QUOTE then Some(([], t[1..]))
    else if t[0] != BACKSLASH then Prepend(t[0], Unescape(t[1..]))
    else if |t| >= 6 && t[1] == 117 then
      match UnHex4(t[2..6])
      case Some(c) => Prepend(c, Unescape(t[6..]))
      case None => None
    else if |t| >= 2 then
      match UnescapeLetter(t[1])
      case Some(c) => Prepend(c, Unescape(t[2..]))
      case None => None
    else None
  }

  function Prepend(c: CodeUnit, r: Option<(Text, Text)>): Option<(Text, Text)>
  {
    match r
    case Some((s, rest)) => Some(([c] + s, rest))
    case None => None
  }

  lemma HexRoundTrip(n: nat)
    requires n < 16
    ensures HexValue(HexDigit(n)) == Some(n)
  {}

  lemma Hex4RoundTrip(c: CodeUnit)
    ensures UnHex4(Hex4(c)) == Some(c)
  {
    var h := c / 16;
    assert h / 16 == c / 256 && h / 256 == c / 4096;
    assert c == h * 16 + c % 16 && h == h / 16 * 16 + h % 16 && h / 16 == h / 256 * 16 + h / 16 % 16;
    HexRoundTrip(c / 4096);
    HexRoundTrip(c / 256 % 16);
    HexRoundTrip(c / 16 % 16);
    HexRoundTrip(c % 16);
  }

  lemma UnescapeRaw(c: CodeUnit, t: Text)
    requires c != QUOTE && c != BACKSLASH
    ensures Unescape([c] + t) == Prepend(c, Unescape(t))
  {
    assert ([c] + t)[1..] == t;
  }

  lemma UnescapePair(c: CodeUnit, d: CodeUnit, t: Text)
    requires IsSurrogate(c) && IsSurrogate(d)
    ensures Unescape([c, d] + t) == Prepend(c, Prepend(d, Unescape(t)))
  {
    UnescapeRaw(d, t);
    UnescapeRaw(c, [d] + t);
    assert [c, d] + t == [c] + ([d] + t);
  }

  lemma UnescapeUnit(c: CodeUnit, t: Text)
    ensures Unescape(EscapeUnit(c) + t) == Prepend(c, Unescape(t))
  {
    var u := EscapeUnit(c) + t;
    if ShortEscape(c).Some? {
      assert u[2..] == t;
    } else if c < 32 || IsSurrogate(c) {
      assert u[2..6] == Hex4(c) && u[6..] == t;
      Hex4RoundTrip(c);
    } else {
      UnescapeRaw(c, t);
    }
  }

  /** Escaped string, its closing quote, and what follows. */
  function Quoted(s: Text, rest: Text): Text { Escape(s) + ([QUOTE] + rest) }

  /** Reading back an escaped string gives the string, whatever follows its closing quote. */
  lemma {:induction false} UnescapeEscape(s: Text, rest: Text)
    ensures Unescape(Quoted(s, rest)) == Some((s, rest))
  {
    if s == [] {
      assert Quoted(s, rest) == [QUOTE] + rest && ([QUOTE] + rest)[1..] == rest;
    } else if StartsWithPair(s) {
      var t := Quoted(s[2..], rest);
      UnescapeEscape(s[2..], rest);
      UnescapePair(s[0], s[1], t);
      Concat(s[..2], Escape(s[2..]), [QUOTE] + rest);
      assert s[..2] == [s[0], s[1]];
      assert s == [s[0]] + ([s[1]] + s[2..]);
    } else {
      UnescapeEscape(s[1..], rest);
      UnescapeUnit(s[0], Quoted(s[1..], rest));
      Concat(EscapeUnit(s[0]), Escape(s[1..]), [QUOTE] + rest);
      assert s == [s[0]] + s[1..];
    }
  }

  /** A JSON string and the text after it are determined by the two together. */
  lemma QuotedInjective(s: Text, rest: Text, s': Text, rest': Text)
    requires Quoted(s, rest) == Quoted(s', rest')
    ensures s == s' && rest == rest'
  {
    UnescapeEscape(s, rest);
    UnescapeEscape(s', rest');
  }

  /** `["customer","product",quantity,amount]` */
  function Canonical(customer: Text, product: Text, quantity: int, amount: int): Text
  {
    [91, QUOTE] + Quoted(customer, [COMMA, QUOTE] + Quoted(product, [COMMA] + Numbers(quantity, amount)))
  }

  function Numbers(quantity: int, amount: int): Text
  {
    Decimal(quantity) + ([COMMA] + (Decimal(amount) + [93]))
  }

  lemma NumbersInjective(q: int, a: int, q': int, a': int)
    requires Numbers(q, a) == Numbers(q', a')
    ensures q == q' && a == a'
  {
    DecimalHasNo(q, COMMA);
    DecimalHasNo(q', COMMA);
    CutUnique(Decimal(q), Decimal(q'), COMMA, Decimal(a) + [93], Decimal(a') + [93]);
    SameSuffix(Decimal(a), Decimal(a'), [93]);
    DecimalInjective(q, q');
    DecimalInjective(a, a');
  }

  /** The canonical text determines the four request fields, for all strings and integers. */
  lemma CanonicalInjective(c: Text, p: Text, q: int, a: int, c': Text, p': Text, q': int, a': int)
    requires Canonical(c, p, q, a) == Canonical(c', p', q', a')
    ensures c == c' && p == p' && q == q' && a == a'
  {
    var n, n' := [COMMA] + Numbers(q, a), [COMMA] + Numbers(q', a');
    var t, t' := [COMMA, QUOTE] + Quoted(p, n), [COMMA, QUOTE] + Quoted(p', n');
    SamePrefix([91, QUOTE], Quoted(c, t), Quoted(c', t'));
    QuotedInjective(c, t, c', t');
    SamePrefix([COMMA, QUOTE], Quoted(p, n), Quoted(p', n'));
    QuotedInjective(p, n, p', n');
    SamePrefix([COMMA], Numbers(q, a), Numbers(q', a'));
    NumbersInjective(q, a, q', a');
  }

  function FingerprintOrderRequest(customer: Text, product: Text, quantity: int, amount: int): Text
  {
    Canonical(Lower(customer), Lower(product), quantity, amount)
  }

  /** Equal fingerprints mean the same request up to the case of the identifiers, and only then. */
  lemma FingerprintsAgree(c: Text, p: Text, q: int, a: int, c': Text, p': Text, q': int, a': int)
    ensures FingerprintOrderRequest(c, p, q, a) == FingerprintOrderRequest(c', p', q', a')
            <==> Lower(c) == Lower(c') && Lower(p) == Lower(p') && q == q' && a == a'
  {
    if FingerprintOrderRequest(c, p, q, a) == FingerprintOrderRequest(c', p', q', a') {
      CanonicalInjective(Lower(c), Lower(p), q, a, Lower(c'), Lower(p'), q', a');
    }
  }

  /** The same without lower-casing: equal up to the case of the letters A to Z in the identifiers. */
  lemma FingerprintsForgetCase(c: Text, p: Text, q: int, a: int, c': Text, p': Text, q': int, a': int)
    ensures FingerprintOrderRequest(c, p, q, a) == FingerprintOrderRequest(c', p', q', a')
            <==> SameText(c, c') && SameText(p, p') && q == q' && a == a'
  {
    FingerprintsAgree(c, p, q, a, c', p', q', a');
    LowerForgetsCase(c, c');
    LowerForgetsCase(p, p');
  }

  /** The escapes of JSON.stringify: short ones, lower-case hexadecimal for other controls and lone surrogates, all else raw. */
  lemma EscapeExamples()
    ensures EscapeUnit(8) == [92, 98] && EscapeUnit(9) == [92, 116] && EscapeUnit(10) == [92, 110]
    ensures EscapeUnit(12) == [92, 102] && EscapeUnit(13) == [92, 114] && EscapeUnit(34) == [92, 34] && EscapeUnit(92) == [92, 92]
    ensures EscapeUnit(11) == [92, 117, 48, 48, 48, 98] && EscapeUnit(31) == [92, 117, 48, 48, 49, 102]
    ensures EscapeUnit(0xD83D) == [92, 117, 100, 56, 51, 100]
    ensures EscapeUnit(32) == [32] && EscapeUnit(47) == [47] && EscapeUnit(127) == [127] && EscapeUnit(0x2028) == [0x2028]
  {}

  lemma EscapeRaw(c: CodeUnit, s: Text)
    requires 32 <= c < 128 && c != QUOTE && c != BACKSLASH
    ensures Escape([c] + s) == [c] + Escape(s)
  {
    assert ([c] + s)[1..] == s;
  }

  lemma LowerExample(customer: Text, product: Text)
    requires customer == [65] + [] && product == [49] + ([66] + [])
    ensures Escape(Lower(customer)) == [97] && Escape(Lower(product)) == [49, 98]
  {
    assert Lower(customer) == [97] + [] && Lower(product) == [49] + ([98] + []);
    EscapeRaw(97, []);
    EscapeRaw(98, []);
    EscapeRaw(49, [98] + []);
  }

  lemma NumbersExample(quantity: int, amount: int)
    requires quantity == 20 && amount == -3
    ensures Numbers(quantity, amount) == [50, 48, 44, 45, 51, 93]
  {
    assert Digits(quantity / 10) == [50];
    assert Digits(quantity) == [50, 48] && Digits(-amount) == [51];
  }

  /** `["a","1b",20,-3]` is the text for customer A and product 1B, with the quantity before the amount. */
  lemma FingerprintExample(customer: Text, product: Text, quantity: int, amount: int)
    requires customer == [65] + [] && product == [49] + ([66] + []) && quantity == 20 && amount == -3
    ensures FingerprintOrderRequest(customer, product, quantity, amount)
         == [91, 34] + ([97] + ([34] + ([44, 34] + ([49, 98] + ([34] + ([44] + [50, 48, 44, 45, 51, 93]))))))
  {
    LowerExample(customer, product);
    NumbersExample(quantity, amount);
  }

  /** The stored row holds lower-case identifiers; its rebuilt fingerprint is the request's own. */
  lemma FingerprintSurvivesStorage(c: Text, p: Text, q: int, a: int)
    ensures FingerprintOrderRequest(Lower(c), Lower(p), q, a) == FingerprintOrderRequest(c, p, q, a)
  {
    LowerTwice(c);
    LowerTwice(p);
  }
}
