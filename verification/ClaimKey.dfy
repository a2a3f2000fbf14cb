/**
 The key of a processed-message claim: both parts are percent-encoded (section 2.1 of RFC 3986)
 over UTF-8 (section 3 of RFC 3629), as `encodeURIComponent` does, and joined by a colon.
 */
module ClaimKeys {
  import opened Wrappers
  import opened JsText

  type Octet = n: nat | n < 0x100

  // ----- UTF-8

  /** The code point at the head of a text: its value and the number of code units it takes. */
  function HeadPoint(s: Text): Option<(nat, nat)>
    requires s != []
  {
    if !IsSurrogate(s[0]) then Some((s[0], 1))
    else if StartsWithPair(s) then Some((0x10000 + (s[0] as int - 0xD800) * 0x400 + (s[1] as int - 0xDC00), 2))
    else None
  }

  function PointOctets(c: nat): seq<Octet>
    requires c < 0x110000
  {
    if c < 0x80 then [c]
    else if c < 0x800 then [0xC0 + c / 0x40, 0x80 + c % 0x40]
    else if c < 0x10000 then [0xE0 + c / 0x1000, 0x80 + c / 0x40 % 0x40, 0x80 + c % 0x40]
    else [0xF0 + c / 0x40000, 0x80 + c / 0x1000 % 0x40, 0x80 + c / 0x40 % 0x40, 0x80 + c % 0x40]
  }

  /** `None` is the URIError of a lone surrogate. */
  function Utf8(s: Text): Option<seq<Octet>>
  {
    if s == [] then Some([])
    else if HeadPoint(s).None? then None
    else
      var (c, n) := HeadPoint(s).value;
      var rest := Utf8(s[n..]);
      if rest.None? then None else Some(PointOctets(c) + rest.value)
  }

  function PointUnits(c: nat): Text
    requires c < 0x110000
  {
    if c < 0x10000 then [c] else [0xD800 + (c - 0x10000) / 0x400, 0xDC00 + (c - 0x10000) % 0x400]
  }

  predicate Continues(o: seq<Octet>, n: nat) { |o| > n && forall i :: 1 <= i <= n ==> 0x80 <= o[i] < 0xC0 }

  /** The code point that an octet sequence starts with, and its length; overlong forms and surrogates are refused. */
  function HeadOctets(o: seq<Octet>): (r: Option<(nat, nat)>)
    requires o != []
    ensures r.Some? ==> r.value.0 < 0x110000 && 0 < r.value.1 <= |o|
  {
    if o[0] < 0x80 then Some((o[0], 1))
    else if 0xC2 <= o[0] < 0xE0 && Continues(o, 1) then Some(((o[0] as int - 0xC0) * 0x40 + (o[1] as int - 0x80), 2))
    else if 0xE0 <= o[0] < 0xF0 && Continues(o, 2) then
      var c := (o[0] as int - 0xE0) * 0x1000 + (o[1] as int - 0x80) * 0x40 + (o[2] as int - 0x80);
      if c < 0x800 || 0xD800 <= c < 0xE000 then None else Some((c, 3))
    else if 0xF0 <= o[0] < 0xF5 && Continues(o, 3) then
      var c := (o[0] as int - 0xF0) * 0x40000 + (o[1] as int - 0x80) * 0x1000
               + (o[2] as int - 0x80) * 0x40 + (o[3] as int - 0x80);
      if c < 0x10000 || c >= 0x110000 then None else Some((c, 4))
    else None
  }

  function FromUtf8(o: seq<Octet>): Option<Text>
    decreases |o|
  {
    if o == [] then Some([])
    else if HeadOctets(o).None? then None
    else
      var (c, n) := HeadOctets(o).value;
      var rest := FromUtf8(o[n..]);
      if rest.None? then None else Some(PointUnits(c) + rest.value)
  }

  /** Every surrogate is half of a pair. */
  predicate WellFormed(s: Text)
  {
    && (forall i :: 0 <= i < |s| && IsLead(s[i]) ==> i + 1 < |s| && IsTrail(s[i + 1]))
    && (forall i :: 0 <= i < |s| && IsTrail(s[i]) ==> i > 0 && IsLead(s[i - 1]))
  }

  lemma HeadUnits(s: Text)
    requires s != [] && HeadPoint(s).Some?
    ensures var (c, n) := HeadPoint(s).value;
            c < 0x110000 && !(0xD800 <= c < 0xE000) && n <= |s| && PointUnits(c) == s[..n]
  {}

  lemma ShortPoint(c: nat, rest: seq<Octet>)
    requires c < 0x800
    ensures HeadOctets(PointOctets(c) + rest) == Some((c, |PointOctets(c)|))
  {}

  lemma MiddlePoint(c: nat, rest: seq<Octet>)
    requires 0x800 <= c < 0x10000 && !(0xD800 <= c < 0xE000)
    ensures HeadOctets(PointOctets(c) + rest) == Some((c, |PointOctets(c)|))
  {
    assert c == c / 0x1000 * 0x1000 + c / 0x40 % 0x40 * 0x40 + c % 0x40;
  }

  lemma LongPoint(c: nat, rest: seq<Octet>)
    requires 0x10000 <= c < 0x110000
    ensures HeadOctets(PointOctets(c) + rest) == Some((c, |PointOctets(c)|))
  {
    assert c == c / 0x40000 * 0x40000 + c / 0x1000 % 0x40 * 0x1000 + c / 0x40 % 0x40 * 0x40 + c % 0x40;
  }

  lemma {:induction false} Utf8RoundTrip(s: Text)
    requires Utf8(s).Some?
    ensures FromUtf8(Utf8(s).value) == Some(s)
  {
    if s != [] {
      var (c, n) := HeadPoint(s).value;
      var rest := Utf8(s[n..]).value;
      HeadUnits(s);
      Utf8RoundTrip(s[n..]);
      if c < 0x800 { ShortPoint(c, rest); } else if c < 0x10000 { MiddlePoint(c, rest); } else { LongPoint(c, rest); }
      assert Utf8(s).value[|PointOctets(c)|..] == rest;
      assert s == s[..n] + s[n..];
    }
  }

  /** Exactly the texts without a lone surrogate can be encoded. */
  lemma {:induction false} EncodableIffWellFormed(s: Text)
    ensures Utf8(s).Some? <==> WellFormed(s)
  {
    if s != [] {
      if HeadPoint(s).Some? {
        var n := HeadPoint(s).value.1;
        EncodableIffWellFormed(s[n..]);
        WellFormedTail(s, n);
      } else {
        assert IsSurrogate(s[0]);
      }
    }
  }

  lemma WellFormedTail(s: Text, n: nat)
    requires s != [] && HeadPoint(s).Some? && n == HeadPoint(s).value.1
    ensures WellFormed(s) <==> WellFormed(s[n..])
  {
    var t := s[n..];
    if WellFormed(s) {
      forall i | 0 <= i < |t| ensures t[i] == s[i + n] {}
      assert WellFormed(t);
    }
    if WellFormed(t) {
      forall i | 0 <= i < |s|
        ensures IsLead(s[i]) ==> i + 1 < |s| && IsTrail(s[i + 1])
        ensures IsTrail(s[i]) ==> i > 0 && IsLead(s[i - 1])
      {
        if i >= n {
          assert t[i - n] == s[i];
          if i > n { assert t[i - n - 1] == s[i - 1]; }
          if i + 1 < |s| { assert t[i - n + 1] == s[i + 1]; }
        }
      }
    }
  }

  // ----- Percent-encoding

  /** Letters, digits and - _ . ! ~ * ' ( ) stand for themselves. */
  predicate Unreserved(o: Octet)
  {
    48 <= o <= 57 || 65 <= o <= 90 || 97 <= o <= 122 || o in {45, 95, 46, 33, 126, 42, 39, 40, 41}
  }

  function HexDigit(d: nat): CodeUnit
    requires d < 16
  {
    if d < 10 then 48 + d else 55 + d
  }

  function HexValue(c: CodeUnit): Option<nat>
  {
    if 48 <= c <= 57 then Some(c - 48) else if 65 <= c <= 70 then Some(c - 55) else None
  }

  function Percent(o: seq<Octet>): (t: Text)
    ensures 58 !in t
  {
    if o == [] then []
    else (if Unreserved(o[0]) then [o[0]] else [37, HexDigit(o[0] / 16), HexDigit(o[0] % 16)]) + Percent(o[1..])
  }

  function FromPercent(t: Text): Option<seq<Octet>>
  {
    if t == [] then Some([])
    else if t[0] != 37 then
      var rest := FromPercent(t[1..]);
      if t[0] >= 0x80 || rest.None? then None else Some([t[0]] + rest.value)
    else if |t| < 3 || HexValue(t[1]).None? || HexValue(t[2]).None? then None
    else
      var rest := FromPercent(t[3..]);
      if rest.None? then None else Some([HexValue(t[1]).value * 16 + HexValue(t[2]).value] + rest.value)
  }

  lemma {:induction false} PercentRoundTrip(o: seq<Octet>)
    ensures FromPercent(Percent(o)) == Some(o)
  {
    if o != [] {
      var t, rest := Percent(o), Percent(o[1..]);
      PercentRoundTrip(o[1..]);
      assert o == [o[0]] + o[1..];
      if Unreserved(o[0]) {
        assert t[1..] == rest;
      } else {
        assert t == [37, HexDigit(o[0] / 16), HexDigit(o[0] % 16)] + rest;
        assert t[3..] == rest;
        assert HexValue(t[1]).value * 16 + HexValue(t[2]).value == o[0];
      }
    }
  }

  // ----- The key

  function EncodeKeyPart(s: Text): Option<Text>
  {
    var o := Utf8(s);
    if o.None? then None else Some(Percent(o.value))
  }

  function DecodeKeyPart(t: Text): Option<Text>
  {
    var o := FromPercent(t);
    if o.None? then None else FromUtf8(o.value)
  }

  /** Encoding answers for exactly the well-formed texts, never emits a colon, and can be undone. */
  lemma KeyPartRoundTrip(s: Text)
    ensures EncodeKeyPart(s).Some? <==> WellFormed(s)
    ensures WellFormed(s) ==> 58 !in EncodeKeyPart(s).value && DecodeKeyPart(EncodeKeyPart(s).value) == Some(s)
  {
    EncodableIffWellFormed(s);
    if WellFormed(s) {
      Utf8RoundTrip(s);
      PercentRoundTrip(Utf8(s).value);
    }
  }

  /** keyPrefix, the encoded consumer, a colon and the encoded message id. */
  function ClaimKey(prefix: Text, consumer: Text, messageId: Text): Option<Text>
  {
    var c, m := EncodeKeyPart(consumer), EncodeKeyPart(messageId);
    if c.None? || m.None? then None else Some(prefix + (c.value + ([58] + m.value)))
  }

  lemma Utf8Cons(c: CodeUnit, s: Text)
    requires !IsSurrogate(c) && Utf8(s).Some?
    ensures Utf8([c] + s) == Some(PointOctets(c) + Utf8(s).value)
  {
    assert ([c] + s)[1..] == s;
  }

  lemma PercentCons(o: Octet, rest: seq<Octet>)
    ensures Percent([o] + rest)
         == (if Unreserved(o) then [o] else [37, HexDigit(o / 16), HexDigit(o % 16)]) + Percent(rest)
  {
    assert ([o] + rest)[1..] == rest;
  }

  /** A character from ASCII at the head of a part: it stays, or becomes a percent sign and two hexadecimal digits. */
  lemma AsciiHead(c: CodeUnit, s: Text)
    requires c < 128 && EncodeKeyPart(s).Some?
    ensures EncodeKeyPart([c] + s)
         == Some((if 48 <= c <= 57 || 65 <= c <= 90 || 97 <= c <= 122 || c in {33, 39, 40, 41, 42, 45, 46, 95, 126} then [c]
                  else [37, 48 + c / 16, if c % 16 < 10 then 48 + c % 16 else 55 + c % 16])
                 + EncodeKeyPart(s).value)
  {
    Utf8Cons(c, s);
    PercentCons(c, Utf8(s).value);
  }

  /** e with an acute accent takes two octets. */
  lemma AccentHead(s: Text)
    requires EncodeKeyPart(s).Some?
    ensures EncodeKeyPart([233] + s) == Some([37, 67, 51] + ([37, 65, 57] + EncodeKeyPart(s).value))
  {
    var o := Utf8(s).value;
    Utf8Cons(233, s);
    assert PointOctets(233) + o == [195] + ([169] + o);
    PercentCons(169, o);
    PercentCons(195, [169] + o);
  }

  /** The key of consumer `a/` and of the message that this letter names, under the prefix `p:`, is `p:a%2F:%C3%A9`. */
  lemma ClaimKeyExample(consumer: Text, messageId: Text)
    requires consumer == [97] + ([47] + []) && messageId == [233] + []
    ensures ClaimKey([112, 58], consumer, messageId) == Some([112, 58] + ([97, 37, 50, 70] + ([58] + [37, 67, 51, 37, 65, 57])))
  {
    AsciiHead(47, []);
    AsciiHead(97, [47] + []);
    AccentHead([]);
    assert [97] + ([37, 50, 70] + []) == [97 as CodeUnit, 37, 50, 70];
    assert [37, 67, 51] + ([37, 65, 57] + []) == [37 as CodeUnit, 67, 51, 37, 65, 57];
  }

  /** Different pairs have different keys, whatever characters they contain. */
  lemma ClaimKeyInjective(prefix: Text, consumer: Text, messageId: Text, consumer': Text, messageId': Text)
    requires ClaimKey(prefix, consumer, messageId).Some?
    requires ClaimKey(prefix, consumer, messageId) == ClaimKey(prefix, consumer', messageId')
    ensures consumer == consumer' && messageId == messageId'
  {
    var c, m := EncodeKeyPart(consumer).value, EncodeKeyPart(messageId).value;
    var c', m' := EncodeKeyPart(consumer').value, EncodeKeyPart(messageId').value;
    SamePrefix(prefix, c + ([58] + m), c' + ([58] + m'));
    KeyPartRoundTrip(consumer);
    KeyPartRoundTrip(consumer');
    KeyPartRoundTrip(messageId);
    KeyPartRoundTrip(messageId');
    CutUnique(c, c', 58, m, m');
  }
}
