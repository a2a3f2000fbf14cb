/**
 The partition router's hash. JavaScript computes it with signed 32-bit operators (sections 7.1.6 and
 7.1.7 of ECMA-262); it refines arithmetic modulo 2^32.
 */
module Sharding {
  import opened Wrappers
  import opened JsText

  const WORD: int := 0x1_0000_0000

  const FNV_OFFSET_BASIS: int := 2166136261

  const FNV_PRIME: int := 16777619

  /** The inverse of the prime modulo 2^32. */
  const FNV_INVERSE: int := 899433627

  type Word = n: nat | n < WORD

  // ----- JavaScript's operators

  function ToUint32(x: int): Word { x % WORD }

  function ToInt32(x: int): int { if x % WORD >= 0x8000_0000 then x % WORD - WORD else x % WORD }

  /** Exclusive or of two natural numbers, bit by bit. */
  function Xor(a: nat, b: nat): nat
  {
    if a == 0 && b == 0 then 0 else 2 * Xor(a / 2, b / 2) + (a % 2 + b % 2) % 2
  }

  /** `a ^ b`: the bits of both operands as 32-bit two's complement, read as a signed number. */
  function BitwiseXor(a: int, b: int): int { ToInt32(Xor(ToUint32(ToInt32(a)), ToUint32(ToInt32(b)))) }

  /** `Math.imul(a, b)`. */
  function Imul(a: int, b: int): int { ToInt32(ToUint32(a) * ToUint32(b)) }

  /** `x >>> 0`. */
  function UnsignedShift0(x: int): Word { ToUint32(x) }

  // ----- Arithmetic modulo 2^32

  function Mix(h: Word, c: CodeUnit): Word { Xor(h, c) * FNV_PRIME % WORD }

  function HashFrom(h: Word, text: Text): Word
  {
    if text == [] then h else Mix(HashFrom(h, text[..|text| - 1]), text[|text| - 1])
  }

  lemma ModUnique(x: int, q: int, r: int)
    requires x == WORD * q + r && 0 <= r < WORD
    ensures x % WORD == r
  {}

  lemma ModTimes(a: int, b: int)
    ensures a % WORD * b % WORD == a * b % WORD
  {
    var q, r := a / WORD, a % WORD;
    var p := r * b;
    assert a * b == (WORD * q + r) * b == WORD * (q * b) + p;
    ModUnique(a * b, q * b + p / WORD, p % WORD);
  }

  lemma {:induction false} XorBound(a: nat, b: nat, bound: nat, n: nat)
    requires a < bound && b < bound && bound == Power(n)
    ensures Xor(a, b) < bound
    decreases n
  {
    if n > 0 {
      XorBound(a / 2, b / 2, bound / 2, n - 1);
    }
  }

  function Power(n: nat): nat { if n == 0 then 1 else 2 * Power(n - 1) }

  lemma XorBits(a: nat, b: nat)
    ensures Xor(a, b) / 2 == Xor(a / 2, b / 2) && Xor(a, b) % 2 == (a % 2 + b % 2) % 2
  {}

  lemma SameBits(x: nat, y: nat)
    requires x / 2 == y / 2 && x % 2 == y % 2
    ensures x == y
  {}

  lemma Parity(p: nat, q: nat)
    requires p < 2 && q < 2
    ensures ((p + q) % 2 + q) % 2 == p
  {}

  lemma LastBitUndone(a: nat, b: nat)
    ensures Xor(Xor(a, b), b) % 2 == a % 2
  {
    XorBits(a, b);
    XorBits(Xor(a, b), b);
    Parity(a % 2, b % 2);
  }

  lemma {:induction false} XorUndone(a: nat, b: nat)
    ensures Xor(Xor(a, b), b) == a
    decreases a + b
  {
    if a != 0 || b != 0 {
      XorUndone(a / 2, b / 2);
      XorBits(a, b);
      XorBits(Xor(a, b), b);
      LastBitUndone(a, b);
      SameBits(Xor(Xor(a, b), b), a);
    }
  }

  lemma {:induction false} XorCommutes(a: nat, b: nat)
    ensures Xor(a, b) == Xor(b, a)
    decreases a + b
  {
    if a != 0 || b != 0 {
      XorCommutes(a / 2, b / 2);
    }
  }

  lemma WordIsPower()
    ensures Power(32) == WORD
  {
    assert Power(8) == 256;
    assert Power(16) == 256 * Power(8);
    assert Power(24) == 256 * Power(16);
  }

  lemma XorIsWord(a: Word, b: Word)
    ensures Xor(a, b) < WORD
  {
    WordIsPower();
    XorBound(a, b, WORD, 32);
  }

  /** Going through the signed reading of a word loses nothing. */
  lemma SignedAndBack(x: int)
    ensures ToUint32(ToInt32(x)) == ToUint32(x)
  {
    if x % WORD >= 0x8000_0000 {
      ModUnique(x % WORD - WORD, -1, x % WORD);
    }
  }

  lemma SmallIsItself(x: Word)
    ensures ToUint32(x) == x
  {
    ModUnique(x, 0, x);
  }

  lemma XorRefines(h: Word, c: CodeUnit)
    ensures ToUint32(BitwiseXor(h, c)) == Xor(h, c)
  {
    SignedAndBack(h);
    SignedAndBack(c);
    SmallIsItself(h);
    SmallIsItself(c);
    XorIsWord(h, c);
    SignedAndBack(Xor(h, c));
    SmallIsItself(Xor(h, c));
  }

  lemma ImulRefines(a: int, b: int)
    ensures ToUint32(Imul(a, b)) == ToUint32(a) * ToUint32(b) % WORD
  {
    SignedAndBack(ToUint32(a) * ToUint32(b));
  }

  /** The loop body, with its signed intermediate values, is one step modulo 2^32. */
  lemma LoopBodyRefines(h: Word, c: CodeUnit)
    ensures UnsignedShift0(Imul(BitwiseXor(h, c), FNV_PRIME)) == Mix(h, c)
  {
    XorRefines(h, c);
    ImulRefines(BitwiseXor(h, c), FNV_PRIME);
    SmallIsItself(FNV_PRIME);
  }

  // ----- Each step can be undone

  function Unmix(h: Word, c: CodeUnit): nat { Xor(h * FNV_INVERSE % WORD, c) }

  lemma TimesInverse(x: Word)
    ensures x * FNV_PRIME % WORD * FNV_INVERSE % WORD == x
    ensures x * FNV_INVERSE % WORD * FNV_PRIME % WORD == x
  {
    ModTimes(x * FNV_PRIME, FNV_INVERSE);
    ModTimes(x * FNV_INVERSE, FNV_PRIME);
    assert FNV_PRIME * FNV_INVERSE == WORD * 3513497 + 1;
    ModUnique(x * FNV_PRIME * FNV_INVERSE, x * 3513497, x);
  }

  /** The step is a bijection of the running state, because the prime is odd. */
  lemma MixIsBijective(h: Word, c: CodeUnit)
    ensures Unmix(Mix(h, c), c) == h
    ensures Unmix(h, c) < WORD && Mix(Unmix(h, c), c) == h
  {
    XorIsWord(h, c);
    TimesInverse(Xor(h, c));
    XorUndone(h, c);
    var x := h * FNV_INVERSE % WORD;
    XorIsWord(x, c);
    XorUndone(x, c);
    TimesInverse(h);
  }

  /** Different code units take one state to different states. */
  lemma MixSeparates(h: Word, c: CodeUnit, d: CodeUnit)
    requires c != d
    ensures Mix(h, c) != Mix(h, d)
  {
    XorIsWord(h, c);
    XorIsWord(h, d);
    TimesInverse(Xor(h, c));
    TimesInverse(Xor(h, d));
    XorCommutes(h, c);
    XorCommutes(h, d);
    XorUndone(c, h);
    XorUndone(d, h);
  }

  /** Two states stay different, whatever text follows. */
  lemma {:induction false} StatesStayApart(g: Word, h: Word, text: Text)
    requires g != h
    ensures HashFrom(g, text) != HashFrom(h, text)
  {
    if text != [] {
      var before, c := text[..|text| - 1], text[|text| - 1];
      StatesStayApart(g, h, before);
      MixIsBijective(HashFrom(g, before), c);
      MixIsBijective(HashFrom(h, before), c);
    }
  }

  lemma {:induction false} HashAppend(h: Word, s: Text, t: Text)
    ensures HashFrom(h, s + t) == HashFrom(HashFrom(h, s), t)
  {
    if t == [] {
      assert s + t == s;
    } else {
      HashAppend(h, s, t[..|t| - 1]);
      assert (s + t)[..|s + t| - 1] == s + t[..|t| - 1];
    }
  }

  /** Texts that differ in exactly one code unit never collide. */
  lemma OneUnitNeverCollides(before: Text, c: CodeUnit, d: CodeUnit, after: Text)
    requires c != d
    ensures HashFrom(FNV_OFFSET_BASIS, before + [c] + after) != HashFrom(FNV_OFFSET_BASIS, before + [d] + after)
  {
    var h := HashFrom(FNV_OFFSET_BASIS, before);
    HashAppend(FNV_OFFSET_BASIS, before + [c], after);
    HashAppend(FNV_OFFSET_BASIS, before + [d], after);
    HashAppend(FNV_OFFSET_BASIS, before, [c]);
    HashAppend(FNV_OFFSET_BASIS, before, [d]);
    assert [c][..0] == [] && [d][..0] == [];
    assert HashFrom(h, [c]) == Mix(h, c) && HashFrom(h, [d]) == Mix(h, d);
    MixSeparates(h, c, d);
    StatesStayApart(Mix(h, c), Mix(h, d), after);
  }

  // ----- Values

  /** customer- */
  const CUSTOMER: Text := [99, 117, 115, 116, 111, 109, 101, 114, 45]

  type Bit = n: nat | n < 2

  datatype Byte = Byte(b7: Bit, b6: Bit, b5: Bit, b4: Bit, b3: Bit, b2: Bit, b1: Bit, b0: Bit)

  /** The number with these low eight bits. */
  function Number(high: nat, b: Byte): nat
  {
    256 * high + 128 * b.b7 + 64 * b.b6 + 32 * b.b5 + 16 * b.b4 + 8 * b.b3 + 4 * b.b2 + 2 * b.b1 + b.b0
  }

  function Differ(x: Bit, y: Bit): Bit { if x == y then 0 else 1 }

  function ByteXor(x: Byte, y: Byte): Byte
  {
    Byte(Differ(x.b7, y.b7), Differ(x.b6, y.b6), Differ(x.b5, y.b5), Differ(x.b4, y.b4),
         Differ(x.b3, y.b3), Differ(x.b2, y.b2), Differ(x.b1, y.b1), Differ(x.b0, y.b0))
  }

  lemma {:induction false} XorZero(a: nat)
    ensures Xor(a, 0) == a
  {
    if a > 0 {
      XorZero(a / 2);
    }
  }

  lemma Half(h: nat, i: Bit)
    ensures (2 * h + i) / 2 == h && (2 * h + i) % 2 == i
  {}

  lemma XorHalves(a: nat, b: nat, high: nat)
    requires Xor(a / 2, b / 2) == high
    ensures Xor(a, b) == 2 * high + (a % 2 + b % 2) % 2
  {}

  /** One bit more on both sides. */
  lemma XorPair(h: nat, k: nat, i: Bit, j: Bit, high: nat)
    requires Xor(h, k) == high
    ensures Xor(2 * h + i, 2 * k + j) == 2 * high + Differ(i, j)
  {
    Half(h, i);
    Half(k, j);
    XorHalves(2 * h + i, 2 * k + j, high);
  }

  /** The upper four bits of a byte, and the lower four. */
  lemma XorUpper(high: nat, x: Byte, y: Byte)
    ensures Xor(16 * high + 8 * x.b7 + 4 * x.b6 + 2 * x.b5 + x.b4, 8 * y.b7 + 4 * y.b6 + 2 * y.b5 + y.b4)
         == 16 * high + 8 * Differ(x.b7, y.b7) + 4 * Differ(x.b6, y.b6) + 2 * Differ(x.b5, y.b5) + Differ(x.b4, y.b4)
  {
    XorZero(high);
    XorFour(high, 0, high, x.b7, x.b6, x.b5, x.b4, y.b7, y.b6, y.b5, y.b4);
  }

  lemma XorFour(h: nat, k: nat, high: nat, x3: Bit, x2: Bit, x1: Bit, x0: Bit, y3: Bit, y2: Bit, y1: Bit, y0: Bit)
    requires Xor(h, k) == high
    ensures Xor(16 * h + 8 * x3 + 4 * x2 + 2 * x1 + x0, 16 * k + 8 * y3 + 4 * y2 + 2 * y1 + y0)
         == 16 * high + 8 * Differ(x3, y3) + 4 * Differ(x2, y2) + 2 * Differ(x1, y1) + Differ(x0, y0)
  {
    XorTwo(h, k, high, x3, x2, y3, y2);
    XorTwo(4 * h + 2 * x3 + x2, 4 * k + 2 * y3 + y2, 4 * high + 2 * Differ(x3, y3) + Differ(x2, y2), x1, x0, y1, y0);
  }

  lemma XorTwo(h: nat, k: nat, high: nat, x1: Bit, x0: Bit, y1: Bit, y0: Bit)
    requires Xor(h, k) == high
    ensures Xor(4 * h + 2 * x1 + x0, 4 * k + 2 * y1 + y0) == 4 * high + 2 * Differ(x1, y1) + Differ(x0, y0)
  {
    XorPair(h, k, x1, y1, high);
    XorPair(2 * h + x1, 2 * k + y1, x0, y0, 2 * high + Differ(x1, y1));
  }

  /** The higher bits are left alone. */
  lemma XorLow(high: nat, x: Byte, y: Byte)
    ensures Xor(Number(high, x), Number(0, y)) == Number(high, ByteXor(x, y))
  {
    XorUpper(high, x, y);
    XorFour(16 * high + 8 * x.b7 + 4 * x.b6 + 2 * x.b5 + x.b4, 8 * y.b7 + 4 * y.b6 + 2 * y.b5 + y.b4,
            16 * high + 8 * Differ(x.b7, y.b7) + 4 * Differ(x.b6, y.b6) + 2 * Differ(x.b5, y.b5) + Differ(x.b4, y.b4),
            x.b3, x.b2, x.b1, x.b0, y.b3, y.b2, y.b1, y.b0);
  }

  lemma MixNumber(high: nat, x: Byte, y: Byte, quotient: nat, next: Word)
    requires high < 0x100_0000 && Number(high, ByteXor(x, y)) * 16777619 == WORD * quotient + next
    ensures Mix(Number(high, x), Number(0, y)) == next
  {
    XorLow(high, x, y);
    ModUnique(Number(high, ByteXor(x, y)) * FNV_PRIME, quotient, next);
  }

  /** The state before a step, as high part and low byte, the code unit, and the quotient by 2^32 that the step drops. */
  datatype Round = Round(high: nat, low: Byte, unit: Byte, quotient: nat)

  function StateOf(r: Round): nat { Number(r.high, r.low) }

  predicate Leads(r: Round, next: nat)
  {
    r.high < 0x100_0000 && next < WORD && Number(r.high, ByteXor(r.low, r.unit)) * 16777619 == WORD * r.quotient + next
  }

  lemma RoundMixes(r: Round, next: Word)
    requires Leads(r, next)
    ensures StateOf(r) < WORD && Number(0, r.unit) < 256 && Mix(StateOf(r), Number(0, r.unit)) == next
  {
    MixNumber(r.high, r.low, r.unit, r.quotient, next);
  }

  /** The running values of the hash determine it. */
  lemma {:induction false} HashOfTrace(text: Text, running: seq<Word>)
    requires |running| == |text| + 1 && running[0] == FNV_OFFSET_BASIS
    requires forall k :: 0 <= k < |text| ==> Mix(running[k], text[k]) == running[k + 1]
    ensures HashFrom(FNV_OFFSET_BASIS, text) == running[|text|]
  {
    if text != [] {
      HashOfTrace(text[..|text| - 1], running[..|text|]);
    }
  }

  predicate RoundAt(text: Text, rounds: seq<Round>, running: seq<Word>, k: nat)
    requires k < |text| == |rounds| && |running| == |text| + 1
  {
    running[k] == StateOf(rounds[k]) && text[k] == Number(0, rounds[k].unit) && Leads(rounds[k], running[k + 1])
  }

  /** A hash computed on paper, step by step. */
  lemma HashOfRounds(text: Text, rounds: seq<Round>, running: seq<Word>)
    requires |rounds| == |text| && |running| == |text| + 1 && running[0] == 2166136261
    requires forall k :: 0 <= k < |text| ==> RoundAt(text, rounds, running, k)
    ensures HashFrom(FNV_OFFSET_BASIS, text) == running[|text|]
  {
    forall k | 0 <= k < |text| ensures Mix(running[k], text[k]) == running[k + 1] {
      assert RoundAt(text, rounds, running, k);
      RoundMixes(rounds[k], running[k + 1]);
    }
    HashOfTrace(text, running);
  }

  lemma HashOfA(text: Text)
    requires text == [97]
    ensures HashFrom(FNV_OFFSET_BASIS, text) == 3826002220
  {
    var rounds := [
      Round(8461469, Byte(1, 1, 0, 0, 0, 1, 0, 1), Byte(0, 1, 1, 0, 0, 0, 0, 1), 8461672)];
    var running: seq<Word> := [2166136261, 3826002220];
    forall k: nat | k < |text| ensures RoundAt(text, rounds, running, k) {}
    HashOfRounds(text, rounds, running);
  }

  lemma HashOfCustomer(text: Text)
    requires text == [99, 117, 115, 116, 111, 109, 101, 114, 45]
    ensures HashFrom(FNV_OFFSET_BASIS, text) == 2324885468
  {
    var rounds := [
      Round(8461469, Byte(1, 1, 0, 0, 0, 1, 0, 1), Byte(0, 1, 1, 0, 0, 0, 1, 1), 8461672),
      Round(15076396, Byte(0, 1, 0, 1, 0, 0, 1, 0), Byte(0, 1, 1, 1, 0, 1, 0, 1), 15076758),
      Round(4991361, Byte(0, 1, 1, 0, 0, 1, 0, 1), Byte(0, 1, 1, 1, 0, 0, 1, 1), 4991480),
      Round(16471605, Byte(1, 0, 1, 0, 0, 0, 1, 0), Byte(0, 1, 1, 1, 0, 1, 0, 0), 16472001),
      Round(8304319, Byte(1, 1, 1, 0, 0, 0, 1, 0), Byte(0, 1, 1, 0, 1, 1, 1, 1), 8304519),
      Round(438154, Byte(1, 1, 1, 1, 0, 1, 1, 1), Byte(0, 1, 1, 0, 1, 1, 0, 1), 438165),
      Round(2119472, Byte(0, 1, 1, 0, 1, 1, 1, 0), Byte(0, 1, 1, 0, 0, 1, 0, 1), 2119522),
      Round(16007329, Byte(0, 1, 0, 1, 0, 0, 0, 1), Byte(0, 1, 1, 1, 0, 0, 1, 0), 16007713),
      Round(10796458, Byte(0, 0, 0, 1, 1, 0, 0, 1), Byte(0, 0, 1, 0, 1, 1, 0, 1), 10796717)];
    var running: seq<Word> := [2166136261, 3859557458, 1277788517, 4216731042, 2125905890, 112167671, 542584942, 4097876305, 2763893273, 2324885468];
    forall k: nat | k < |text| ensures RoundAt(text, rounds, running, k) {}
    HashOfRounds(text, rounds, running);
  }

  lemma OneMore(before: Text, r: Round, next: Word, text: Text)
    requires HashFrom(FNV_OFFSET_BASIS, before) == StateOf(r) && Leads(r, next) && text == before + [Number(0, r.unit)]
    ensures HashFrom(FNV_OFFSET_BASIS, text) == next
  {
    RoundMixes(r, next);
    assert text[..|before|] == before;
  }

  /** The last letter decides. */
  lemma HashOfLetters(before: Text, letter: CodeUnit, text: Text)
    requires HashFrom(FNV_OFFSET_BASIS, before) == 2324885468 && text == before + [letter]
    ensures letter == 97 ==> HashFrom(FNV_OFFSET_BASIS, text) == 3796854407
    ensures letter == 98 ==> HashFrom(FNV_OFFSET_BASIS, text) == 3813632026
    ensures letter == 99 ==> HashFrom(FNV_OFFSET_BASIS, text) == 3830409645
  {
    if letter == 97 {
      OneMore(before, Round(9081583, Byte(1, 1, 0, 1, 1, 1, 0, 0), Byte(0, 1, 1, 0, 0, 0, 0, 1), 9081801), 3796854407, text);
    } else if letter == 98 {
      OneMore(before, Round(9081583, Byte(1, 1, 0, 1, 1, 1, 0, 0), Byte(0, 1, 1, 0, 0, 0, 1, 0), 9081801), 3813632026, text);
    } else if letter == 99 {
      OneMore(before, Round(9081583, Byte(1, 1, 0, 1, 1, 1, 0, 0), Byte(0, 1, 1, 0, 0, 0, 1, 1), 9081801), 3830409645, text);
    }
  }

  /** The loop as JavaScript runs it. */
  method Hash(value: Text) returns (result: Word)
    ensures result == HashFrom(FNV_OFFSET_BASIS, value)
    ensures value == [] ==> result == 2166136261
    ensures value == [97] ==> result == 3826002220
    ensures value == CUSTOMER + [97] ==> result == 3796854407
    ensures value == CUSTOMER + [98] ==> result == 3813632026
    ensures value == CUSTOMER + [99] ==> result == 3830409645
  {
    result := FNV_OFFSET_BASIS;
    var index := 0;
    while index < |value|
      invariant 0 <= index <= |value| && result == HashFrom(FNV_OFFSET_BASIS, value[..index])
    {
      LoopBodyRefines(result, value[index]);
      assert value[..index + 1][..index] == value[..index];
      result := UnsignedShift0(Imul(BitwiseXor(result, value[index]), FNV_PRIME));
      index := index + 1;
    }
    assert value[..|value|] == value;
    if value == [97] {
      HashOfA(value);
    }
    if |value| == 10 && value[..9] == CUSTOMER {
      HashOfCustomer(value[..9]);
      HashOfLetters(value[..9], value[9], value);
    }
  }

  // ----- The router

  predicate ValidPartitionIds(ids: seq<Text>)
  {
    && |ids| >= 2
    && (forall i :: 0 <= i < |ids| ==> ids[i] != [])
    && (forall i, j :: 0 <= i < j < |ids| ==> ids[i] != ids[j])
  }

  datatype Router = Router(partitions: seq<Text>)

  function Elements(ids: seq<Text>): set<Text> { set id | id in ids }

  /** Comparing the size of the set of ids with their number finds every repetition. */
  lemma {:induction false} SizeShowsRepetition(ids: seq<Text>)
    ensures |Elements(ids)| <= |ids|
    ensures |Elements(ids)| == |ids| <==> forall i, j :: 0 <= i < j < |ids| ==> ids[i] != ids[j]
  {
    if ids != [] {
      var before, last := ids[..|ids| - 1], ids[|ids| - 1];
      SizeShowsRepetition(before);
      if last in before {
        assert Elements(ids) == Elements(before);
      } else {
        assert Elements(ids) == Elements(before) + {last};
      }
    }
  }

  /** `None` stands for anything but an array of strings. The router keeps its own copy of the ids. */
  function CreateRouter(ids: Option<seq<Text>>): (r: Option<Router>)
    ensures r.Some? <==> ids.Some? && ValidPartitionIds(ids.value)
    ensures r.Some? ==> r.value.partitions == ids.value
  {
    if ids.None? || |ids.value| < 2 || [] in ids.value then None
    else
      SizeShowsRepetition(ids.value);
      if |Elements(ids.value)| != |ids.value| then None else Some(Router(ids.value))
  }

  /** A customer's orders always go to the same configured partition; `None` stands for a missing or malformed customer id. */
  method Route(router: Router, customerId: Option<Text>) returns (partition: Option<Text>)
    requires ValidPartitionIds(router.partitions)
    ensures partition.None? <==> customerId.None? || customerId.value == []
    ensures partition.Some? ==>
              && partition.value in router.partitions
              && partition.value == router.partitions[HashFrom(FNV_OFFSET_BASIS, customerId.value) % |router.partitions|]
    ensures |router.partitions| == 3 && customerId == Some(CUSTOMER + [97]) ==> partition == Some(router.partitions[2])
    ensures |router.partitions| == 3 && customerId == Some(CUSTOMER + [98]) ==> partition == Some(router.partitions[1])
    ensures |router.partitions| == 3 && customerId == Some(CUSTOMER + [99]) ==> partition == Some(router.partitions[0])
  {
    if customerId.None? || customerId.value == [] {
      return None;
    }
    var h := Hash(customerId.value);
    partition := Some(router.partitions[h % |router.partitions|]);
  }
}
