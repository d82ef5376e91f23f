/**
 * What the word operations compute, as integers: words are binary numerals modulo 2^32, also read in two's complement
 * (sections 2.4 to 2.6 of the ISA manual, volume I).
 */
module Arithmetic {
  import opened Isa
  import opened Time

  const MAX: Word := 0xffff_ffff
  const MODULUS: nat := 0x1_0000_0000
  const MIDDLE: nat := 0x8000_0000

  function Half(x: Word): Word { x >> 1 }
  predicate Odd(x: Word) { x & 1 == 1 }
  function Next(x: Word): Word { x + 1 }
  function Prev(x: Word): Word { x - 1 }

  function Digit(b: bool): nat { if b then 1 else 0 }

  lemma HalfIsLess(x: Word)
    requires x != 0
    ensures Half(x) < x
  {
  }

  /** The word as a binary numeral. */
  function Unsigned(x: Word): nat
    decreases x
  {
    if x == 0 then 0
    else
      HalfIsLess(x);
      2 * Unsigned(Half(x)) + Digit(Odd(x))
  }

  /** The word in two's complement. */
  function Signed(x: Word): int {
    if Unsigned(x) < MIDDLE then Unsigned(x) else Unsigned(x) - MODULUS
  }

  // ---- Facts about the bits of a word ----

  lemma ZeroBits()
    ensures Half(0) == 0 && !Odd(0)
  {
  }

  lemma HalfLess(a: Word, b: Word)
    requires Less(Half(a), Half(b))
    ensures Less(a, b)
  {
  }

  lemma EvenLess(a: Word, b: Word)
    requires Half(a) == Half(b) && !Odd(a) && Odd(b)
    ensures Less(a, b)
  {
  }

  lemma SameHalves(a: Word, b: Word)
    requires Half(a) == Half(b) && (Odd(a) <==> Odd(b))
    ensures a == b
  {
  }

  lemma LessIsStrict(a: Word, b: Word)
    requires Less(a, b)
    ensures !Less(b, a) && a != b
  {
  }

  lemma NextOfEven(x: Word)
    requires !Odd(x)
    ensures Half(Next(x)) == Half(x) && Odd(Next(x))
  {
  }

  lemma NextOfOdd(x: Word)
    requires Odd(x) && x != MAX
    ensures Half(Next(x)) == Next(Half(x)) && !Odd(Next(x))
  {
  }

  lemma HalfIsNotMax(x: Word)
    ensures Half(x) != MAX
  {
  }

  lemma OddIsNotZero(x: Word)
    requires Odd(x)
    ensures x != 0
  {
  }

  lemma PrevIsLess(x: Word)
    requires x != 0
    ensures Prev(x) < x && Next(Prev(x)) == x && Prev(x) != MAX
  {
  }

  lemma MaxWraps()
    ensures Next(MAX) == 0
  {
  }

  lemma PlusShifts(a: Word, b: Word)
    ensures Plus(Next(a), Prev(b)) == Plus(a, b) && Plus(a, 0) == a
  {
    assert (a + 1) + (b - 1) == a + b;
  }

  lemma MinusShifts(a: Word, b: Word)
    ensures Minus(Prev(a), Prev(b)) == Minus(a, b) && Minus(a, 0) == a
  {
    assert (a - 1) - (b - 1) == a - b;
  }

  lemma ZeroWraps()
    ensures Prev(0) == MAX
  {
  }

  // ---- Numerals ----

  lemma Unfolds(x: Word)
    ensures Unsigned(x) == 2 * Unsigned(Half(x)) + if Odd(x) then 1 else 0
  {
    ZeroBits();
    hide Half, Odd;
  }

  lemma ZeroIsZero()
    ensures Unsigned(0) == 0
  {
  }

  /** Numerals are ordered as the words are. */
  lemma {:induction false} NumeralsOrder(a: Word, b: Word)
    ensures Unsigned(a) < Unsigned(b) ==> Less(a, b)
    ensures Unsigned(a) == Unsigned(b) ==> a == b
    ensures Unsigned(b) < Unsigned(a) ==> Less(b, a)
    decreases a, b
  {
    hide *;
    ZeroBits();
    ZeroIsZero();
    if a != 0 || b != 0 {
      if a != 0 {
        HalfIsLess(a);
      } else {
        HalfIsLess(b);
      }
      NumeralsOrder(Half(a), Half(b));
      Unfolds(a);
      Unfolds(b);
      if Unsigned(Half(a)) < Unsigned(Half(b)) {
        HalfLess(a, b);
      } else if Unsigned(Half(b)) < Unsigned(Half(a)) {
        HalfLess(b, a);
      } else if Odd(a) == Odd(b) {
        SameHalves(a, b);
      } else if Odd(b) {
        EvenLess(a, b);
      } else {
        EvenLess(b, a);
      }
    }
  }

  /** Comparing words is comparing their numerals. */
  lemma LessIsNumeric(a: Word, b: Word)
    ensures Less(a, b) <==> Unsigned(a) < Unsigned(b)
    ensures a == b <==> Unsigned(a) == Unsigned(b)
  {
    hide *;
    NumeralsOrder(a, b);
    if Less(a, b) {
      LessIsStrict(a, b);
    }
  }

  lemma {:induction false} NextIsSuccessor(x: Word)
    requires x != MAX
    ensures Unsigned(Next(x)) == Unsigned(x) + 1
    decreases x
  {
    hide *;
    Unfolds(x);
    Unfolds(Next(x));
    if Odd(x) {
      NextOfOdd(x);
      HalfIsNotMax(x);
      OddIsNotZero(x);
      HalfIsLess(x);
      NextIsSuccessor(Half(x));
    } else {
      NextOfEven(x);
    }
  }

  // ---- The range ----

  function Quarter(x: Word): Word { Half(Half(x)) }

  lemma FourBits(x: Word)
    ensures
      Unsigned(x)
      == 16 * Unsigned(Quarter(Quarter(x))) + Digit(Odd(x)) + 2 * Digit(Odd(Half(x))) + 4 * Digit(Odd(Quarter(x))) + 8 * Digit(Odd(Half(Quarter(x))))
  {
    Unfolds(x);
    Unfolds(Half(x));
    Unfolds(Quarter(x));
    Unfolds(Half(Quarter(x)));
    hide Unsigned, Half, Odd;
  }

  lemma AppendOnes(x: Word, y: Word)
    requires y >> 4 == x && y & 15 == 15
    ensures Unsigned(y) == 16 * Unsigned(x) + 15
  {
    FourBits(y);
    OnesBelow(y);
    FourHalves(y);
    hide Unsigned, Half, Odd;
  }

  lemma FourHalves(y: Word)
    ensures Quarter(Quarter(y)) == y >> 4
  {
  }

  lemma OnesBelow(y: Word)
    requires y & 15 == 15
    ensures Odd(y) && Odd(Half(y)) && Odd(Quarter(y)) && Odd(Half(Quarter(y)))
  {
  }

  lemma MaxIsGreatest()
    ensures Unsigned(MAX) == MODULUS - 1
  {
    ZeroIsZero();
    AppendOnes(0, 0xf);
    AppendOnes(0xf, 0xff);
    AppendOnes(0xff, 0xfff);
    AppendOnes(0xfff, 0xffff);
    AppendOnes(0xffff, 0xf_ffff);
    AppendOnes(0xf_ffff, 0xff_ffff);
    AppendOnes(0xff_ffff, 0xfff_ffff);
    AppendOnes(0xfff_ffff, 0xffff_ffff);
    hide Unsigned;
  }

  lemma NoneAboveMax(x: Word)
    ensures !Less(MAX, x)
  {
  }

  lemma InRange(x: Word)
    ensures Unsigned(x) < MODULUS
  {
    hide *;
    MaxIsGreatest();
    NoneAboveMax(x);
    LessIsNumeric(MAX, x);
    Sizes();
  }

  lemma Sizes()
    ensures MODULUS == 0x1_0000_0000 && MIDDLE == 0x8000_0000
  {
  }

  // ---- Sums and differences ----

  lemma WrapsOnce(s: int)
    ensures s % MODULUS == (s - MODULUS) % MODULUS
  {
  }

  /** Addition is addition modulo 2^32. */
  lemma {:induction false} PlusIsNumeric(a: Word, b: Word)
    ensures Unsigned(Plus(a, b)) == (Unsigned(a) + Unsigned(b)) % MODULUS
    decreases b
  {
    hide *;
    PlusShifts(a, b);
    InRange(a);
    Sizes();
    if b == 0 {
      ZeroIsZero();
    } else {
      PrevIsLess(b);
      PlusIsNumeric(Next(a), Prev(b));
      NextIsSuccessor(Prev(b));
      if a == MAX {
        MaxWraps();
        ZeroIsZero();
        MaxIsGreatest();
        WrapsOnce(Unsigned(a) + Unsigned(b));
      } else {
        NextIsSuccessor(a);
      }
    }
  }

  /** Subtraction is subtraction modulo 2^32. */
  lemma {:induction false} MinusIsNumeric(a: Word, b: Word)
    ensures Unsigned(Minus(a, b)) == (Unsigned(a) - Unsigned(b)) % MODULUS
    decreases b
  {
    hide *;
    MinusShifts(a, b);
    InRange(a);
    Sizes();
    ZeroIsZero();
    if b != 0 {
      PrevIsLess(b);
      MinusIsNumeric(Prev(a), Prev(b));
      NextIsSuccessor(Prev(b));
      if a == 0 {
        ZeroWraps();
        MaxIsGreatest();
        WrapsOnce(MODULUS - Unsigned(b));
      } else {
        PrevIsLess(a);
        NextIsSuccessor(Prev(a));
      }
    }
  }

  // ---- Two's complement ----

  lemma SignIsMiddle()
    ensures Unsigned(SIGN) == MIDDLE
  {
    Unfolds(1);
    ZeroIsZero();
    OneBits();
    AppendZeros(8, 0x80);
    AppendZeros(0x80, 0x800);
    AppendZeros(0x800, 0x8000);
    AppendZeros(0x8000, 0x8_0000);
    AppendZeros(0x8_0000, 0x80_0000);
    AppendZeros(0x80_0000, 0x800_0000);
    AppendZeros(0x800_0000, 0x8000_0000);
    Eight();
    hide Unsigned;
  }

  lemma OneBits()
    ensures Half(1) == 0 && Odd(1) && Half(2) == 1 && !Odd(2) && Half(4) == 2 && !Odd(4) && Half(8) == 4 && !Odd(8)
  {
  }

  lemma Eight()
    ensures Unsigned(8) == 8
  {
    OneBits();
    ZeroIsZero();
    Unfolds(8);
    Unfolds(4);
    Unfolds(2);
    Unfolds(1);
    hide Unsigned, Half, Odd;
  }

  lemma ZerosBelow(y: Word)
    requires y & 15 == 0
    ensures !Odd(y) && !Odd(Half(y)) && !Odd(Quarter(y)) && !Odd(Half(Quarter(y)))
  {
  }

  lemma AppendZeros(x: Word, y: Word)
    requires y >> 4 == x && y & 15 == 0
    ensures Unsigned(y) == 16 * Unsigned(x)
  {
    FourBits(y);
    ZerosBelow(y);
    FourHalves(y);
    hide Unsigned, Half, Odd;
  }

  lemma FlipIsSum(x: Word)
    ensures Flipped(x, SIGN) == Plus(x, SIGN)
  {
    assert x ^ 0x8000_0000 == x + 0x8000_0000;
  }

  /** Inverting the sign bit turns the two's complement order into the order of numerals. */
  lemma FlipIsNumeric(x: Word)
    ensures Unsigned(Flipped(x, SIGN)) == Signed(x) + MIDDLE
  {
    FlipIsSum(x);
    hide Flipped, Unsigned, Plus;
    PlusIsNumeric(x, SIGN);
    SignIsMiddle();
    InRange(x);
  }

  /** The signed comparison compares the two's complement readings. */
  lemma SignedLessIsNumeric(a: Word, b: Word)
    ensures SignedLess(a, b) <==> Signed(a) < Signed(b)
  {
    hide Less, Flipped, Signed, Unsigned;
    LessIsNumeric(Flipped(a, SIGN), Flipped(b, SIGN));
    FlipIsNumeric(a);
    FlipIsNumeric(b);
  }

  // ---- Shifts ----

  function Pow2(n: nat): (power: nat)
    ensures 0 < power
  {
    if n == 0 then 1 else 2 * Pow2(n - 1)
  }

  lemma Pow2Step(n: nat)
    ensures Pow2(n + 1) == 2 * Pow2(n)
  {
  }

  function ShiftedRight(x: Word, k: Word): Word
    requires k < 32
  {
    x >> k
  }

  function ShiftedLeft(x: Word, k: Word): Word
    requires k < 32
  {
    x << k
  }

  lemma ShiftRightStep(x: Word, k: Word)
    requires 0 < k < 32
    ensures Prev(k) < 32 && ShiftedRight(x, k) == Half(ShiftedRight(x, Prev(k)))
  {
  }

  function Twice(x: Word): Word { x << 1 }

  lemma ShiftLeftStep(x: Word, k: Word)
    requires 0 < k < 32
    ensures Prev(k) < 32 && ShiftedLeft(x, k) == Twice(ShiftedLeft(x, Prev(k)))
  {
  }

  lemma NoShift(x: Word)
    ensures ShiftedRight(x, 0) == x && ShiftedLeft(x, 0) == x
  {
  }

  lemma TwiceIsSum(x: Word)
    ensures Twice(x) == Plus(x, x)
  {
    assert x << 1 == x + x;
  }

  lemma HalfIsNumeric(x: Word)
    ensures Unsigned(Half(x)) == Unsigned(x) / 2
  {
    Unfolds(x);
    hide Unsigned, Half, Odd;
  }

  /** floor(floor(x / p) / 2) == floor(x / (2p)). */
  lemma HalvedQuotient(x: nat, p: nat)
    requires 0 < p
    ensures (x / p) / 2 == x / (2 * p)
  {
    var q, r := x / p, x % p;
    assert x == q * p + r;
    var h, b := q / 2, q % 2;
    assert q == 2 * h + b;
    assert q * p == h * (2 * p) + b * p;
    var rest := b * p + r;
    assert b == 0 || b == 1;
    assert 0 <= rest < 2 * p;
    DivUnique(x, 2 * p, h, rest);
  }

  /** A logical right shift divides by a power of two. */
  lemma {:induction false} ShiftRightIsNumeric(x: Word, k: Word)
    requires k < 32
    ensures Unsigned(ShiftedRight(x, k)) == Unsigned(x) / Pow2(Unsigned(k))
    decreases k
  {
    hide ShiftedRight, Half, Prev, Next, Unsigned;
    if k == 0 {
      assert Unsigned(x) / 1 == Unsigned(x);
      NoShift(x);
      ZeroIsZero();
    } else {
      ShiftRightStep(x, k);
      PrevIsLess(k);
      NextIsSuccessor(Prev(k));
      ShiftRightIsNumeric(x, Prev(k));
      Pow2Step(Unsigned(Prev(k)));
      HalfIsNumeric(ShiftedRight(x, Prev(k)));
      HalvedQuotient(Unsigned(x), Pow2(Unsigned(Prev(k))));
    }
  }

  lemma DoubledRemainder(u: nat, p: nat, y: nat)
    requires y == (u * p) % MODULUS
    ensures (y + y) % MODULUS == (u * (2 * p)) % MODULUS
  {
    var x := u * p;
    assert u * (2 * p) == x + x;
    RemainderOfDouble(x);
  }

  lemma RemainderOfDouble(x: nat)
    ensures ((x % MODULUS) + (x % MODULUS)) % MODULUS == (x + x) % MODULUS
  {
    var q, r := x / MODULUS, x % MODULUS;
    assert x == q * MODULUS + r;
    var h, s := (r + r) / MODULUS, (r + r) % MODULUS;
    assert r + r == h * MODULUS + s;
    DivUnique(x + x, MODULUS, 2 * q + h, s);
  }

  /** A left shift multiplies by a power of two, modulo 2^32. */
  lemma {:induction false} ShiftLeftIsNumeric(x: Word, k: Word)
    requires k < 32
    ensures Unsigned(ShiftedLeft(x, k)) == (Unsigned(x) * Pow2(Unsigned(k))) % MODULUS
    decreases k
  {
    hide *;
    if k == 0 {
      NoShift(x);
      ZeroIsZero();
      InRange(x);
      Sizes();
      Pow2OfZero();
      assert Unsigned(x) * 1 == Unsigned(x);
    } else {
      ShiftLeftStep(x, k);
      PrevIsLess(k);
      NextIsSuccessor(Prev(k));
      ShiftLeftIsNumeric(x, Prev(k));
      var y := ShiftedLeft(x, Prev(k));
      TwiceIsSum(y);
      PlusIsNumeric(y, y);
      Pow2Step(Unsigned(Prev(k)));
      DoubledRemainder(Unsigned(x), Pow2(Unsigned(Prev(k))), Unsigned(y));
    }
  }

  lemma Pow2OfZero()
    ensures Pow2(0) == 1
  {
  }

  lemma ComplementSum(x: Word)
    ensures Plus(x, Complement(x)) == MAX
  {
    assert x + !x == 0xffff_ffff;
  }

  lemma ComplementIsNumeric(x: Word)
    ensures Unsigned(Complement(x)) == MODULUS - 1 - Unsigned(x)
  {
    ComplementSum(x);
    hide Complement, Unsigned, Plus;
    PlusIsNumeric(x, Complement(x));
    MaxIsGreatest();
    InRange(x);
    InRange(Complement(x));
  }

  lemma LowFive(b: Word)
    ensures b & 31 < 32
  {
  }

  lemma SignBit(x: Word)
    ensures x & SIGN != 0 <==> !Less(x, SIGN)
  {
    assert x & 0x8000_0000 != 0 <==> !(x < 0x8000_0000);
  }

  lemma ShiftAmounts(x: Word, b: Word)
    requires b & 31 < 32
    ensures ShiftRight(x, b) == ShiftedRight(x, b & 31) && ShiftLeft(x, b) == ShiftedLeft(x, b & 31)
  {
  }

  /** Dividing -1 - n: rounding is towards minus infinity. */
  lemma FloorOfNegative(n: nat, p: nat)
    requires 0 < p
    ensures (-1 - n) / p == -1 - n / p
  {
    var q, r := n / p, n % p;
    assert n == q * p + r;
    assert -1 - n == (-1 - q) * p + (p - 1 - r);
    DivUnique(-1 - n, p, -1 - q, p - 1 - r);
  }

  lemma QuotientIsSmaller(n: nat, p: nat)
    requires 0 < p
    ensures n / p <= n
  {
    var q := n / p;
    assert n == q * p + n % p;
    MulMonotone(q, 1, p);
  }

  /** An arithmetic right shift divides the two's complement reading by a power of two, rounding down. */
  lemma ArithmeticShiftIsNumeric(x: Word, b: Word)
    ensures Signed(ShiftRightArithmetic(x, b)) == Signed(x) / Pow2(Unsigned(b & 31))
  {
    hide Complement, ShiftRight, ShiftLeft, ShiftedRight, Unsigned, Less, Pow2;
    LowFive(b);
    SignBit(x);
    LessIsNumeric(x, SIGN);
    SignIsMiddle();
    var p := Pow2(Unsigned(b & 31));
    if x & SIGN == 0 {
      ShiftAmounts(x, b);
      ShiftRightIsNumeric(x, b & 31);
      QuotientIsSmaller(Unsigned(x), p);
    } else {
      var y := Complement(x);
      ShiftAmounts(y, b);
      ComplementIsNumeric(x);
      ShiftRightIsNumeric(y, b & 31);
      ComplementIsNumeric(ShiftRight(y, b));
      QuotientIsSmaller(Unsigned(y), p);
      FloorOfNegative(Unsigned(y), p);
      InRange(x);
    }
  }

  // ---- The low bits of a word, and sign extension ----

  /** The mask of the n lowest bits. */
  predicate MaskOf(mask: Word, n: nat) {
    if n == 0 then mask == 0 else Odd(mask) && MaskOf(Half(mask), n - 1)
  }

  lemma MaskedHalf(x: Word, mask: Word)
    ensures Half(Masked(x, mask)) == Masked(Half(x), Half(mask))
  {
  }

  lemma MaskedLowest(x: Word, mask: Word)
    requires Odd(mask)
    ensures Odd(Masked(x, mask)) == Odd(x)
  {
  }

  lemma NothingMasked(x: Word)
    ensures Masked(x, 0) == 0
  {
  }

  lemma DoubledModulo(u: nat, p: nat, b: nat)
    requires 0 < p && b < 2
    ensures 2 * (u % p) + b == (2 * u + b) % (2 * p)
  {
    var q, r := u / p, u % p;
    assert u == q * p + r;
    assert 2 * u + b == q * (2 * p) + (2 * r + b);
    DivUnique(2 * u + b, 2 * p, q, 2 * r + b);
  }

  /** The n lowest bits are the remainder modulo 2^n. */
  lemma {:induction false} MaskedIsRemainder(x: Word, mask: Word, n: nat)
    requires MaskOf(mask, n)
    ensures Unsigned(Masked(x, mask)) == Unsigned(x) % Pow2(n)
    decreases n
  {
    hide Masked, Half, Odd, Unsigned, Pow2;
    if n == 0 {
      NothingMasked(x);
      ZeroIsZero();
      Pow2OfZero();
    } else {
      MaskedHalf(x, mask);
      MaskedLowest(x, mask);
      MaskedIsRemainder(Half(x), Half(mask), n - 1);
      Unfolds(x);
      Unfolds(Masked(x, mask));
      Pow2Step(n - 1);
      DoubledModulo(Unsigned(Half(x)), Pow2(n - 1), if Odd(x) then 1 else 0);
    }
  }

  /** A number below 2^bits in two's complement of that many bits. */
  function TwosComplement(n: nat, bits: nat): int
    requires 0 < bits
  {
    if n < Pow2(bits - 1) then n else n - Pow2(bits)
  }

  lemma ExtensionIsNumeric(x: Word, sign: Word, r: Word, bits: nat)
    requires 0 < bits < 32 && Unsigned(sign) == Pow2(bits - 1) <= MIDDLE && Unsigned(x) < Pow2(bits)
    requires r == if Less(x, sign) then x else Minus(Minus(x, sign), sign)
    ensures Signed(r) == TwosComplement(Unsigned(x), bits)
  {
    hide Less, Minus, Unsigned, Pow2;
    LessIsNumeric(x, sign);
    MinusIsNumeric(x, sign);
    MinusIsNumeric(Minus(x, sign), sign);
    Pow2Step(bits - 1);
    InRange(x);
  }

  lemma SmallNumerals()
    ensures Unsigned(0x80) == 0x80 && Unsigned(0x800) == 0x800 && Unsigned(0x1000) == 0x1000
    ensures Unsigned(0x8000) == 0x8000 && Unsigned(0x10_0000) == 0x10_0000
  {
    Eight();
    One();
    AppendZeros(8, 0x80);
    AppendZeros(0x80, 0x800);
    AppendZeros(0x800, 0x8000);
    AppendZeros(1, 0x10);
    AppendZeros(0x10, 0x100);
    AppendZeros(0x100, 0x1000);
    AppendZeros(0x1000, 0x1_0000);
    AppendZeros(0x1_0000, 0x10_0000);
    hide Unsigned;
  }

  lemma One()
    ensures Unsigned(1) == 1
  {
    OneBits();
    ZeroIsZero();
    Unfolds(1);
    hide Unsigned, Half, Odd;
  }

  lemma PowerTable()
    ensures Pow2(7) == 0x80 && Pow2(8) == 0x100 && Pow2(11) == 0x800 && Pow2(12) == 0x1000 && Pow2(13) == 0x2000
    ensures Pow2(15) == 0x8000 && Pow2(16) == 0x1_0000 && Pow2(20) == 0x10_0000 && Pow2(21) == 0x20_0000
  {
    Pow2Step(7);
    Pow2Step(8);
    Pow2Step(9);
    Pow2Step(10);
    Pow2Step(11);
    Pow2Step(12);
    Pow2Step(13);
    Pow2Step(14);
    Pow2Step(15);
    Pow2Step(16);
    Pow2Step(17);
    Pow2Step(18);
    Pow2Step(19);
    Pow2Step(20);
    assert Pow2(7) == 0x80;
    hide Pow2;
  }

  lemma Masks()
    ensures MaskOf(0xff, 8) && MaskOf(0xfff, 12) && MaskOf(0x1fff, 13) && MaskOf(0xffff, 16) && MaskOf(0x1f_ffff, 21) && MaskOf(31, 5) && MaskOf(3, 2)
  {
    assert MaskOf(3, 2);
    assert MaskOf(31, 5);
    assert MaskOf(0xf, 4);
    OnesAppend(0xf, 0xff, 4);
    OnesAppend(0xff, 0xfff, 8);
    OnesAppend(0xfff, 0xffff, 12);
    OnesAppend(0xffff, 0xf_ffff, 16);
    OneAppends(0xfff, 0x1fff, 12);
    OneAppends(0xf_ffff, 0x1f_ffff, 20);
  }

  lemma OneAppends(x: Word, y: Word, n: nat)
    requires MaskOf(x, n) && Half(y) == x && Odd(y)
    ensures MaskOf(y, n + 1)
  {
  }

  lemma OnesAppend(x: Word, y: Word, n: nat)
    requires MaskOf(x, n) && y >> 4 == x && y & 15 == 15
    ensures MaskOf(y, n + 4)
  {
    OnesBelow(y);
    FourHalves(y);
    hide Half, Odd, MaskOf;
    OneAppends(Half(Quarter(Half(y))), Half(Quarter(y)), n);
    OneAppends(Half(Quarter(y)), Quarter(y), n + 1);
    OneAppends(Quarter(y), Half(y), n + 2);
    OneAppends(Half(y), y, n + 3);
  }

  lemma ExtensionParts(x: Word, sign: Word)
    ensures FromSign(x, sign) == Minus(Flipped(x, sign), sign)
  {
    hide Minus, Flipped;
  }

  lemma SignIsSubtracted(x: Word, sign: Word)
    requires x & sign == sign
    ensures x ^ sign == x - sign
  {
  }

  lemma FlippedSign(x: Word, sign: Word)
    requires Masked(x, sign) == sign
    ensures Flipped(x, sign) == Minus(x, sign)
  {
    SignIsSubtracted(x, sign);
  }

  lemma SignIsAdded(x: Word, sign: Word)
    requires x & sign == 0
    ensures x ^ sign == x + sign
  {
  }

  lemma FlippedClear(x: Word, sign: Word)
    requires Masked(x, sign) == 0
    ensures Flipped(x, sign) == Plus(x, sign)
  {
    SignIsAdded(x, sign);
  }

  lemma PositiveExtension(x: Word, sign: Word)
    requires Masked(x, sign) == 0
    ensures FromSign(x, sign) == x
  {
    hide *;
    ExtensionParts(x, sign);
    FlippedClear(x, sign);
    PlusIsNumeric(x, sign);
    MinusIsNumeric(Plus(x, sign), sign);
    InRange(x);
    Restored(Unsigned(x), Unsigned(sign));
    LessIsNumeric(FromSign(x, sign), x);
  }

  lemma Restored(n: nat, m: nat)
    requires n < MODULUS
    ensures ((n + m) % MODULUS - m) % MODULUS == n
  {
  }

  /** The widths of immediates and narrow loads. */
  predicate Width(bits: nat) { bits == 8 || bits == 12 || bits == 13 || bits == 16 || bits == 21 }

  lemma SignBit8(x: Word)
    requires x & 0xff == x
    ensures if x < 0x80 then x & 0x80 == 0 else x & 0x80 == 0x80
  {
  }

  lemma SignCases8(x: Word)
    requires Masked(x, 0xff) == x
    ensures Masked(x, 0x80) == if Less(x, 0x80) then 0 else 0x80
  {
    SignBit8(x);
  }

  lemma SignBit12(x: Word)
    requires x & 0xfff == x
    ensures if x < 0x800 then x & 0x800 == 0 else x & 0x800 == 0x800
  {
  }

  lemma SignCases12(x: Word)
    requires Masked(x, 0xfff) == x
    ensures Masked(x, 0x800) == if Less(x, 0x800) then 0 else 0x800
  {
    SignBit12(x);
  }

  lemma SignBit13(x: Word)
    requires x & 0x1fff == x
    ensures if x < 0x1000 then x & 0x1000 == 0 else x & 0x1000 == 0x1000
  {
  }

  lemma SignCases13(x: Word)
    requires Masked(x, 0x1fff) == x
    ensures Masked(x, 0x1000) == if Less(x, 0x1000) then 0 else 0x1000
  {
    SignBit13(x);
  }

  lemma SignBit16(x: Word)
    requires x & 0xffff == x
    ensures if x < 0x8000 then x & 0x8000 == 0 else x & 0x8000 == 0x8000
  {
  }

  lemma SignCases16(x: Word)
    requires Masked(x, 0xffff) == x
    ensures Masked(x, 0x8000) == if Less(x, 0x8000) then 0 else 0x8000
  {
    SignBit16(x);
  }

  lemma SignBit21(x: Word)
    requires x & 0x1f_ffff == x
    ensures if x < 0x10_0000 then x & 0x10_0000 == 0 else x & 0x10_0000 == 0x10_0000
  {
  }

  lemma SignCases21(x: Word)
    requires Masked(x, 0x1f_ffff) == x
    ensures Masked(x, 0x10_0000) == if Less(x, 0x10_0000) then 0 else 0x10_0000
  {
    SignBit21(x);
  }

  lemma WordTable()
    ensures LowMask(8) == 0xff && LowMask(12) == 0xfff && LowMask(13) == 0x1fff && LowMask(16) == 0xffff && LowMask(21) == 0x1f_ffff
    ensures SignMask(8) == 0x80 && SignMask(12) == 0x800 && SignMask(13) == 0x1000 && SignMask(16) == 0x8000 && SignMask(21) == 0x10_0000
  {
  }

  lemma SignCases(x: Word, bits: nat)
    requires Width(bits) && Masked(x, LowMask(bits)) == x
    ensures Masked(x, SignMask(bits)) == if Less(x, SignMask(bits)) then 0 else SignMask(bits)
  {
    WordTable();
    hide Masked, LowMask, SignMask, Less;
    if bits == 8 {
      SignCases8(x);
    } else if bits == 12 {
      SignCases12(x);
    } else if bits == 13 {
      SignCases13(x);
    } else if bits == 16 {
      SignCases16(x);
    } else {
      SignCases21(x);
    }
  }

  lemma MaskedTwice(x: Word, mask: Word)
    ensures Masked(Masked(x, mask), mask) == Masked(x, mask)
  {
  }

  lemma WidthNumerals(bits: nat)
    requires Width(bits)
    ensures MaskOf(LowMask(bits), bits) && Unsigned(SignMask(bits)) == Pow2(bits - 1) <= MIDDLE
  {
    WordTable();
    Masks();
    SmallNumerals();
    PowerTable();
    hide LowMask, SignMask, MaskOf, Unsigned, Pow2;
  }

  lemma FromSignCases(x: Word, bits: nat)
    requires Width(bits) && Masked(x, LowMask(bits)) == x
    ensures FromSign(x, SignMask(bits)) == if Less(x, SignMask(bits)) then x else Minus(Minus(x, SignMask(bits)), SignMask(bits))
  {
    var sign := SignMask(bits);
    hide Masked, LowMask, SignMask, Less, FromSign, Flipped, Minus;
    SignCases(x, bits);
    if Less(x, sign) {
      PositiveExtension(x, sign);
    } else {
      FlippedSign(x, sign);
      ExtensionParts(x, sign);
    }
  }

  lemma ExtensionShape(v: Word, bits: nat)
    requires Width(bits)
    ensures 0 < bits < 32 && SignExtend(v, bits) == FromSign(Masked(v, LowMask(bits)), SignMask(bits))
  {
    hide FromSign, Masked, LowMask, SignMask;
  }

  /** Sign extension reads the low bits in two's complement. */
  lemma SignExtendIsNumeric(v: Word, bits: nat)
    requires Width(bits)
    ensures 0 < bits && Signed(SignExtend(v, bits)) == TwosComplement(Unsigned(v) % Pow2(bits), bits)
  {
    hide *;
    ExtensionShape(v, bits);
    var mask := LowMask(bits);
    var x := Masked(v, mask);
    WidthNumerals(bits);
    MaskedIsRemainder(v, mask, bits);
    MaskedTwice(v, mask);
    FromSignCases(x, bits);
    ExtensionIsNumeric(x, SignMask(bits), SignExtend(v, bits), bits);
  }

  // ---- The instructions ----

  lemma ShiftAmount(b: Word)
    ensures b & 31 < 32 && Unsigned(b & 31) == Unsigned(b) % 32
  {
    LowFive(b);
    Masks();
    hide MaskOf, Unsigned;
    MaskedIsRemainder(b, 31, 5);
    assert Pow2(5) == 32;
  }

  lemma TruthIsNumeric(b: bool)
    ensures Unsigned(AsWord(b)) == if b then 1 else 0
  {
    One();
    ZeroIsZero();
    hide Unsigned;
  }

  lemma ComputedShapes(a: Word, b: Word)
    ensures Computed(Add, a, b) == Plus(a, b) && Computed(Sub, a, b) == Minus(a, b) && Computed(Slt, a, b) == AsWord(SignedLess(a, b))
  {
    hide Plus, Minus, Less, SignedLess, ShiftLeft, ShiftRight, ShiftRightArithmetic, AsWord;
  }

  lemma ShiftShapes(a: Word, b: Word)
    ensures Computed(Sll, a, b) == ShiftLeft(a, b) && Computed(Srl, a, b) == ShiftRight(a, b) && Computed(Sra, a, b) == ShiftRightArithmetic(a, b)
  {
    hide Plus, Minus, Less, SignedLess, ShiftLeft, ShiftRight, ShiftRightArithmetic, AsWord;
  }

  lemma UnsignedLessShape(a: Word, b: Word)
    ensures Computed(Sltu, a, b) == AsWord(Less(a, b))
  {
    hide AsWord, Less;
  }

  lemma SumsAreNumeric(a: Word, b: Word)
    ensures Unsigned(Computed(Add, a, b)) == (Unsigned(a) + Unsigned(b)) % MODULUS
    ensures Unsigned(Computed(Sub, a, b)) == (Unsigned(a) - Unsigned(b)) % MODULUS
  {
    hide *;
    ComputedShapes(a, b);
    PlusIsNumeric(a, b);
    MinusIsNumeric(a, b);
  }

  lemma ComparisonsAreNumeric(a: Word, b: Word)
    ensures Unsigned(Computed(Slt, a, b)) == if Signed(a) < Signed(b) then 1 else 0
    ensures Unsigned(Computed(Sltu, a, b)) == if Unsigned(a) < Unsigned(b) then 1 else 0
  {
    hide *;
    ComputedShapes(a, b);
    SignedLessIsNumeric(a, b);
    TruthIsNumeric(SignedLess(a, b));
    UnsignedLessShape(a, b);
    LessIsNumeric(a, b);
    TruthIsNumeric(Less(a, b));
  }

  lemma ShiftsAreNumeric(a: Word, b: Word)
    ensures Unsigned(Computed(Sll, a, b)) == (Unsigned(a) * Pow2(Unsigned(b) % 32)) % MODULUS
    ensures Unsigned(Computed(Srl, a, b)) == Unsigned(a) / Pow2(Unsigned(b) % 32)
    ensures Signed(Computed(Sra, a, b)) == Signed(a) / Pow2(Unsigned(b) % 32)
  {
    hide *;
    ShiftShapes(a, b);
    ShiftAmount(b);
    ShiftAmounts(a, b);
    ShiftLeftIsNumeric(a, b & 31);
    ShiftRightIsNumeric(a, b & 31);
    ArithmeticShiftIsNumeric(a, b);
  }

  /**
   * The register operations in integers: sums and differences modulo 2^32, shifts as multiplication and as division that
   * rounds down, by the low five bits of the second operand, and the two comparisons.
   */
  lemma ComputedIsNumeric(op: Op, a: Word, b: Word)
    ensures
      var r := Computed(op, a, b);
      match op
      case Add => Unsigned(r) == (Unsigned(a) + Unsigned(b)) % MODULUS
      case Sub => Unsigned(r) == (Unsigned(a) - Unsigned(b)) % MODULUS
      case Sll => Unsigned(r) == (Unsigned(a) * Pow2(Unsigned(b) % 32)) % MODULUS
      case Srl => Unsigned(r) == Unsigned(a) / Pow2(Unsigned(b) % 32)
      case Sra => Signed(r) == Signed(a) / Pow2(Unsigned(b) % 32)
      case Slt => Unsigned(r) == if Signed(a) < Signed(b) then 1 else 0
      case Sltu => Unsigned(r) == if Unsigned(a) < Unsigned(b) then 1 else 0
      case _ => true
  {
    hide *;
    SumsAreNumeric(a, b);
    ComparisonsAreNumeric(a, b);
    ShiftsAreNumeric(a, b);
  }

  lemma TakenShapes(a: Word, b: Word)
    ensures Taken(Beq, a, b) == (a == b) && Taken(Bne, a, b) == (a != b)
    ensures Taken(Blt, a, b) == SignedLess(a, b) && Taken(Bge, a, b) == !SignedLess(a, b)
    ensures Taken(Bltu, a, b) == Less(a, b) && Taken(Bgeu, a, b) == !Less(a, b)
  {
    hide SignedLess, Less;
  }

  /** The branches compare the operands as integers. */
  lemma BranchesCompare(op: Op, a: Word, b: Word)
    ensures
      match op
      case Beq => Taken(op, a, b) == (Unsigned(a) == Unsigned(b))
      case Bne => Taken(op, a, b) == (Unsigned(a) != Unsigned(b))
      case Blt => Taken(op, a, b) == (Signed(a) < Signed(b))
      case Bge => Taken(op, a, b) == (Signed(b) <= Signed(a))
      case Bltu => Taken(op, a, b) == (Unsigned(a) < Unsigned(b))
      case Bgeu => Taken(op, a, b) == (Unsigned(b) <= Unsigned(a))
      case _ => true
  {
    hide *;
    TakenShapes(a, b);
    LessIsNumeric(a, b);
    SignedLessIsNumeric(a, b);
  }

  lemma AlignedIsNumeric(x: Word)
    ensures Aligned(x) <==> Unsigned(x) % 4 == 0
  {
    AlignedIsMasked(x);
    Masks();
    hide Aligned, MaskOf, Masked, Unsigned;
    MaskedIsRemainder(x, 3, 2);
    ZeroIsZero();
    LessIsNumeric(Masked(x, 3), 0);
    assert Pow2(2) == 4;
  }

  lemma AlignedIsMasked(x: Word)
    ensures Aligned(x) <==> Masked(x, 3) == 0
  {
  }

  lemma Four()
    ensures Unsigned(4) == 4
  {
    OneBits();
    One();
    Unfolds(4);
    Unfolds(2);
    hide Unsigned, Half, Odd;
  }

  lemma EvenPartIsNumeric(x: Word)
    ensures Unsigned(EvenPart(x)) == Unsigned(x) - Unsigned(x) % 2
  {
    EvenBits(x);
    Unfolds(x);
    Unfolds(EvenPart(x));
    hide Unsigned, Half, Odd, EvenPart;
  }

  lemma EvenBits(x: Word)
    ensures Half(EvenPart(x)) == Half(x) && !Odd(EvenPart(x))
  {
  }

  /** Where an instruction continues: the address after it, or the target of its jump. */
  function NextAddress(d: Decoded, pc: Word, a: Word, taken: bool): nat {
    if !taken then (Unsigned(pc) + 4) % MODULUS
    else if d.op == Jalr then
      var t := (Unsigned(a) + Unsigned(d.immediate)) % MODULUS;
      t - t % 2
    else (Unsigned(pc) + Unsigned(d.immediate)) % MODULUS
  }

  /** The address where an instruction continues, as a number. */
  lemma NextIsNumeric(d: Decoded, pc: Word, a: Word, taken: bool)
    ensures Unsigned(if taken then Target(d, pc, a) else Plus(pc, 4)) == NextAddress(d, pc, a, taken)
  {
    hide Unsigned, Plus, EvenPart;
    if !taken {
      Four();
      PlusIsNumeric(pc, 4);
    } else if d.op == Jalr {
      PlusIsNumeric(a, d.immediate);
      EvenPartIsNumeric(Plus(a, d.immediate));
    } else {
      PlusIsNumeric(pc, d.immediate);
    }
  }

  lemma ValuesAreNumeric(d: Decoded, pc: Word, a: Word, b: Word)
    ensures d.op == Lui ==> Value(d, pc, a, b) == d.immediate
    ensures d.op == Auipc ==> Unsigned(Value(d, pc, a, b)) == (Unsigned(pc) + Unsigned(d.immediate)) % MODULUS
    ensures d.op == Jal || d.op == Jalr ==> Unsigned(Value(d, pc, a, b)) == (Unsigned(pc) + 4) % MODULUS
    ensures
      d.op != Lui && d.op != Auipc && d.op != Jal && d.op != Jalr ==>
        Value(d, pc, a, b) == if RegisterForm(d.op).Some? then Computed(RegisterForm(d.op).value, a, d.immediate) else Computed(d.op, a, b)
  {
    hide Unsigned, Plus, Computed;
    if d.op == Auipc {
      PlusIsNumeric(pc, d.immediate);
    } else if d.op == Jal || d.op == Jalr {
      Four();
      PlusIsNumeric(pc, 4);
    }
  }

  lemma EvaluateShape(d: Decoded, pc: Word, a: Word, b: Word)
    ensures
      var next := if Taken(d.op, a, b) then Target(d, pc, a) else Plus(pc, 4);
      var e := Evaluate(d, pc, a, b);
      && (e.Ok? <==> Aligned(pc) && d.op != Ecall && d.op != Ebreak && Aligned(next))
      && (e.Ok? ==> e.value.nextPc == next && e.value.address == Plus(a, d.immediate) && e.value.value == Value(d, pc, a, b))
  {
    hide Taken, Target, Value, Plus, Aligned;
  }

  /**
   * An evaluated instruction in integers: the next address, the address of an access and the link value are computed
   * modulo 2^32, and it is refused exactly for system calls and for an address that is no multiple of four.
   */
  lemma EvaluateIsNumeric(d: Decoded, pc: Word, a: Word, b: Word)
    ensures
      var next := NextAddress(d, pc, a, Taken(d.op, a, b));
      var e := Evaluate(d, pc, a, b);
      && (e.Ok? <==> Unsigned(pc) % 4 == 0 && d.op != Ecall && d.op != Ebreak && next % 4 == 0)
      && (e.Ok? ==>
            && Unsigned(e.value.nextPc) == next
            && Unsigned(e.value.address) == (Unsigned(a) + Unsigned(d.immediate)) % MODULUS
            && (d.op == Jal || d.op == Jalr ==> Unsigned(e.value.value) == (Unsigned(pc) + 4) % MODULUS)
            && (d.op == Auipc ==> Unsigned(e.value.value) == (Unsigned(pc) + Unsigned(d.immediate)) % MODULUS)
            && (d.op == Lui ==> e.value.value == d.immediate)
            && (d.op != Lui && d.op != Auipc && d.op != Jal && d.op != Jalr ==>
                  e.value.value == if RegisterForm(d.op).Some? then Computed(RegisterForm(d.op).value, a, d.immediate) else Computed(d.op, a, b)))
  {
    hide *;
    var taken := Taken(d.op, a, b);
    EvaluateShape(d, pc, a, b);
    NextIsNumeric(d, pc, a, taken);
    PlusIsNumeric(a, d.immediate);
    ValuesAreNumeric(d, pc, a, b);
    AlignedIsNumeric(pc);
    AlignedIsNumeric(if taken then Target(d, pc, a) else Plus(pc, 4));
  }
}
