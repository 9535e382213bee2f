// Single bits of 32-bit masks, and the population count of src/basics/IdentitySet.js.
module BitMasks {

  predicate Odd(v: bv32) { v & 1 == 1 }

  function Half(v: bv32): bv32 { v >> 1 }

  function Double(v: bv32): bv32 { v << 1 }

  function Or(a: bv32, b: bv32): bv32 { a | b }

  function And(a: bv32, b: bv32): bv32 { a & b }

  function AndNot(a: bv32, b: bv32): bv32 { a & !b }

  /** Bit i of a mask. */
  predicate Bit(v: bv32, i: nat) {
    if i == 0 then Odd(v) else Bit(Half(v), i - 1)
  }

  /** The mask has no bits from n on. */
  predicate Below(v: bv32, n: nat) {
    if n == 0 then v == 0 else Below(Half(v), n - 1)
  }

  /** `1 << i`, shifting one place at a time as the source's `run` does. */
  function MaskAt(i: nat): bv32 {
    if i == 0 then 1 else Double(MaskAt(i - 1))
  }

  lemma {:induction false} MaskIsShift(i: nat)
    requires i < 32
    ensures MaskAt(i) == (1 as bv32) << i
  {
    if i > 0 {
      MaskIsShift(i - 1);
      NextShift(i - 1);
    }
  }

  lemma NextShift(i: nat)
    requires i < 31
    ensures ((1 as bv32) << i) << 1 == (1 as bv32) << (i + 1)
  {
  }

  lemma ShiftBound(i: nat)
    requires i < 31
    ensures 0 < (1 as bv32) << i < 0x80000000
  {
  }

  /** There is room for one more shift. */
  lemma MaskBound(i: nat)
    requires i < 31
    ensures 0 < MaskAt(i) < 0x80000000
  {
    MaskIsShift(i);
    ShiftBound(i);
  }

  // ----- Single bits -----

  lemma TestHalf(v: bv32, m: bv32)
    requires m < 0x80000000
    ensures And(v, Double(m)) != 0 <==> And(Half(v), m) != 0
  {
  }

  lemma LowBit(v: bv32)
    ensures And(v, 1) != 0 <==> Odd(v)
  {
  }

  /** `(value & run) !== 0` tests a bit. */
  lemma {:induction false} MaskTest(v: bv32, i: nat)
    requires i < 32
    ensures And(v, MaskAt(i)) != 0 <==> Bit(v, i)
  {
    if i == 0 {
      LowBit(v);
    } else {
      MaskBound(i - 1);
      TestHalf(v, MaskAt(i - 1));
      hide And, Half, Odd, Double;
      MaskTest(Half(v), i - 1);
    }
  }

  lemma ShiftBack(m: bv32)
    requires m < 0x80000000
    ensures Half(Double(m)) == m && !Odd(Double(m))
  {
  }

  lemma Zero()
    ensures Half(0) == 0 && !Odd(0) && Half(1) == 0 && Odd(1) && Or(0, 0) == 0 && forall b :: And(0, b) == 0 && AndNot(0, b) == 0
  {
  }

  lemma {:induction false} MaskBit(i: nat, j: nat)
    requires i < 32
    ensures Bit(MaskAt(i), j) <==> i == j
  {
    Zero();
    if i == 0 {
      hide Half, Odd;
      if j > 0 { ZeroBit(j - 1); }
    } else {
      MaskBound(i - 1);
      ShiftBack(MaskAt(i - 1));
      hide Half, Odd, Double;
      if j > 0 { MaskBit(i - 1, j - 1); }
    }
  }

  lemma {:induction false} ZeroBit(i: nat)
    ensures !Bit(0, i)
  {
    Zero();
    hide Half, Odd;
    if i > 0 { ZeroBit(i - 1); }
  }

  lemma HalfOr(a: bv32, b: bv32)
    ensures Half(Or(a, b)) == Or(Half(a), Half(b))
  {
  }

  lemma HalfAnd(a: bv32, b: bv32)
    ensures Half(And(a, b)) == And(Half(a), Half(b))
  {
  }

  lemma HalfAndNot(a: bv32, b: bv32)
    ensures Half(AndNot(a, b)) == AndNot(Half(a), Half(b))
  {
  }

  lemma OddOr(a: bv32, b: bv32)
    ensures Odd(Or(a, b)) <==> Odd(a) || Odd(b)
  {
  }

  lemma OddAnd(a: bv32, b: bv32)
    ensures Odd(And(a, b)) <==> Odd(a) && Odd(b)
  {
  }

  lemma OddAndNot(a: bv32, b: bv32)
    ensures Odd(AndNot(a, b)) <==> Odd(a) && !Odd(b)
  {
  }

  /** The operators work bit by bit. */
  lemma {:induction false} OperatorBits(a: bv32, b: bv32, i: nat)
    ensures Bit(Or(a, b), i) <==> Bit(a, i) || Bit(b, i)
    ensures Bit(And(a, b), i) <==> Bit(a, i) && Bit(b, i)
    ensures Bit(AndNot(a, b), i) <==> Bit(a, i) && !Bit(b, i)
    decreases i
  {
    hide Half, Odd, Or, And, AndNot;
    OddOr(a, b);
    OddAnd(a, b);
    OddAndNot(a, b);
    HalfOr(a, b);
    HalfAnd(a, b);
    HalfAndNot(a, b);
    if i > 0 { OperatorBits(Half(a), Half(b), i - 1); }
  }

  lemma SameHalf(a: bv32, b: bv32)
    requires Odd(a) == Odd(b) && Half(a) == Half(b)
    ensures a == b
  {
  }

  /** Masks with the same bits are the same. */
  lemma {:induction false} SameBits(a: bv32, b: bv32, n: nat)
    requires Below(a, n) && Below(b, n) && forall i | 0 <= i < n :: Bit(a, i) == Bit(b, i)
    ensures a == b
  {
    if n > 0 {
      hide Half, Odd;
      assert Bit(a, 0) == Bit(b, 0);
      forall i: nat | i < n - 1
        ensures Bit(Half(a), i) == Bit(Half(b), i)
      {
        assert Bit(a, i + 1) == Bit(b, i + 1);
      }
      SameBits(Half(a), Half(b), n - 1);
      SameHalf(a, b);
    }
  }

  /** Below n there are only the first n bits. */
  lemma {:induction false} BelowBit(v: bv32, n: nat, i: nat)
    requires Below(v, n) && Bit(v, i)
    ensures i < n
    decreases n
  {
    hide Half, Odd;
    if n == 0 {
      ZeroBit(i);
    } else if i > 0 {
      BelowBit(Half(v), n - 1, i - 1);
    }
  }

  lemma {:induction false} BelowOperators(a: bv32, b: bv32, n: nat)
    ensures Below(a, n) && Below(b, n) ==> Below(Or(a, b), n)
    ensures Below(a, n) ==> Below(And(a, b), n) && Below(AndNot(a, b), n)
    decreases n
  {
    hide Half, Odd, Or, And, AndNot;
    Zero();
    HalfOr(a, b);
    HalfAnd(a, b);
    HalfAndNot(a, b);
    if n > 0 { BelowOperators(Half(a), Half(b), n - 1); }
  }

  lemma {:induction false} BelowMask(i: nat, n: nat)
    requires i < n && i < 32
    ensures Below(MaskAt(i), n)
  {
    Zero();
    if i == 0 {
      hide Half;
      BelowZero(n - 1);
    } else {
      MaskBound(i - 1);
      ShiftBack(MaskAt(i - 1));
      hide Half, Double;
      BelowMask(i - 1, n - 1);
    }
  }

  lemma {:induction false} BelowZero(n: nat)
    ensures Below(0, n)
  {
    Zero();
    hide Half;
    if n > 0 { BelowZero(n - 1); }
  }

  // ----- The population count -----

  function Pairs(v: bv32): bv32 { v - ((v >> 1) & 0x55555555) }

  function Nibbles(v: bv32): bv32 { (v & 0x33333333) + ((v >> 2) & 0x33333333) }

  function Bytes(v: bv32): bv32 { (v + (v >> 4)) & 0x0F0F0F0F }

  function Top(v: bv32): bv32 { (v * 0x01010101) >> 24 }

  /** The `length` getter with a product that wraps. */
  function Length(v: bv32): bv32 {
    Top(Bytes(Nibbles(Pairs(v))))
  }

  /** The ones in the low eight bits, as a 32-bit sum. */
  function ByteOnes(v: bv32): bv32 {
    (v & 1) + ((v >> 1) & 1) + ((v >> 2) & 1) + ((v >> 3) & 1) + ((v >> 4) & 1) + ((v >> 5) & 1) + ((v >> 6) & 1) + ((v >> 7) & 1)
  }

  function NextByte(v: bv32): bv32 { v >> 8 }

  lemma ByteField0(v: bv32)
    ensures Bytes(Nibbles(Pairs(v))) & 255 == ByteOnes(v) <= 8
  {
  }

  lemma ByteField1(v: bv32)
    ensures (Bytes(Nibbles(Pairs(v))) >> 8) & 255 == ByteOnes(NextByte(v)) <= 8
  {
  }

  lemma ByteField2(v: bv32)
    ensures (Bytes(Nibbles(Pairs(v))) >> 16) & 255 == ByteOnes(NextByte(NextByte(v))) <= 8
  {
  }

  lemma ByteField3(v: bv32)
    ensures (Bytes(Nibbles(Pairs(v))) >> 24) & 255 == ByteOnes(NextByte(NextByte(NextByte(v)))) <= 8
  {
  }

  lemma TopField(v: bv32)
    requires v & 255 <= 8 && (v >> 8) & 255 <= 8 && (v >> 16) & 255 <= 8 && (v >> 24) & 255 <= 8
    ensures Top(v) == SumOf(v & 255, (v >> 8) & 255, (v >> 16) & 255, (v >> 24) & 255)
  {
  }

  /** The count is the sum of the ones in the four bytes. */
  lemma LengthIsByteOnes(v: bv32)
    ensures Length(v) == SumOf(ByteOnes(v), ByteOnes(NextByte(v)), ByteOnes(NextByte(NextByte(v))), ByteOnes(NextByte(NextByte(NextByte(v)))))
  {
    ByteField0(v);
    ByteField1(v);
    ByteField2(v);
    ByteField3(v);
    hide ByteOnes, Pairs, Nibbles, Bytes, Top, SumOf, NextByte;
    TopField(Bytes(Nibbles(Pairs(v))));
  }

  /** How many of the first n bits are set. */
  function Ones(v: bv32, n: nat): nat {
    if n == 0 then 0 else (if Odd(v) then 1 else 0) + Ones(Half(v), n - 1)
  }

  lemma AddAsInt(a: bv32, b: bv32)
    requires a <= 20 && b <= 20
    ensures Add(a, b) as int == a as int + b as int
  {
  }

  lemma AddBound(a: bv32, b: bv32, n: bv32)
    requires a <= n && b <= n && n <= 20
    ensures Add(a, b) <= n + n
  {
  }

  /** A sum of four small numbers does not overflow. */
  lemma SumAsInt(a: bv32, b: bv32, c: bv32, d: bv32)
    requires a <= 8 && b <= 8 && c <= 8 && d <= 8
    ensures SumOf(a, b, c, d) as int == a as int + b as int + c as int + d as int
  {
    hide Add;
    AddBound(a, b, 8);
    AddBound(c, d, 8);
    AddAsInt(a, b);
    AddAsInt(c, d);
    AddAsInt(Add(a, b), Add(c, d));
  }

  lemma SumBound(a: bv32, b: bv32, c: bv32, d: bv32)
    requires a <= 1 && b <= 1 && c <= 1 && d <= 1
    ensures SumOf(a, b, c, d) <= 4
  {
  }

  /** Bit i as a number. */
  function Digit(v: bv32): bv32 { v & 1 }

  lemma LowBitAsInt(v: bv32)
    ensures Digit(v) <= 1 && Digit(v) as int == if Odd(v) then 1 else 0
  {
  }

  function Add(a: bv32, b: bv32): bv32 { a + b }

  function SumOf(a: bv32, b: bv32, c: bv32, d: bv32): bv32 {
    Add(Add(a, b), Add(c, d))
  }

  lemma ByteDigits(v: bv32)
    ensures ByteOnes(v) == Add(SumOf(Digit(v), Digit(Half(v)), Digit(Half(Half(v))), Digit(Half(Half(Half(v))))),
                               SumOf(Digit(Half(Half(Half(Half(v))))), Digit(Half(Half(Half(Half(Half(v)))))),
                                     Digit(Half(Half(Half(Half(Half(Half(v))))))), Digit(Half(Half(Half(Half(Half(Half(Half(v))))))))))
    ensures NextByte(v) == Half(Half(Half(Half(Half(Half(Half(Half(v))))))))
  {
  }

  lemma OnesStep(v: bv32, n: nat)
    requires n > 0
    ensures Digit(v) <= 1 && Ones(v, n) == Digit(v) as int + Ones(Half(v), n - 1)
  {
    LowBitAsInt(v);
  }

  /** The first eight bits and the rest. */
  lemma {:induction false} OnesByte(v: bv32, n: nat)
    requires n >= 8
    ensures Ones(v, n) == ByteOnes(v) as int + Ones(NextByte(v), n - 8)
  {
    hide Half, Digit, Odd, ByteOnes, Ones, Add, SumOf, NextByte;
    ByteDigits(v);
    var v1 := Half(v);
    var v2 := Half(v1);
    var v3 := Half(v2);
    var v4 := Half(v3);
    var v5 := Half(v4);
    var v6 := Half(v5);
    var v7 := Half(v6);
    OnesStep(v, n);
    OnesStep(v1, n - 1);
    OnesStep(v2, n - 2);
    OnesStep(v3, n - 3);
    OnesStep(v4, n - 4);
    OnesStep(v5, n - 5);
    OnesStep(v6, n - 6);
    OnesStep(v7, n - 7);
    SumAsInt(Digit(v), Digit(v1), Digit(v2), Digit(v3));
    SumAsInt(Digit(v4), Digit(v5), Digit(v6), Digit(v7));
    SumBound(Digit(v), Digit(v1), Digit(v2), Digit(v3));
    SumBound(Digit(v4), Digit(v5), Digit(v6), Digit(v7));
    AddAsInt(SumOf(Digit(v), Digit(v1), Digit(v2), Digit(v3)), SumOf(Digit(v4), Digit(v5), Digit(v6), Digit(v7)));
  }

  lemma ByteBound(v: bv32)
    ensures ByteOnes(v) <= 8
  {
  }

  /** The population count counts the bits. */
  lemma LengthCounts(v: bv32)
    ensures Length(v) as int == Ones(v, 32)
  {
    hide Length, ByteOnes, Half, Odd, SumOf, NextByte;
    LengthIsByteOnes(v);
    var w1 := NextByte(v);
    var w2 := NextByte(w1);
    var w3 := NextByte(w2);
    ByteBound(v);
    ByteBound(w1);
    ByteBound(w2);
    ByteBound(w3);
    SumAsInt(ByteOnes(v), ByteOnes(w1), ByteOnes(w2), ByteOnes(w3));
    OnesByte(v, 32);
    OnesByte(w1, 24);
    OnesByte(w2, 16);
    OnesByte(w3, 8);
    assert Ones(NextByte(w3), 0) == 0;
  }

  // ----- The product of the source -----

  /** What a shift does with a number: its low 32 bits, as a signed integer. */
  function ToInt32(x: int): int {
    var r := x % 0x1_0000_0000;
    if r >= 0x8000_0000 then r - 0x1_0000_0000 else r
  }

  /** The product, which is a number of double precision. */
  function Product(v: bv32): int {
    Bytes(Nibbles(Pairs(v))) as int * 0x0101_0101
  }

  /** The `length` getter: the product is cut to 32 bits only by the shift, which keeps the sign. */
  function LengthGetter(v: bv32): int {
    ToInt32(Product(v)) / 0x100_0000
  }

  function Byte0(v: bv32): bv32 { v & 255 }

  function Byte1(v: bv32): bv32 { (v >> 8) & 255 }

  function Byte2(v: bv32): bv32 { (v >> 16) & 255 }

  function Byte3(v: bv32): bv32 { (v >> 24) & 255 }

  function Joined(a: bv32, b: bv32, c: bv32, d: bv32): bv32 {
    a + (b << 8) + (c << 16) + (d << 24)
  }

  lemma BytesJoin(v: bv32)
    ensures v == Joined(Byte0(v), Byte1(v), Byte2(v), Byte3(v))
  {
  }

  lemma JoinedAsInt(a: bv32, b: bv32, c: bv32, d: bv32)
    requires a <= 8 && b <= 8 && c <= 8 && d <= 8
    ensures Joined(a, b, c, d) as int == a as int + 0x100 * (b as int) + 0x1_0000 * (c as int) + 0x100_0000 * (d as int)
  {
  }

  lemma TopBytes(v: bv32)
    requires Byte0(v) <= 8 && Byte1(v) <= 8 && Byte2(v) <= 8 && Byte3(v) <= 8
    ensures Top(v) == SumOf(Byte0(v), Byte1(v), Byte2(v), Byte3(v))
  {
    TopField(v);
  }

  /** The bytes before the product hold the counts of the bytes of v. */
  lemma CountBytes(v: bv32)
    ensures var b := Bytes(Nibbles(Pairs(v)));
            Byte0(b) <= 8 && Byte1(b) <= 8 && Byte2(b) <= 8 && Byte3(b) <= 8 && Length(v) == SumOf(Byte0(b), Byte1(b), Byte2(b), Byte3(b))
  {
    ByteField0(v);
    ByteField1(v);
    ByteField2(v);
    ByteField3(v);
    hide ByteOnes, Pairs, Nibbles, Bytes, NextByte;
    var b := Bytes(Nibbles(Pairs(v)));
    assert Byte0(b) <= 8 && Byte1(b) <= 8 && Byte2(b) <= 8 && Byte3(b) <= 8;
    hide Byte0, Byte1, Byte2, Byte3, Top, SumOf;
    TopBytes(b);
  }

  lemma SmallAsInt(a: bv32)
    requires a <= 8
    ensures 0 <= a as int <= 8
  {
  }

  /** The same bytes as numbers. */
  lemma CountParts(v: bv32) returns (i: int, j: int, k: int, l: int)
    ensures 0 <= i <= 8 && 0 <= j <= 8 && 0 <= k <= 8 && 0 <= l <= 8
    ensures Bytes(Nibbles(Pairs(v))) as int == i + 0x100 * j + 0x1_0000 * k + 0x100_0000 * l
    ensures Length(v) as int == i + j + k + l
  {
    var b := Bytes(Nibbles(Pairs(v)));
    CountBytes(v);
    BytesJoin(b);
    var (x, y, z, t) := (Byte0(b), Byte1(b), Byte2(b), Byte3(b));
    hide Length, Pairs, Nibbles, Bytes, Byte0, Byte1, Byte2, Byte3, Joined, SumOf;
    JoinedAsInt(x, y, z, t);
    SumAsInt(x, y, z, t);
    SmallAsInt(x);
    SmallAsInt(y);
    SmallAsInt(z);
    SmallAsInt(t);
    i, j, k, l := x as int, y as int, z as int, t as int;
  }

  lemma LowPart(low: int, high: int)
    requires 0 <= low < 0x8000_0000
    ensures ToInt32(low + high * 0x1_0000_0000) == low
  {
    assert (low + high * 0x1_0000_0000) % 0x1_0000_0000 == low;
  }

  /** Multiplying by ones adds the bytes up in the top byte of the low 32 bits. */
  lemma TopByte(i: int, j: int, k: int, l: int)
    requires 0 <= i <= 8 && 0 <= j <= 8 && 0 <= k <= 8 && 0 <= l <= 8
    ensures var p := (i + 0x100 * j + 0x1_0000 * k + 0x100_0000 * l) * 0x0101_0101;
            0 <= p < 0x20_0000_0000_0000 && ToInt32(p) / 0x100_0000 == i + j + k + l
  {
    var p := (i + 0x100 * j + 0x1_0000 * k + 0x100_0000 * l) * 0x0101_0101;
    var low := i + (i + j) * 0x100 + (i + j + k) * 0x1_0000 + (i + j + k + l) * 0x100_0000;
    var high := j + k + l + (k + l) * 0x100 + l * 0x1_0000;
    assert p == low + high * 0x1_0000_0000;
    hide ToInt32;
    LowPart(low, high);
  }

  /** The product is exact, its low 32 bits are no negative number, and their top byte is the count. */
  lemma LengthIsExact(v: bv32)
    ensures 0 <= Product(v) < 0x20_0000_0000_0000
    ensures LengthGetter(v) == Length(v) as int
  {
    hide Length, Bytes, Nibbles, Pairs, ToInt32;
    var i, j, k, l := CountParts(v);
    TopByte(i, j, k, l);
  }
}
