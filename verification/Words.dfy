/**
  Go's uint64 as a 64-bit vector, the number it stands for, and what the shifts and masks of the
  varint loops in gateway/proto_codec.go do to that number. The bit operations have names so that
  each proof sees either bits or numbers.
 */
module Words {
  import opened Bytes

  function Half(v: bv64): bv64 {
    v >> 1
  }

  function Bit(v: bv64): nat {
    if v & 1 == 1 then 1 else 0
  }

  function Num(v: bv64): (n: nat)
    ensures n == 0 <==> v == 0
    decreases v
  {
    if v == 0 then 0 else 2 * Num(Half(v)) + Bit(v)
  }

  function Or(a: bv64, b: bv64): bv64 {
    a | b
  }

  predicate Disjoint(a: bv64, b: bv64) {
    a & b == 0
  }

  function Shl1(v: bv64): bv64 {
    v << 1
  }

  function Shl7(v: bv64): bv64 {
    v << 7
  }

  function Shr7(v: bv64): bv64 {
    v >> 7
  }

  function Low7(v: bv64): bv64 {
    v & 0x7f
  }

  predicate Small(x: bv64) {
    x < 0x8000_0000_0000_0000
  }

  lemma OrHalf(a: bv64, b: bv64)
    ensures Half(Or(a, b)) == Or(Half(a), Half(b))
  {
  }

  lemma DisjointHalf(a: bv64, b: bv64)
    requires Disjoint(a, b)
    ensures Disjoint(Half(a), Half(b))
  {
    assert (a >> 1) & (b >> 1) == (a & b) >> 1;
  }

  lemma OrBit(a: bv64, b: bv64)
    requires Disjoint(a, b)
    ensures Bit(Or(a, b)) == Bit(a) + Bit(b)
  {
    var bitA, bitB := a & 1, b & 1;
    assert bitA & bitB == 0 && (a | b) & 1 == bitA | bitB;
    assert bitA == 0 || bitA == 1;
    assert bitB == 0 || bitB == 1;
  }

  lemma ZeroNum()
    ensures Num(0) == 0 && Half(0) == 0 && Bit(0) == 0
  {
  }

  lemma Unfold(v: bv64)
    ensures Num(v) == 2 * Num(Half(v)) + Bit(v)
  {
    ZeroNum();
  }

  lemma NumOrZero(a: bv64, b: bv64)
    requires Or(a, b) == 0
    ensures Num(Or(a, b)) == Num(a) + Num(b)
  {
    assert a == 0;
    assert b == 0;
  }

  lemma NumPositive(v: bv64)
    requires v != 0
    ensures Num(Half(v)) < Num(v)
  {
    hide Half, Bit;
  }

  lemma {:induction false} NumOr(a: bv64, b: bv64)
    requires Disjoint(a, b)
    ensures Num(Or(a, b)) == Num(a) + Num(b)
    decreases Num(Or(a, b))
  {
    hide Or, Half, Disjoint, Bit, Num;
    if Or(a, b) == 0 {
      NumOrZero(a, b);
    } else {
      OrHalf(a, b);
      DisjointHalf(a, b);
      OrBit(a, b);
      NumPositive(Or(a, b));
      NumOr(Half(a), Half(b));
      Unfold(a);
      Unfold(b);
      Unfold(Or(a, b));
    }
  }

  lemma ShlHalf(x: bv64)
    requires Small(x)
    ensures Half(Shl1(x)) == x && Bit(Shl1(x)) == 0 && (Shl1(x) == 0 <==> x == 0)
  {
  }

  lemma NumDoubles(x: bv64)
    requires Small(x)
    ensures Num(Shl1(x)) == 2 * Num(x)
  {
    hide Half, Shl1, Bit;
    ZeroNum();
    ShlHalf(x);
  }

  lemma Shl7Steps(x: bv64)
    requires x < 0x200_0000_0000_0000
    ensures Shl7(x) == Shl1(Shl1(Shl1(Shl1(Shl1(Shl1(Shl1(x)))))))
    ensures Small(x) && Small(Shl1(x)) && Small(Shl1(Shl1(x))) && Small(Shl1(Shl1(Shl1(x))))
    ensures Small(Shl1(Shl1(Shl1(Shl1(x))))) && Small(Shl1(Shl1(Shl1(Shl1(Shl1(x))))))
    ensures Small(Shl1(Shl1(Shl1(Shl1(Shl1(Shl1(x)))))))
  {
  }

  lemma NumShl7(x: bv64)
    requires x < 0x200_0000_0000_0000
    ensures Num(Shl7(x)) == 128 * Num(x)
  {
    hide Num, Shl1, Shl7, Small;
    Shl7Steps(x);
    var x1 := Shl1(x);
    var x2 := Shl1(x1);
    var x3 := Shl1(x2);
    var x4 := Shl1(x3);
    var x5 := Shl1(x4);
    var x6 := Shl1(x5);
    NumDoubles(x);
    NumDoubles(x1);
    NumDoubles(x2);
    NumDoubles(x3);
    NumDoubles(x4);
    NumDoubles(x5);
    NumDoubles(x6);
  }

  lemma Split7(v: bv64)
    ensures v == Or(Shl7(Shr7(v)), Low7(v)) && Disjoint(Shl7(Shr7(v)), Low7(v)) && Shr7(v) < 0x200_0000_0000_0000
  {
  }

  lemma NumShr7(v: bv64)
    ensures Num(v) == 128 * Num(Shr7(v)) + Num(Low7(v))
  {
    hide Num, Or, Shl7, Shr7, Low7, Disjoint;
    Split7(v);
    NumOr(Shl7(Shr7(v)), Low7(v));
    NumShl7(Shr7(v));
  }

  lemma ByteHalves(b: bv8)
    requires b != 0
    ensures Half(b as bv64) == (b >> 1) as bv64 && b >> 1 < b && (b as bv64) != 0
    ensures b as int == 2 * ((b >> 1) as int) + Bit(b as bv64)
  {
  }

  lemma {:induction false} NumByte(b: bv8)
    ensures Num(b as bv64) == b as int
    decreases b
  {
    hide Half, Bit;
    if b == 0 {
    } else {
      ByteHalves(b);
      NumByte(b >> 1);
    }
  }

  // ---- Bytes of a word

  /** byte(v) */
  function Byte(v: bv64): bv8 {
    (v & 0xff) as bv8
  }

  function Low(b: bv8): bv8 {
    b & 0x7f
  }

  lemma ByteGroup(v: bv64)
    ensures Low7(v) == Low(Byte(v)) as bv64
    ensures Shr7(v) == 0 <==> v < 0x80
    ensures v < 0x80 ==> Low(Byte(v)) == Byte(v)
  {
  }

  function WithTop(b: bv8): bv8 {
    b | 0x80
  }

  predicate TopClear(b: bv8) {
    b & 0x80 == 0
  }

  lemma ByteBits(b: bv8)
    ensures Low(b) as int < 128 && WithTop(b) as int == Low(b) as int + 128
    ensures b as int == Low(b) as int + if TopClear(b) then 0 else 128
  {
  }

  /** One round of appendVarint's loop: the group it writes and the value it keeps. */
  lemma GroupOf(v: bv64)
    ensures v >= 0x80 <==> Num(v) >= 128
    ensures Num(Shr7(v)) == Num(v) / 128
    ensures WithTop(Byte(v)) as int == Num(v) % 128 + 128
    ensures v < 0x80 ==> Byte(v) as int == Num(v)
  {
    hide Num, Byte, Low7, Shr7, Low, WithTop, TopClear;
    NumShr7(v);
    ByteGroup(v);
    NumByte(Low(Byte(v)));
    ByteBits(Byte(v));
    ZeroNum();
  }

  // ---- Numbers as words

  lemma AddBit(half: bv64, bit: nat)
    requires Small(half) && bit < 2 && Num(Shl1(half)) == 2 * Num(half)
    ensures Num(Or(Shl1(half), if bit == 1 then 1 else 0)) == 2 * Num(half) + bit
  {
    var one: bv64 := if bit == 1 then 1 else 0;
    assert Disjoint(Shl1(half), one);
    NumOr(Shl1(half), one);
    assert Num(1) == 1 by { Unfold(1); }
  }

  lemma TopBit(v: bv64)
    requires !Small(v)
    ensures v == Or(0x8000_0000_0000_0000, v & 0x7fff_ffff_ffff_ffff)
    ensures Disjoint(0x8000_0000_0000_0000, v & 0x7fff_ffff_ffff_ffff)
  {
  }

  lemma NumTop()
    ensures Num(0x8000_0000_0000_0000) == U64 / 2
  {
    hide Num;
    assert Num(1) == 1 by { Unfold(1); ZeroNum(); }
    NumShl7(1);
    NumShl7(0x80);
    NumShl7(0x4000);
    NumShl7(0x20_0000);
    NumShl7(0x1000_0000);
    NumShl7(0x8_0000_0000);
    NumShl7(0x400_0000_0000);
    NumShl7(0x2_0000_0000_0000);
    NumShl7(0x100_0000_0000_0000);
  }

  lemma NumBelow(v: bv64)
    requires Num(v) < U64 / 2
    ensures Small(v)
  {
    if !Small(v) {
      var top, low: bv64 := 0x8000_0000_0000_0000, v & 0x7fff_ffff_ffff_ffff;
      TopBit(v);
      NumOr(top, low);
      NumTop();
    }
  }

  /** uint64(n) */
  function Word(n: nat): (v: bv64)
    requires n < U64
    ensures Num(v) == n
  {
    if n == 0 then 0
    else
      var half := Word(n / 2);
      NumBelow(half);
      NumDoubles(half);
      AddBit(half, n % 2);
      Or(Shl1(half), if n % 2 == 1 then 1 else 0)
  }

  function Append(half: bv8, bit: nat): bv8 {
    (half << 1) | if bit == 1 then 1 else 0
  }

  lemma AppendValue(half: bv8, bit: nat)
    requires half as int < 128 && bit < 2
    ensures Append(half, bit) as int == 2 * (half as int) + bit
  {
  }

  /** The bits of a byte that was read. */
  function Bits(item: byte): (b: bv8)
    ensures b as int == item
    decreases item
  {
    if item == 0 then 0
    else
      var half := Bits(item / 2);
      AppendValue(half, item % 2);
      Append(half, item % 2)
  }
}
