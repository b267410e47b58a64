/**
  Base-128 varints and length-delimited payloads of the protobuf wire format, as written in
  gateway/proto_codec.go. The specification is arithmetic: groups are value % 128 and value / 128,
  and the k-th byte read adds (b % 128) * 128^k truncated to 64 bits. The loops work on 64-bit words
  with the source's masks, shifts and ors, and are proved to compute that.
 */
module Varint {
  import opened Bytes
  import opened Words

  type uint64 = v: int | 0 <= v < U64

  // ---- Encoding

  function EncodeVarint(value: nat): (out: bytes)
    ensures |out| > 0
    decreases value
  {
    if value < 128 then [value] else [value % 128 + 128] + EncodeVarint(value / 128)
  }

  lemma EncodeGroup(value: nat)
    ensures value < 128 ==> EncodeVarint(value) == [value]
    ensures value >= 128 ==> EncodeVarint(value) == [value % 128 + 128] + EncodeVarint(value / 128)
  {
  }

  /** appendVarint */
  method AppendVarint(dst: bytes, value: uint64) returns (out: bytes)
    ensures out == dst + EncodeVarint(value)
  {
    hide Byte, Word, Num, Shr7, EncodeVarint, WithTop;
    out := dst;
    var v := Word(value);
    while v >= 0x80
      invariant out + EncodeVarint(Num(v)) == dst + EncodeVarint(value)
      decreases Num(v)
    {
      GroupOf(v);
      EncodeGroup(Num(v));
      out := out + [WithTop(Byte(v)) as byte];
      v := Shr7(v);
    }
    GroupOf(v);
    EncodeGroup(Num(v));
    out := out + [Byte(v) as byte];
  }

  // ---- Decoding

  /** What a reader at the start of some bytes finds: a value and how many bytes it used. */
  datatype Read<T> = Got(value: T, used: nat) | Bad

  function Pow128(k: nat): (p: nat)
    ensures p > 0
  {
    if k == 0 then 1 else 128 * Pow128(k - 1)
  }

  /** The k-th byte contributes at weight 128^k; a tenth byte loses what lies beyond bit 63. */
  function Contribution(b: byte, k: nat): (c: uint64)
    requires k < 10
  {
    (b % 128) * Pow128(k) % U64
  }

  /** The loop of readVarint with k bytes read and `acc` accumulated. */
  function DecodeFrom(data: bytes, k: nat, acc: nat): (r: Read<nat>)
    ensures r.Got? ==> 1 <= r.used <= |data| && k + r.used <= 10
    decreases |data|
  {
    if k >= 10 || data == [] then Bad
    else
      var acc' := acc + Contribution(data[0], k);
      if data[0] < 128 then Got(acc', 1)
      else
        match DecodeFrom(data[1..], k + 1, acc')
        case Bad => Bad
        case Got(value, used) => Got(value, used + 1)
  }

  function DecodeVarint(data: bytes): (r: Read<nat>)
    ensures r.Got? ==> 1 <= r.used <= |data| && r.used <= 10
  {
    DecodeFrom(data, 0, 0)
  }

  /** 7 * k, the shift of the k-th group; a Go uint that reaches 70 at most. */
  function Shift(k: nat): bv7
    requires k <= 10
  {
    if k == 0 then 0 else Shift(k - 1) + 7
  }

  lemma Shifts()
    ensures Shift(0) == 0 && Shift(1) == 7 && Shift(2) == 14 && Shift(3) == 21 && Shift(4) == 28 && Shift(5) == 35
    ensures Shift(6) == 42 && Shift(7) == 49 && Shift(8) == 56 && Shift(9) == 63 && Shift(10) == 70
  {
    assert Shift(3) == 21;
    assert Shift(6) == 42;
    assert Shift(9) == 63;
  }

  lemma ShiftBounds(k: nat)
    requires k <= 10
    ensures Shift(k) >= 64 <==> k == 10
    ensures Shift(k) <= 56 <==> k <= 8
    ensures k <= 9 ==> Shift(k + 1) == Shift(k) + 7
  {
    hide Shift;
    Shifts();
  }

  function Shl(v: bv64, shift: bv7): bv64
    requires shift <= 64
  {
    v << shift
  }

  /** Only the bits below shift are set. */
  predicate Below(v: bv64, shift: bv7) {
    shift <= 63 && v < 1 << shift
  }

  /** uint64(item & 0x7f) */
  function Group(item: byte): bv64 {
    Low(Bits(item)) as bv64
  }

  predicate SevenBits(v: bv64) {
    v <= 0x7f
  }

  predicate OneBit(v: bv64) {
    v <= 1
  }

  lemma Residue(item: nat, low: nat, last: bool)
    requires low < 128 && item == low + if last then 0 else 128
    ensures low == item % 128 && (last <==> item < 128)
  {
  }

  lemma GroupIsLow(item: byte)
    ensures SevenBits(Group(item))
  {
  }

  lemma GroupFacts(item: byte)
    ensures SevenBits(Group(item)) && Num(Group(item)) == item % 128 && Low(Bits(item)) as int == item % 128
    ensures TopClear(Bits(item)) <==> item < 128
  {
    hide SevenBits, Bits, Low, TopClear, Num;
    ByteBits(Bits(item));
    Residue(item, Low(Bits(item)) as int, TopClear(Bits(item)));
    NumByte(Low(Bits(item)));
    GroupIsLow(item);
  }

  lemma NothingShared(value: bv64, group: bv64, shift: bv7)
    requires Below(value, shift) && SevenBits(group)
    ensures Disjoint(value, Shl(group, shift))
  {
  }

  /** The bits below shift are the only ones set so far, so or-ing the next group in is adding it. */
  lemma OrIsAddition(value: bv64, group: bv64, shift: bv7)
    requires Below(value, shift) && SevenBits(group)
    ensures Num(Or(value, Shl(group, shift))) == Num(value) + Num(Shl(group, shift))
  {
    hide Num, Or;
    NothingShared(value, group, shift);
    NumOr(value, Shl(group, shift));
  }

  lemma StaysBelow(value: bv64, group: bv64, shift: bv7)
    requires Below(value, shift) && SevenBits(group) && shift <= 56
    ensures Below(Or(value, Shl(group, shift)), shift + 7)
  {
  }

  lemma ShlMore(group: bv64, shift: bv7)
    requires (SevenBits(group) && shift <= 49) || (OneBit(group) && shift <= 56)
    ensures Shl(group, shift + 7) == Shl7(Shl(group, shift)) && Shl(group, shift) < 0x200_0000_0000_0000
  {
  }

  lemma ShlNone(group: bv64)
    ensures Shl(group, 0) == group
  {
  }

  lemma Multiply128(a: nat, p: nat)
    ensures 128 * (a * p) == a * (128 * p)
  {
  }

  /** A group that is not cut off is multiplied by 128^k. */
  lemma {:induction false} NumShl(group: bv64, k: nat)
    requires (SevenBits(group) && k <= 8) || (OneBit(group) && k <= 9)
    ensures Shift(k) <= 63 && Num(Shl(group, Shift(k))) == Num(group) * Pow128(k)
  {
    hide Shl, Shl7, Num, Shift, SevenBits, OneBit;
    Shifts();
    if k == 0 {
      ShlNone(group);
    } else {
      NumShl(group, k - 1);
      ShlMore(group, Shift(k - 1));
      NumShl7(Shl(group, Shift(k - 1)));
      Multiply128(Num(group), Pow128(k - 1));
    }
  }

  function LowestBit(v: bv64): bv64 {
    v & 1
  }

  lemma LowBit(b: bv8)
    ensures (b & 1) as int == b as int % 2
  {
  }

  lemma CutOff(item: byte)
    ensures Shl(Group(item), 63) == Shl(LowestBit(Group(item)), 63) && OneBit(LowestBit(Group(item)))
    ensures Num(LowestBit(Group(item))) == (item % 128) % 2
  {
    hide Num, Bits, Low;
    var low := Low(Bits(item));
    GroupFacts(item);
    NumByte(low & 1);
    LowBit(low);
    assert LowestBit(Group(item)) == (low & 1) as bv64;
  }

  lemma NotCutOff(item: byte, k: nat)
    requires k <= 8
    ensures Contribution(item, k) == (item % 128) * Pow128(k)
  {
    Pow128Values();
    PowBound(k + 1);
    Multiply(item % 128, 127, Pow128(k));
    ContributionOf(item, k);
  }

  /** What the masked and shifted byte is worth: the tenth one keeps its lowest bit only. */
  lemma GroupIsContribution(item: byte, k: nat)
    requires k < 10
    ensures Shift(k) <= 63
    ensures Num(Shl(Group(item), Shift(k))) == Contribution(item, k)
  {
    hide Shl, Num, Shift, Contribution, Group, SevenBits, LowestBit;
    Shifts();
    GroupFacts(item);
    if k <= 8 {
      NumShl(Group(item), k);
      NotCutOff(item, k);
    } else {
      CutOff(item);
      NumShl(LowestBit(Group(item)), k);
      TenthByte(item);
    }
  }

  lemma NothingBelow()
    ensures Below(0, 0)
  {
  }

  lemma DecodeGroup(data: bytes, at: nat, k: nat, acc: nat)
    requires at <= |data|
    ensures var r := DecodeFrom(data[at..], k, acc);
            if k >= 10 || at == |data| then r == Bad
            else
              var acc' := acc + Contribution(data[at], k);
              r == if data[at] < 128 then Got(acc', 1)
                   else match DecodeFrom(data[at + 1..], k + 1, acc')
                        case Bad => Bad
                        case Got(value, used) => Got(value, used + 1)
  {
    if at < |data| {
      assert data[at..][0] == data[at] && data[at..][1..] == data[at + 1..];
    }
  }

  /** readVarint; on an error Go's offset has moved over the bytes already seen. */
  method ReadVarint(data: bytes, offset: nat) returns (ok: bool, value: nat, offset': nat)
    requires offset <= |data|
    ensures offset <= offset' <= |data|
    ensures ok == DecodeVarint(data[offset..]).Got?
    ensures ok ==> DecodeVarint(data[offset..]) == Got(value, offset' - offset)
  {
    hide Shift, Shl, Or, Num, Contribution, DecodeFrom, Below, Group, SevenBits, TopClear, Bits;
    offset' := offset;
    var word: bv64 := 0;
    var shift: bv7 := 0;
    ghost var k := 0;
    Shifts();
    assert Num(0) == 0 && Below(0, 0) by { ZeroNum(); NothingBelow(); }
    while true
      invariant offset' == offset + k <= |data| && k <= 10 && shift == Shift(k)
      invariant k <= 9 ==> Below(word, shift)
      invariant DecodeVarint(data[offset..]).Got? == DecodeFrom(data[offset'..], k, Num(word)).Got?
      invariant DecodeFrom(data[offset'..], k, Num(word)).Got? ==>
                  DecodeVarint(data[offset..])
                  == Got(DecodeFrom(data[offset'..], k, Num(word)).value,
                         k + DecodeFrom(data[offset'..], k, Num(word)).used)
      decreases 10 - k
    {
      ShiftBounds(k);
      DecodeGroup(data, offset', k, Num(word));
      if shift >= 64 || offset' >= |data| {
        return false, 0, offset';
      }
      var item := data[offset'];
      offset' := offset' + 1;
      var group := Group(item);
      GroupFacts(item);
      GroupIsContribution(item, k);
      OrIsAddition(word, group, shift);
      if k <= 8 {
        StaysBelow(word, group, shift);
      }
      word := Or(word, Shl(group, shift));
      if TopClear(Bits(item)) {
        return true, Num(word), offset';
      }
      shift := shift + 7;
      k := k + 1;
    }
  }

  // ---- Round trip

  lemma {:induction false} EncodedLength(value: nat, k: nat)
    requires k > 0 && value < Pow128(k)
    ensures |EncodeVarint(value)| <= k
    decreases k
  {
    if value < 128 {
    } else {
      assert k > 1 by { assert Pow128(1) == 128 * Pow128(0); }
      EncodedLength(value / 128, k - 1);
    }
  }

  lemma Pow128Values()
    ensures Pow128(9) * 2 == U64 && Pow128(10) > U64
  {
    assert Pow128(3) == 128 * 128 * 128;
    assert Pow128(6) == Pow128(3) * 128 * 128 * 128;
    assert Pow128(9) == Pow128(6) * 128 * 128 * 128;
  }

  /** A 64-bit value takes between one and ten bytes. */
  lemma VarintLength(value: nat)
    requires value < U64
    ensures 1 <= |EncodeVarint(value)| <= 10
  {
    Pow128Values();
    EncodedLength(value, 10);
  }

  lemma Distribute(low: nat, high: nat, p: nat)
    ensures (low + 128 * high) * p == low * p + high * (128 * p)
  {
  }

  lemma Multiply(a: nat, b: nat, p: nat)
    requires a <= b
    ensures a * p <= b * p
  {
  }

  /** The first group and the remaining ones split the weighted value. */
  lemma SplitGroup(value: nat, k: nat)
    requires value >= 128 && k < 10 && value * Pow128(k) < U64
    ensures k < 9
    ensures value * Pow128(k) == (value % 128) * Pow128(k) + (value / 128) * Pow128(k + 1)
    ensures (value % 128) * Pow128(k) < U64 && (value / 128) * Pow128(k + 1) < U64
  {
    var p := Pow128(k);
    Multiply(128, value, p);
    if k == 9 {
      Pow128Values();
    }
    Distribute(value % 128, value / 128, p);
    assert value == value % 128 + 128 * (value / 128);
    Multiply(0, value % 128, p);
    Multiply(0, value / 128, 128 * p);
  }

  lemma ContributionOf(b: byte, k: nat)
    requires k < 10 && (b % 128) * Pow128(k) < U64
    ensures Contribution(b, k) == (b % 128) * Pow128(k)
  {
    Multiply(0, b % 128, Pow128(k));
  }

  lemma SmallGroup(value: nat)
    requires value < 128
    ensures value % 128 == value
  {
  }

  lemma HighGroup(low: nat)
    requires low < 128
    ensures (low + 128) % 128 == low
  {
  }

  lemma {:induction false} DecodeEncodedFrom(value: nat, k: nat, acc: nat, rest: bytes)
    requires k < 10 && value * Pow128(k) < U64
    ensures DecodeFrom(EncodeVarint(value) + rest, k, acc) == Got(acc + value * Pow128(k), |EncodeVarint(value)|)
    decreases value
  {
    hide Contribution, Pow128, EncodeVarint, DecodeFrom;
    var data := EncodeVarint(value) + rest;
    assert data[0..] == data;
    DecodeGroup(data, 0, k, acc);
    EncodeGroup(value);
    if value < 128 {
      SmallGroup(value);
      ContributionOf(value, k);
    } else {
      SplitGroup(value, k);
      var low, high := value % 128, value / 128;
      DecodeEncodedFrom(high, k + 1, acc + low * Pow128(k), rest);
      HighGroup(low);
      assert data[1..] == EncodeVarint(high) + rest;
      ContributionOf(low + 128, k);
    }
  }

  /** Reading what was written gives the value back and uses exactly its bytes, whatever follows. */
  lemma VarintRoundTrip(value: nat, rest: bytes)
    requires value < U64
    ensures DecodeVarint(EncodeVarint(value) + rest) == Got(value, |EncodeVarint(value)|)
  {
    DecodeEncodedFrom(value, 0, 0, rest);
  }

  /** A varint that can be read is read the same way when more bytes follow. */
  lemma {:induction false} DecodeFromPrefix(a: bytes, b: bytes, k: nat, acc: nat)
    requires DecodeFrom(a, k, acc).Got?
    ensures DecodeFrom(a + b, k, acc) == DecodeFrom(a, k, acc)
    decreases |a|
  {
    assert (a + b)[0] == a[0];
    if a[0] >= 128 {
      assert (a + b)[1..] == a[1..] + b;
      DecodeFromPrefix(a[1..], b, k + 1, acc + Contribution(a[0], k));
    }
  }

  lemma {:induction false} PowBound(k: nat)
    requires k <= 9
    ensures Pow128(k) <= Pow128(9)
    decreases 9 - k
  {
    if k < 9 {
      PowBound(k + 1);
    }
  }

  lemma TenthByte(b: byte)
    ensures Contribution(b, 9) == (b % 128) % 2 * Pow128(9)
  {
    Pow128Values();
    var x, h := b % 128, Pow128(9);
    if x % 2 == 0 {
      assert x * h == (x / 2) * U64 by { assert x == 2 * (x / 2); }
    } else {
      assert x * h == (x / 2) * U64 + h by { assert x == 2 * (x / 2) + 1; }
    }
  }

  lemma GroupBound(b: byte, k: nat, acc: nat)
    requires k < 10 && acc < Pow128(k)
    ensures acc + Contribution(b, k) < U64
    ensures k < 9 ==> acc + Contribution(b, k) < Pow128(k + 1)
  {
    Pow128Values();
    if k < 9 {
      PowBound(k + 1);
      NotCutOff(b, k);
      Multiply(b % 128, 127, Pow128(k));
    } else {
      TenthByte(b);
      Multiply((b % 128) % 2, 1, Pow128(9));
    }
  }

  lemma {:induction false} DecodedBound(data: bytes, k: nat, acc: nat)
    requires k < 10 && acc < Pow128(k) && DecodeFrom(data, k, acc).Got?
    ensures DecodeFrom(data, k, acc).value < U64
    decreases |data|
  {
    hide Contribution, Pow128;
    GroupBound(data[0], k, acc);
    if data[0] >= 128 && k < 9 {
      DecodedBound(data[1..], k + 1, acc + Contribution(data[0], k));
    }
  }

  /** The decoder yields a uint64: nothing overflows the accumulator. */
  lemma DecodedIsUint64(data: bytes)
    requires DecodeVarint(data).Got?
    ensures DecodeVarint(data).value < U64
  {
    DecodedBound(data, 0, 0);
  }
}
