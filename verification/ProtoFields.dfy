/** Tags, payloads and the field loop of gateway/proto_codec.go. */
module ProtoFields {
  import opened Bytes
  import opened Wrappers
  import opened Varint

  /** What unmarshalFields hands to its handler. */
  datatype Field = Field(number: nat, wire: nat, raw: bytes, value: nat)

  /** The message as it stands when the loop stops, and whether it stopped without an error. */
  datatype Decoded<M> = Decoded(msg: M, ok: bool)

  /** None is the handler's error; the handlers modelled here fail before they change the message. */
  type Handler<!M> = (Field, M) -> Option<M>

  // ---- Reading

  function ReadPayload(data: bytes): (r: Read<bytes>)
    ensures r.Got? ==> |r.value| < r.used <= |data|
  {
    match DecodeVarint(data)
    case Bad => Bad
    case Got(length, n) =>
      if length > |data| - n then Bad else Got(data[n..n + length], n + length)
  }

  function NextField(data: bytes): (r: Read<Field>)
    ensures r.Got? ==> 0 < r.used <= |data|
  {
    match DecodeVarint(data)
    case Bad => Bad
    case Got(tag, n) =>
      var number, wire, rest := tag / 8, tag % 8, data[n..];
      if number == 0 then Bad
      else if wire == 2 then
        match ReadPayload(rest)
        case Bad => Bad
        case Got(raw, m) => Got(Field(number, wire, raw, 0), n + m)
      else if wire == 0 then
        match DecodeVarint(rest)
        case Bad => Bad
        case Got(value, m) => Got(Field(number, wire, [], value), n + m)
      else if wire == 1 then
        if |rest| < 8 then Bad else Got(Field(number, wire, [], 0), n + 8)
      else if wire == 5 then
        if |rest| < 4 then Bad else Got(Field(number, wire, [], 0), n + 4)
      else Bad
  }

  function DecodeFields<M>(data: bytes, handler: Handler<M>, msg: M): Decoded<M>
    decreases |data|
  {
    if data == [] then Decoded(msg, true)
    else
      match NextField(data)
      case Bad => Decoded(msg, false)
      case Got(field, used) =>
        match handler(field, msg)
        case None => Decoded(msg, false)
        case Some(msg') => DecodeFields(data[used..], handler, msg')
  }

  /** readBytes */
  method ReadBytes(data: bytes, offset: nat) returns (ok: bool, raw: bytes, offset': nat)
    requires offset <= |data|
    ensures offset <= offset' <= |data|
    ensures ok == ReadPayload(data[offset..]).Got?
    ensures ok ==> ReadPayload(data[offset..]) == Got(raw, offset' - offset)
  {
    var length;
    ok, length, offset' := ReadVarint(data, offset);
    if !ok || length > |data| - offset' {
      return false, [], offset';
    }
    var start := offset';
    offset' := offset' + length;
    assert data[offset..][start - offset..start - offset + length] == data[start..offset'];
    return true, data[start..offset'], offset';
  }

  /** skipField */
  method SkipField(data: bytes, offset: nat, wire: nat) returns (ok: bool, offset': nat)
    requires offset <= |data|
    ensures offset <= offset' <= |data|
    ensures wire == 1 ==> ok == (|data| - offset >= 8) && (ok ==> offset' == offset + 8)
    ensures wire == 5 ==> ok == (|data| - offset >= 4) && (ok ==> offset' == offset + 4)
    ensures wire == 0 ==> ok == DecodeVarint(data[offset..]).Got?
                          && (ok ==> offset' == offset + DecodeVarint(data[offset..]).used)
    ensures wire == 2 ==> ok == ReadPayload(data[offset..]).Got?
                          && (ok ==> offset' == offset + ReadPayload(data[offset..]).used)
    ensures wire !in {0, 1, 2, 5} ==> !ok
  {
    if wire == 0 {
      var value;
      ok, value, offset' := ReadVarint(data, offset);
    } else if wire == 1 {
      if |data| - offset < 8 {
        return false, offset;
      }
      return true, offset + 8;
    } else if wire == 2 {
      var raw;
      ok, raw, offset' := ReadBytes(data, offset);
    } else if wire == 5 {
      if |data| - offset < 4 {
        return false, offset;
      }
      return true, offset + 4;
    } else {
      return false, offset;
    }
  }

  /** One round of the loop: tag, then payload by wire type. */
  method ReadField(data: bytes, offset: nat) returns (ok: bool, field: Field, offset': nat)
    requires offset <= |data|
    ensures offset <= offset' <= |data|
    ensures ok == NextField(data[offset..]).Got?
    ensures ok ==> NextField(data[offset..]) == Got(field, offset' - offset)
  {
    var tag, raw, value;
    ok, tag, offset' := ReadVarint(data, offset);
    field := Field(tag / 8, tag % 8, [], 0);
    if !ok || field.number == 0 {
      return false, field, offset';
    }
    assert data[offset..][offset' - offset..] == data[offset'..];
    if field.wire == 2 {
      ok, raw, offset' := ReadBytes(data, offset');
      field := field.(raw := raw);
    } else if field.wire == 0 {
      ok, value, offset' := ReadVarint(data, offset');
      field := field.(value := value);
    } else {
      ok, offset' := SkipField(data, offset', field.wire);
    }
  }

  /** unmarshalFields */
  method UnmarshalFields<M>(data: bytes, handler: Handler<M>, msg: M) returns (ok: bool, msg': M)
    ensures Decoded(msg', ok) == DecodeFields(data, handler, msg)
  {
    msg' := msg;
    var offset := 0;
    while offset < |data|
      invariant offset <= |data|
      invariant DecodeFields(data[offset..], handler, msg') == DecodeFields(data, handler, msg)
    {
      var field;
      ghost var rest := data[offset..];
      ghost var start := offset;
      ok, field, offset := ReadField(data, offset);
      assert ok ==> rest[offset - start..] == data[offset..];
      if !ok {
        return false, msg';
      }
      var handled := handler(field, msg');
      if handled.None? {
        return false, msg';
      }
      msg' := handled.value;
    }
    ok := true;
  }

  // ---- Writing

  function LengthDelimited(field: nat, value: bytes): bytes {
    EncodeVarint(field * 8 + 2) + EncodeVarint(|value|) + value
  }

  function StringField(field: nat, value: bytes): bytes {
    if value == [] then [] else LengthDelimited(field, value)
  }

  function BoolField(field: nat, value: bool): bytes {
    if value then EncodeVarint(field * 8) + [1] else []
  }

  method AppendStringField(dst: bytes, field: nat, value: bytes) returns (out: bytes)
    requires field < 16 && |value| <= MAX_INT
    ensures out == dst + StringField(field, value)
  {
    hide EncodeVarint;
    if value == [] {
      return dst;
    }
    out := AppendVarint(dst, field * 8 + 2);
    out := AppendVarint(out, |value|);
    out := out + value;
  }

  method AppendBoolField(dst: bytes, field: nat, value: bool) returns (out: bytes)
    requires field < 16
    ensures out == dst + BoolField(field, value)
  {
    hide EncodeVarint;
    if !value {
      return dst;
    }
    out := AppendVarint(dst, field * 8);
    out := out + [1];
  }

  method AppendMessageField(dst: bytes, field: nat, value: bytes) returns (out: bytes)
    requires field < 16 && |value| <= MAX_INT
    ensures out == dst + LengthDelimited(field, value)
  {
    hide EncodeVarint;
    out := AppendVarint(dst, field * 8 + 2);
    out := AppendVarint(out, |value|);
    out := out + value;
  }

  // ---- Fields read back

  lemma PayloadRoundTrip(value: bytes, rest: bytes)
    requires |value| <= MAX_INT
    ensures ReadPayload(EncodeVarint(|value|) + value + rest)
            == Got(value, |EncodeVarint(|value|)| + |value|)
  {
    hide EncodeVarint, DecodeVarint;
    var size := EncodeVarint(|value|);
    var data := size + value + rest;
    assert data == size + (value + rest);
    VarintRoundTrip(|value|, value + rest);
    assert data[|size|..|size| + |value|] == value;
  }

  lemma NextLengthDelimited(field: nat, value: bytes, rest: bytes)
    requires 0 < field < 0x1000_0000_0000_0000 && |value| <= MAX_INT
    ensures NextField(LengthDelimited(field, value) + rest)
            == Got(Field(field, 2, value, 0), |LengthDelimited(field, value)|)
  {
    hide EncodeVarint, DecodeVarint, ReadPayload;
    var tag, payload := EncodeVarint(field * 8 + 2), EncodeVarint(|value|) + value;
    var data := LengthDelimited(field, value) + rest;
    assert data == tag + (payload + rest);
    VarintRoundTrip(field * 8 + 2, payload + rest);
    assert data[|tag|..] == payload + rest;
    PayloadRoundTrip(value, rest);
  }

  lemma NextVarintField(field: nat, value: nat, rest: bytes)
    requires 0 < field < 0x1000_0000_0000_0000 && value < U64
    ensures var data := EncodeVarint(field * 8) + EncodeVarint(value);
            NextField(data + rest) == Got(Field(field, 0, [], value), |data|)
  {
    hide EncodeVarint, DecodeVarint, ReadPayload;
    var tag, number := EncodeVarint(field * 8), EncodeVarint(value);
    var data := tag + number + rest;
    assert data == tag + (number + rest);
    VarintRoundTrip(field * 8, number + rest);
    assert data[|tag|..] == number + rest;
    VarintRoundTrip(value, rest);
  }

  lemma NextFixedField(field: nat, wire: nat, value: bytes, rest: bytes)
    requires 0 < field < 0x1000_0000_0000_0000
    requires (wire == 1 && |value| == 8) || (wire == 5 && |value| == 4)
    ensures var data := EncodeVarint(field * 8 + wire) + value;
            NextField(data + rest) == Got(Field(field, wire, [], 0), |data|)
  {
    hide EncodeVarint, DecodeVarint, ReadPayload;
    var tag := EncodeVarint(field * 8 + wire);
    var data := tag + value + rest;
    assert data == tag + (value + rest);
    VarintRoundTrip(field * 8 + wire, value + rest);
    assert data[|tag|..] == value + rest;
  }

  // ---- Decoding is a merge homomorphism

  lemma FieldNumbersArePositive(data: bytes)
    ensures NextField(data).Got? ==> NextField(data).value.number > 0 && NextField(data).value.wire in {0, 1, 2, 5}
  {
  }

  /** The number 0 and the wire types 3, 4, 6 and 7 are errors for every handler, wherever the loop meets them. */
  lemma BadTagsFail<M>(tag: nat, rest: bytes, handler: Handler<M>, msg: M)
    requires tag < U64 && (tag / 8 == 0 || tag % 8 in {3, 4, 6, 7})
    ensures DecodeFields(EncodeVarint(tag) + rest, handler, msg) == Decoded(msg, false)
  {
    VarintRoundTrip(tag, rest);
    assert EncodeVarint(tag) + rest != [];
  }

  lemma NextFieldPrefix(a: bytes, b: bytes)
    requires NextField(a).Got?
    ensures NextField(a + b) == NextField(a)
  {
    DecodeFromPrefix(a, b, 0, 0);
    var n := DecodeVarint(a).used;
    var rest := a[n..];
    assert (a + b)[n..] == rest + b;
    var wire := DecodeVarint(a).value % 8;
    if wire == 2 {
      DecodeFromPrefix(rest, b, 0, 0);
      var m, length := DecodeVarint(rest).used, DecodeVarint(rest).value;
      assert (rest + b)[m..m + length] == rest[m..m + length];
    } else if wire == 0 {
      DecodeFromPrefix(rest, b, 0, 0);
    }
  }

  /** The bytes are a sequence of whole fields, whatever a handler may say about them. */
  predicate Framed(data: bytes)
    decreases |data|
  {
    data == [] || (NextField(data).Got? && Framed(data[NextField(data).used..]))
  }

  lemma {:induction false} DecodedIsFramed<M>(data: bytes, handler: Handler<M>, msg: M)
    requires DecodeFields(data, handler, msg).ok
    ensures Framed(data)
    decreases |data|
  {
    if data == [] {
    } else {
      var used, field := NextField(data).used, NextField(data).value;
      DecodedIsFramed(data[used..], handler, handler(field, msg).value);
    }
  }

  /** Decoding whole fields a and then b is decoding b into what a left; an error in a is final. */
  lemma {:induction false} DecodeConcat<M>(a: bytes, b: bytes, handler: Handler<M>, msg: M)
    requires Framed(a)
    ensures var first := DecodeFields(a, handler, msg);
            DecodeFields(a + b, handler, msg)
            == if first.ok then DecodeFields(b, handler, first.msg) else first
    decreases |a|
  {
    if a == [] {
      assert a + b == b;
    } else {
      NextFieldPrefix(a, b);
      var used, field := NextField(a).used, NextField(a).value;
      assert (a + b)[used..] == a[used..] + b;
      if handler(field, msg).Some? {
        DecodeConcat(a[used..], b, handler, handler(field, msg).value);
      }
    }
  }

  /** Whatever was decoded without error can be followed by more bytes. */
  lemma DecodeMerges<M>(a: bytes, b: bytes, handler: Handler<M>, msg: M)
    requires DecodeFields(a, handler, msg).ok
    ensures DecodeFields(a + b, handler, msg) == DecodeFields(b, handler, DecodeFields(a, handler, msg).msg)
  {
    DecodedIsFramed(a, handler, msg);
    DecodeConcat(a, b, handler, msg);
  }

  ghost predicate Ignores<M(!new)>(handler: Handler<M>, field: Field) {
    forall msg :: handler(field, msg) == Some(msg)
  }

  /** A whole field the handler ignores may stand at any field boundary. */
  lemma IgnoredFieldChangesNothing<M(!new)>(a: bytes, field: bytes, b: bytes, handler: Handler<M>, msg: M)
    requires Framed(a)
    requires NextField(field).Got? && NextField(field).used == |field| && Ignores(handler, NextField(field).value)
    ensures DecodeFields(a + field + b, handler, msg) == DecodeFields(a + b, handler, msg)
  {
    DecodeConcat(a, b, handler, msg);
    assert a + field + b == a + (field + b);
    DecodeConcat(a, field + b, handler, msg);
    var first := DecodeFields(a, handler, msg);
    if first.ok {
      NextFieldPrefix(field, b);
      assert (field + b)[|field|..] == b;
    }
  }

  // ---- Decoding one written field

  lemma DecodeNothing<M>(handler: Handler<M>, msg: M)
    ensures DecodeFields([], handler, msg) == Decoded(msg, true)
  {
  }

  lemma DecodeStringField<M>(field: nat, value: bytes, handler: Handler<M>, msg: M)
    requires 0 < field < 16 && |value| <= MAX_INT
    requires value != [] ==> handler(Field(field, 2, value, 0), msg).Some?
    ensures DecodeFields(StringField(field, value), handler, msg)
            == Decoded(if value == [] then msg else handler(Field(field, 2, value, 0), msg).value, true)
  {
    if value != [] {
      DecodeMessageField(field, value, handler, msg);
    }
  }

  lemma DecodeMessageField<M>(field: nat, value: bytes, handler: Handler<M>, msg: M)
    requires 0 < field < 16 && |value| <= MAX_INT
    requires handler(Field(field, 2, value, 0), msg).Some?
    ensures DecodeFields(LengthDelimited(field, value), handler, msg)
            == Decoded(handler(Field(field, 2, value, 0), msg).value, true)
  {
    var data := LengthDelimited(field, value);
    NextLengthDelimited(field, value, []);
    assert data + [] == data && data[|data|..] == [];
  }

  lemma DecodeBoolField<M>(field: nat, value: bool, handler: Handler<M>, msg: M)
    requires 0 < field < 16
    requires value ==> handler(Field(field, 0, [], 1), msg).Some?
    ensures DecodeFields(BoolField(field, value), handler, msg)
            == Decoded(if value then handler(Field(field, 0, [], 1), msg).value else msg, true)
  {
    if value {
      var data := BoolField(field, value);
      assert EncodeVarint(1) == [1];
      NextVarintField(field, 1, []);
      assert data + [] == data && data[|data|..] == [];
    }
  }
}
