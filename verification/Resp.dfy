/**
  The Redis serialization protocol as gateway/redis_store.go speaks it: encodeRESP writes a
  command as an array of bulk strings, readRESP reads any reply recursively.
 */
module Resp {
  import opened Bytes
  import opened Wrappers

  const CR: byte := 13
  const LF: byte := 10
  const CRLF: bytes := [13, 10]
  const ARRAY: byte := 42     // '*'
  const BULK: byte := 36      // '$'
  const SIMPLE: byte := 43    // '+'
  const INTEGER: byte := 58   // ':'

  datatype Reply = Simple(text: bytes) | Integer(number: int) | Nil | Bulk(value: bytes) | Array(items: seq<Reply>)

  /** Panicked: make is called with a length it does not admit, which the reader does not guard against. */
  datatype Parsed<T> = Parsed(value: T, used: nat) | Failed | Panicked

  // ---- Decimal numbers, as fmt's %d prints and strconv.Atoi reads them

  function Decimal(n: nat): (text: bytes)
    ensures |text| > 0
  {
    if n < 10 then [48 + n] else Decimal(n / 10) + [48 + n % 10]
  }

  predicate IsDigit(b: byte) {
    48 <= b <= 57
  }

  predicate AllDigits(text: bytes) {
    forall i | 0 <= i < |text| :: IsDigit(text[i])
  }

  function DigitsValue(text: bytes): int {
    if text == [] then 0 else DigitsValue(text[..|text| - 1]) * 10 + (text[|text| - 1] as int - 48)
  }

  function Atoi(text: bytes): Option<int> {
    var signed := text != [] && (text[0] == 43 || text[0] == 45);
    var digits := if signed then text[1..] else text;
    if digits == [] || !AllDigits(digits) then None
    else
      var v := if signed && text[0] == 45 then -DigitsValue(digits) else DigitsValue(digits);
      if -MAX_INT - 1 <= v <= MAX_INT then Some(v) else None
  }

  // ---- Writing

  function Header(kind: byte, n: nat): bytes {
    [kind] + Decimal(n) + CRLF
  }

  function BulkBytes(arg: bytes): bytes {
    Header(BULK, |arg|) + arg + CRLF
  }

  function BulksBytes(args: seq<bytes>): bytes {
    if args == [] then [] else BulksBytes(args[..|args| - 1]) + BulkBytes(args[|args| - 1])
  }

  function CommandBytes(args: seq<bytes>): bytes {
    Header(ARRAY, |args|) + BulksBytes(args)
  }

  /** encodeRESP */
  method EncodeResp(args: seq<bytes>) returns (out: bytes)
    ensures out == CommandBytes(args)
  {
    out := Header(ARRAY, |args|);
    for i := 0 to |args|
      invariant out == Header(ARRAY, |args|) + BulksBytes(args[..i])
    {
      assert args[..i + 1][..i] == args[..i];
      out := out + Header(BULK, |args[i]|) + args[i] + CRLF;
    }
    assert args[..|args|] == args;
  }

  // ---- Reading

  /** The position just after the first line feed, if there is one. */
  function LineEnd(data: bytes): (end: Option<nat>)
    ensures end.Some? ==> 1 <= end.value <= |data| && data[end.value - 1] == LF
  {
    if data == [] then None
    else if data[0] == LF then Some(1)
    else
      match LineEnd(data[1..])
      case None => None
      case Some(n) => Some(n + 1)
  }

  lemma NoLine()
    ensures LineEnd([]).None?
  {
  }

  lemma LineEndStep(data: bytes, pos: nat)
    requires pos < |data|
    ensures LineEnd(data[pos..])
            == if data[pos] == LF then Some(1)
               else match LineEnd(data[pos + 1..]) case None => None case Some(n) => Some(n + 1)
  {
    assert data[pos..][0] == data[pos] && data[pos..][1..] == data[pos + 1..];
  }

  function TrimLine(line: bytes): bytes {
    var n := |line|;
    var l := if n > 0 && line[n - 1] == LF then line[..n - 1] else line;
    if |l| > 0 && l[|l| - 1] == CR then l[..|l| - 1] else l
  }

  // The largest allocation that Go's make admits depends on the platform; it is the parameter room.

  /** make([]byte, n + 2): the sum must not wrap around, and must be admitted. */
  predicate BulkFits(room: nat, n: nat) {
    n <= MAX_INT - 2 && n + 2 <= room
  }

  /** make([]any, n): an interface value takes 16 bytes. */
  predicate ArrayFits(room: nat, n: int) {
    0 <= n && 16 * n <= room
  }

  function ParseBulk(room: nat, n: int, rest: bytes): (r: Parsed<Reply>)
    ensures r.Parsed? ==> r.used <= |rest|
  {
    if n < 0 then Parsed(Nil, 0)
    else if !BulkFits(room, n) then Panicked
    else if |rest| < n + 2 then Failed
    else Parsed(Bulk(rest[..n]), n + 2)
  }

  /** The reply whose first line was kind and line. */
  function ParseBody(room: nat, kind: byte, line: bytes, rest: bytes): (r: Parsed<Reply>)
    ensures r.Parsed? ==> r.used <= |rest|
    decreases |rest|, 2
  {
    if kind == SIMPLE then Parsed(Simple(line), 0)
    else if kind != INTEGER && kind != BULK && kind != ARRAY then Failed
    else
      match Atoi(line)
      case None => Failed
      case Some(n) =>
        if kind == INTEGER then Parsed(Integer(n), 0)
        else if kind == BULK then ParseBulk(room, n, rest)
        else if !ArrayFits(room, n) then Panicked
        else
          match ParseMany(room, rest, n)
          case Failed => Failed
          case Panicked => Panicked
          case Parsed(items, used) => Parsed(Array(items), used)
  }

  function Parse(room: nat, data: bytes): (r: Parsed<Reply>)
    ensures r.Parsed? ==> 1 <= r.used <= |data|
    decreases |data|, 0
  {
    if data == [] || LineEnd(data[1..]).None? then Failed
    else
      var header := 1 + LineEnd(data[1..]).value;
      match ParseBody(room, data[0], TrimLine(data[1..header]), data[header..])
      case Failed => Failed
      case Panicked => Panicked
      case Parsed(reply, used) => Parsed(reply, header + used)
  }

  /** n replies in a row. */
  function ParseMany(room: nat, data: bytes, n: nat): (r: Parsed<seq<Reply>>)
    ensures r.Parsed? ==> r.used <= |data| && |r.value| == n
    decreases |data|, 1
  {
    if n == 0 then Parsed([], 0)
    else
      match Parse(room, data)
      case Failed => Failed
      case Panicked => Panicked
      case Parsed(first, used) =>
        match ParseMany(room, data[used..], n - 1)
        case Failed => Failed
        case Panicked => Panicked
        case Parsed(more, used') => Parsed([first] + more, used + used')
  }

  datatype Outcome = Ok | Err | Panic

  /** The method returns a value, returns an error or panics, as the parse says. */
  ghost predicate Tells<T>(outcome: Outcome, p: Parsed<T>) {
    && (outcome == Ok <==> p.Parsed?)
    && (outcome == Err <==> p.Failed?)
    && (outcome == Panic <==> p.Panicked?)
  }

  /** The bufio.Reader of one connection, consumed from the front. */
  class Reader {
    const data: bytes
    const room: nat
    var pos: nat

    ghost predicate Valid()
      reads this
    {
      pos <= |data|
    }

    constructor (data: bytes, room: nat)
      ensures Valid() && this.data == data && this.room == room && pos == 0
    {
      this.data, this.room := data, room;
      pos := 0;
    }

    /** ReadString('\n') */
    method ReadLine() returns (ok: bool, line: bytes)
      requires Valid()
      modifies this
      ensures Valid() && pos >= old(pos)
      ensures ok == LineEnd(data[old(pos)..]).Some?
      ensures ok ==> pos == old(pos) + LineEnd(data[old(pos)..]).value && line == data[old(pos)..pos]
    {
      hide LineEnd;
      var start := pos;
      NoLine();
      while pos < |data|
        invariant Valid() && start <= pos
        invariant LineEnd(data[start..])
                  == match LineEnd(data[pos..]) case None => None case Some(n) => Some(pos - start + n)
      {
        LineEndStep(data, pos);
        pos := pos + 1;
        if data[pos - 1] == LF {
          return true, data[start..pos];
        }
      }
      return false, [];
    }

    /** readRESP */
    method ReadReply() returns (outcome: Outcome, reply: Reply)
      requires Valid()
      modifies this
      ensures Valid() && pos >= old(pos)
      ensures Tells(outcome, Parse(room, data[old(pos)..]))
      ensures outcome == Ok ==> Parse(room, data[old(pos)..]) == Parsed(reply, pos - old(pos))
      decreases |data| - pos, 0
    {
      hide ParseBody, TrimLine;
      var start := pos;
      ghost var input := data[start..];
      if pos == |data| {
        return Err, Nil;
      }
      var kind := data[pos];
      pos := pos + 1;
      assert input[1..] == data[start + 1..];
      var ok, line := ReadLine();
      if !ok {
        return Err, Nil;
      }
      assert input[1..pos - start] == line && input[pos - start..] == data[pos..];
      outcome, reply := ReadBody(kind, TrimLine(line));
    }

    method ReadBody(kind: byte, line: bytes) returns (outcome: Outcome, reply: Reply)
      requires Valid()
      modifies this
      ensures Valid() && pos >= old(pos)
      ensures Tells(outcome, ParseBody(room, kind, line, data[old(pos)..]))
      ensures outcome == Ok ==> ParseBody(room, kind, line, data[old(pos)..]) == Parsed(reply, pos - old(pos))
      decreases |data| - pos, 2
    {
      hide Atoi, ParseMany;
      if kind == SIMPLE {
        return Ok, Simple(line);
      }
      if kind != INTEGER && kind != BULK && kind != ARRAY {
        return Err, Nil;
      }
      var number := Atoi(line);
      if number.None? {
        return Err, Nil;
      }
      var n := number.value;
      if kind == INTEGER {
        return Ok, Integer(n);
      }
      if kind == BULK {
        outcome, reply := ReadBulk(n);
        return;
      }
      if !ArrayFits(room, n) {
        return Panic, Nil;
      }
      var items;
      outcome, items := ReadMany(n);
      reply := Array(items);
    }

    method ReadBulk(n: int) returns (outcome: Outcome, reply: Reply)
      requires Valid()
      modifies this
      ensures Valid() && pos >= old(pos)
      ensures Tells(outcome, ParseBulk(room, n, data[old(pos)..]))
      ensures outcome == Ok ==> ParseBulk(room, n, data[old(pos)..]) == Parsed(reply, pos - old(pos))
    {
      if n < 0 {
        return Ok, Nil;
      }
      if !BulkFits(room, n) {
        return Panic, Nil;
      }
      if |data| - pos < n + 2 {
        return Err, Nil;
      }
      assert data[pos..][..n] == data[pos..pos + n];
      reply := Bulk(data[pos..pos + n]);
      pos := pos + n + 2;
      outcome := Ok;
    }

    /** The loop that fills the array slots of a reply. */
    method ReadMany(n: nat) returns (outcome: Outcome, items: seq<Reply>)
      requires Valid()
      modifies this
      ensures Valid() && pos >= old(pos)
      ensures Tells(outcome, ParseMany(room, data[old(pos)..], n))
      ensures outcome == Ok ==> ParseMany(room, data[old(pos)..], n) == Parsed(items, pos - old(pos))
      decreases |data| - pos, 1
    {
      hide ParseMany, Parse, ManyLeft;
      items := [];
      var start := pos;
      ManyLeftStart(room, data[start..], n);
      for i := 0 to n
        invariant Valid() && start <= pos && (i > 0 ==> start < pos)
        invariant ManyLeft(room, data[start..], n, items, pos - start, ParseMany(room, data[pos..], n - i))
      {
        var before := pos;
        var reply;
        outcome, reply := ReadReply();
        ManyLeftStep(room, data[start..], n, items, before - start, data[before..], n - i);
        if outcome != Ok {
          return;
        }
        assert data[before..][pos - before..] == data[pos..];
        items := items + [reply];
      }
      ManyLeftEnd(room, data[start..], n, items, pos - start, data[pos..]);
      outcome := Ok;
    }
  }

  /** What is left to read decides what reading everything gives. */
  ghost predicate ManyLeft(room: nat, data: bytes, n: nat, items: seq<Reply>, used: nat, left: Parsed<seq<Reply>>) {
    ParseMany(room, data, n)
    == match left
       case Failed => Failed
       case Panicked => Panicked
       case Parsed(more, more_used) => Parsed(items + more, used + more_used)
  }

  lemma ManyLeftStart(room: nat, data: bytes, n: nat)
    ensures ManyLeft(room, data, n, [], 0, ParseMany(room, data, n))
  {
    if ParseMany(room, data, n).Parsed? {
      assert [] + ParseMany(room, data, n).value == ParseMany(room, data, n).value;
    }
  }

  lemma ManyLeftStep(room: nat, data: bytes, n: nat, items: seq<Reply>, used: nat, rest: bytes, k: nat)
    requires k > 0 && ManyLeft(room, data, n, items, used, ParseMany(room, rest, k))
    ensures var first := Parse(room, rest);
            if first.Parsed?
            then ManyLeft(room, data, n, items + [first.value], used + first.used,
                          ParseMany(room, rest[first.used..], k - 1))
            else
              var all := ParseMany(room, data, n);
              (all.Failed? <==> first.Failed?) && (all.Panicked? <==> first.Panicked?)
  {
    var first := Parse(room, rest);
    if first.Parsed? && ParseMany(room, rest[first.used..], k - 1).Parsed? {
      var more := ParseMany(room, rest[first.used..], k - 1).value;
      assert items + ([first.value] + more) == items + [first.value] + more;
    }
  }

  lemma ManyLeftEnd(room: nat, data: bytes, n: nat, items: seq<Reply>, used: nat, rest: bytes)
    requires ManyLeft(room, data, n, items, used, ParseMany(room, rest, 0))
    ensures ParseMany(room, data, n) == Parsed(items, used)
  {
    assert items + [] == items;
  }

  // ---- Round trip

  lemma {:induction false} DecimalValue(n: nat)
    ensures AllDigits(Decimal(n)) && DigitsValue(Decimal(n)) == n
  {
    if n >= 10 {
      DecimalValue(n / 10);
      assert Decimal(n)[..|Decimal(n)| - 1] == Decimal(n / 10);
    } else {
      assert Decimal(n)[..0] == [];
    }
  }

  /** Atoi reads back what %d printed. */
  lemma AtoiOfDecimal(n: nat)
    requires n <= MAX_INT
    ensures Atoi(Decimal(n)) == Some(n)
  {
    DecimalValue(n);
    assert IsDigit(Decimal(n)[0]);
  }

  lemma {:induction false} LineEndAfter(text: bytes, rest: bytes)
    requires forall i | 0 <= i < |text| :: text[i] != LF
    ensures LineEnd(text + [LF] + rest) == Some(|text| + 1)
  {
    var data := text + [LF] + rest;
    if text == [] {
    } else {
      LineEndAfter(text[1..], rest);
      assert data[1..] == text[1..] + [LF] + rest;
    }
  }

  /** A line is read without its terminator. */
  lemma LineReads(kind: byte, text: bytes, rest: bytes)
    requires forall i | 0 <= i < |text| :: text[i] != LF
    ensures var data, header := [kind] + text + CRLF + rest, |text| + 3;
            && LineEnd(data[1..]) == Some(header - 1)
            && TrimLine(data[1..header]) == text && data[header..] == rest && data[0] == kind
  {
    var data, header := [kind] + text + CRLF + rest, |text| + 3;
    assert data[1..] == (text + [CR]) + [LF] + rest;
    LineEndAfter(text + [CR], rest);
    var line := text + [CR] + [LF];
    assert data == [kind] + line + rest && header == 1 + |line|;
    assert data[1..header] == line;
  }

  /** A header is read as one line whose number is the one written. */
  lemma HeaderLine(kind: byte, n: nat, rest: bytes)
    requires n <= MAX_INT
    ensures var data, header := Header(kind, n) + rest, |Header(kind, n)|;
            LineEnd(data[1..]) == Some(header - 1)
            && Atoi(TrimLine(data[1..header])) == Some(n)
            && data[header..] == rest && data[0] == kind
  {
    DecimalValue(n);
    LineReads(kind, Decimal(n), rest);
    AtoiOfDecimal(n);
  }

  lemma BulkRoundTrip(room: nat, arg: bytes, rest: bytes)
    requires BulkFits(room, |arg|)
    ensures Parse(room, BulkBytes(arg) + rest) == Parsed(Bulk(arg), |BulkBytes(arg)|)
  {
    var data := BulkBytes(arg) + rest;
    assert data == Header(BULK, |arg|) + (arg + CRLF + rest);
    HeaderLine(BULK, |arg|, arg + CRLF + rest);
    assert (arg + CRLF + rest)[..|arg|] == arg;
  }

  function Bulks(args: seq<bytes>): seq<Reply> {
    seq(|args|, i requires 0 <= i < |args| => Bulk(args[i]))
  }

  lemma {:induction false} BulksFirst(args: seq<bytes>)
    requires args != []
    ensures BulksBytes(args) == BulkBytes(args[0]) + BulksBytes(args[1..])
  {
    hide BulkBytes;
    var n := |args| - 1;
    var first, last := BulkBytes(args[0]), BulkBytes(args[n]);
    if n == 0 {
      assert args[..0] == [] && args[1..] == [];
    } else {
      BulksFirst(args[..n]);
      assert args[..n][1..] == args[1..n] && args[1..][..n - 1] == args[1..n];
      assert BulksBytes(args[1..]) == BulksBytes(args[1..n]) + last;
      assert first + (BulksBytes(args[1..n]) + last) == (first + BulksBytes(args[1..n])) + last;
    }
  }

  lemma BulksStep(room: nat, args: seq<bytes>, rest: bytes)
    requires args != [] && BulkFits(room, |args[0]|)
    requires ParseMany(room, BulksBytes(args[1..]) + rest, |args| - 1)
             == Parsed(Bulks(args[1..]), |BulksBytes(args[1..])|)
    ensures ParseMany(room, BulksBytes(args) + rest, |args|) == Parsed(Bulks(args), |BulksBytes(args)|)
  {
    hide Parse, BulksBytes, Decimal;
    BulksFirst(args);
    var first, more := BulkBytes(args[0]), BulksBytes(args[1..]) + rest;
    assert BulksBytes(args) + rest == first + more;
    BulkRoundTrip(room, args[0], more);
    assert (first + more)[|first|..] == more;
    assert Bulks(args) == [Bulk(args[0])] + Bulks(args[1..]);
  }

  lemma {:induction false} BulksRoundTrip(room: nat, args: seq<bytes>, rest: bytes)
    requires forall arg <- args :: BulkFits(room, |arg|)
    ensures ParseMany(room, BulksBytes(args) + rest, |args|) == Parsed(Bulks(args), |BulksBytes(args)|)
    decreases |args|
  {
    if args == [] {
      assert Bulks(args) == [];
    } else {
      BulksFirst(args);
      BulksRoundTrip(room, args[1..], rest);
      BulksStep(room, args, rest);
    }
  }

  /**
    Reading a written command gives exactly its arguments, whatever bytes they hold, and
    leaves exactly the bytes behind it.
   */
  lemma CommandRoundTrip(room: nat, args: seq<bytes>, rest: bytes)
    requires |args| <= MAX_INT && ArrayFits(room, |args|) && forall arg <- args :: BulkFits(room, |arg|)
    ensures Parse(room, CommandBytes(args) + rest) == Parsed(Array(Bulks(args)), |CommandBytes(args)|)
  {
    hide Atoi, TrimLine, LineEnd, ParseMany, Decimal;
    assert CommandBytes(args) + rest == Header(ARRAY, |args|) + (BulksBytes(args) + rest);
    HeaderLine(ARRAY, |args|, BulksBytes(args) + rest);
    BulksRoundTrip(room, args, rest);
  }

  // ---- Any reply

  /** How %d prints a number of either sign. */
  function Printed(n: int): bytes {
    if n < 0 then [45] + Decimal(-n) else Decimal(n)
  }

  /** The bytes by which a server sends a reply. */
  function Wire(reply: Reply): (wire: bytes)
    decreases reply
  {
    match reply
    case Simple(text) => [43] + text + [13, 10]
    case Integer(n) => [58] + Printed(n) + [13, 10]
    case Nil => [36, 45, 49, 13, 10]
    case Bulk(value) => [36] + Decimal(|value|) + [13, 10] + value + [13, 10]
    case Array(items) => [42] + Decimal(|items|) + [13, 10] + Wires(items)
  }

  function Wires(items: seq<Reply>): bytes {
    if items == [] then [] else Wire(items[0]) + Wires(items[1..])
  }

  /** What a server can send and make admits: no line feed in a line, 64-bit numbers, lengths within limits. */
  predicate Sendable(room: nat, reply: Reply) {
    match reply
    case Simple(text) => LF !in text
    case Integer(n) => -0x8000_0000_0000_0000 <= n <= 0x7fff_ffff_ffff_ffff
    case Nil => true
    case Bulk(value) => BulkFits(room, |value|)
    case Array(items) =>
      |items| <= MAX_INT && ArrayFits(room, |items|) && forall item <- items :: Sendable(room, item)
  }

  /** Atoi reads back what %d printed of a number of either sign. */
  lemma AtoiOfPrinted(n: int)
    requires -0x8000_0000_0000_0000 <= n <= 0x7fff_ffff_ffff_ffff
    ensures Atoi(Printed(n)) == Some(n) && forall i | 0 <= i < |Printed(n)| :: Printed(n)[i] != LF
  {
    hide Decimal, DigitsValue;
    DecimalValue(if n < 0 then -n else n);
    if n < 0 {
      assert Printed(n)[1..] == Decimal(-n);
    } else {
      AtoiOfDecimal(n);
    }
  }

  /** A nonempty run of digits. */
  ghost predicate IsNumeral(text: bytes) {
    text != [] && forall i | 0 <= i < |text| :: 48 <= text[i] <= 57
  }

  /** Atoi accepts exactly an optional sign and a numeral, and its value, if that fits 64 bits. */
  lemma AtoiExactlyWhen(text: bytes, v: int)
    ensures Atoi(text) == Some(v)
       <==> -0x8000_0000_0000_0000 <= v <= 0x7fff_ffff_ffff_ffff
            && ((IsNumeral(text) && v == DigitsValue(text))
                || (text != [] && text[0] == 43 && IsNumeral(text[1..]) && v == DigitsValue(text[1..]))
                || (text != [] && text[0] == 45 && IsNumeral(text[1..]) && v == -DigitsValue(text[1..])))
  {
    hide DigitsValue;
  }

  lemma SimpleReads(room: nat, text: bytes, rest: bytes)
    requires LF !in text
    ensures Parse(room, [43] + text + [13, 10] + rest) == Parsed(Simple(text), |text| + 3)
  {
    LineReads(SIMPLE, text, rest);
  }

  lemma IntegerReads(room: nat, n: int, rest: bytes)
    requires -0x8000_0000_0000_0000 <= n <= 0x7fff_ffff_ffff_ffff
    ensures Parse(room, [58] + Printed(n) + [13, 10] + rest) == Parsed(Integer(n), |Printed(n)| + 3)
  {
    hide Atoi, Printed;
    AtoiOfPrinted(n);
    LineReads(INTEGER, Printed(n), rest);
  }

  lemma NilReads(room: nat, rest: bytes)
    ensures Parse(room, [36, 45, 49, 13, 10] + rest) == Parsed(Nil, 5)
  {
    hide Atoi;
    assert Decimal(1) == [49];
    assert Printed(-1) == [45, 49];
    AtoiOfPrinted(-1);
    LineReads(BULK, [45, 49], rest);
    assert [BULK] + [45, 49] + CRLF + rest == [36, 45, 49, 13, 10] + rest;
  }

  /** An error line fails, and so does a line of a kind the protocol does not have. */
  lemma OtherKindsFail(room: nat, kind: byte, text: bytes, rest: bytes)
    requires LF !in text && kind !in {36, 42, 43, 58}
    ensures Parse(room, [kind] + text + [13, 10] + rest) == Failed
  {
    LineReads(kind, text, rest);
  }

  lemma WiresStep(room: nat, items: seq<Reply>, rest: bytes)
    requires items != []
    requires Parse(room, Wire(items[0]) + (Wires(items[1..]) + rest)) == Parsed(items[0], |Wire(items[0])|)
    requires ParseMany(room, Wires(items[1..]) + rest, |items| - 1) == Parsed(items[1..], |Wires(items[1..])|)
    ensures ParseMany(room, Wires(items) + rest, |items|) == Parsed(items, |Wires(items)|)
  {
    hide Parse, Wire;
    var first, more := Wire(items[0]), Wires(items[1..]) + rest;
    assert Wires(items) + rest == first + more;
    assert (first + more)[|first|..] == more;
    assert [items[0]] + items[1..] == items;
  }

  lemma WiresRead(room: nat, items: seq<Reply>, rest: bytes)
    requires forall item <- items :: Sendable(room, item)
    ensures ParseMany(room, Wires(items) + rest, |items|) == Parsed(items, |Wires(items)|)
    decreases items
  {
    hide Parse, Wire, Sendable;
    if items != [] {
      assert items[0] in items;
      ReplyRoundTrip(room, items[0], Wires(items[1..]) + rest);
      WiresRead(room, items[1..], rest);
      WiresStep(room, items, rest);
    } else {
      assert Wires([]) + rest == rest;
    }
  }

  lemma ArrayReads(room: nat, items: seq<Reply>, rest: bytes)
    requires |items| <= MAX_INT && ArrayFits(room, |items|)
    requires ParseMany(room, Wires(items) + rest, |items|) == Parsed(items, |Wires(items)|)
    ensures var wire := [42] + Decimal(|items|) + [13, 10] + Wires(items);
            Parse(room, wire + rest) == Parsed(Array(items), |wire|)
  {
    hide Atoi, TrimLine, LineEnd, ParseMany, Wires;
    var wire := [42] + Decimal(|items|) + [13, 10] + Wires(items);
    assert wire + rest == Header(ARRAY, |items|) + (Wires(items) + rest);
    HeaderLine(ARRAY, |items|, Wires(items) + rest);
  }

  /** Every reply a server can send, arrays nested to any depth included, is read as itself; what follows is left. */
  lemma ReplyRoundTrip(room: nat, reply: Reply, rest: bytes)
    requires Sendable(room, reply)
    ensures Parse(room, Wire(reply) + rest) == Parsed(reply, |Wire(reply)|)
    decreases reply
  {
    hide Parse, Decimal, Printed, Atoi;
    match reply
    case Simple(text) => SimpleReads(room, text, rest);
    case Integer(n) => IntegerReads(room, n, rest);
    case Nil => NilReads(room, rest);
    case Bulk(value) =>
      BulkRoundTrip(room, value, rest);
      assert BulkBytes(value) == [36] + Decimal(|value|) + [13, 10] + value + [13, 10];
    case Array(items) =>
      WiresRead(room, items, rest);
      ArrayReads(room, items, rest);
  }

  /** A line may end with a bare line feed too. */
  lemma BareLineFeedReads(room: nat, text: bytes, rest: bytes)
    requires LF !in text && (text == [] || text[|text| - 1] != CR)
    ensures Parse(room, [43] + text + [10] + rest) == Parsed(Simple(text), |text| + 2)
  {
    var data := [43] + text + [10] + rest;
    assert data[1..] == text + [LF] + rest;
    LineEndAfter(text, rest);
    assert data == [43] + (text + [LF]) + rest;
    assert data[1..|text| + 2] == text + [LF];
  }

  /** A bulk header panics exactly if its length plus two overflows an int or is more than make admits. */
  lemma BulkPanicsExactlyWhen(room: nat, n: nat, rest: bytes)
    requires n <= 0x7fff_ffff_ffff_ffff
    ensures var r := Parse(room, [36] + Decimal(n) + [13, 10] + rest);
            && (r.Panicked? <==> n + 2 > 0x7fff_ffff_ffff_ffff || n + 2 > room)
            && (r.Failed? <==> !r.Panicked? && |rest| < n + 2)
  {
    hide Atoi, Decimal;
    HeaderLine(BULK, n, rest);
    assert Header(BULK, n) + rest == [36] + Decimal(n) + [13, 10] + rest;
  }

  lemma NothingFollows(room: nat, n: int)
    ensures n >= 0 ==> !ParseMany(room, [], n).Panicked?
  {
    assert Parse(room, []) == Failed;
  }

  /** An array header panics exactly if its length is negative or needs more than make admits, 16 bytes a slot. */
  lemma ArrayPanicsExactlyWhen(room: nat, n: int)
    requires -0x8000_0000_0000_0000 <= n <= 0x7fff_ffff_ffff_ffff
    ensures Parse(room, [42] + Printed(n) + [13, 10]).Panicked? <==> n < 0 || n * 16 > room
  {
    hide Atoi, Printed;
    AtoiOfPrinted(n);
    LineReads(ARRAY, Printed(n), []);
    var data := [42] + Printed(n) + [13, 10];
    assert data + [] == data;
    NothingFollows(room, n);
  }

  lemma {:induction false} NoLineYet(text: bytes)
    requires LF !in text
    ensures LineEnd(text).None?
    decreases |text|
  {
    if text == [] {
    } else {
      NoLineYet(text[1..]);
    }
  }

  lemma CutLineFails(room: nat, kind: byte, text: bytes, rest: bytes, k: nat)
    requires LF !in text && k < |text| + 3
    ensures Parse(room, ([kind] + text + [13, 10] + rest)[..k]) == Failed
  {
    var data := ([kind] + text + [13, 10] + rest)[..k];
    if k > 0 {
      assert data[1..] == (text + [13])[..k - 1];
      NoLineYet(data[1..]);
    }
  }

  lemma DecimalHasNoLine(n: nat)
    ensures LF !in Decimal(n)
  {
    DecimalValue(n);
    assert forall i | 0 <= i < |Decimal(n)| :: IsDigit(Decimal(n)[i]);
  }

  lemma CutBulkFails(room: nat, value: bytes, k: nat)
    requires BulkFits(room, |value|) && k < |BulkBytes(value)|
    ensures Parse(room, BulkBytes(value)[..k]) == Failed
  {
    hide Atoi, Decimal;
    var header := |Header(BULK, |value|)|;
    DecimalHasNoLine(|value|);
    if k < header {
      assert BulkBytes(value) == [BULK] + Decimal(|value|) + [13, 10] + (value + CRLF);
      CutLineFails(room, BULK, Decimal(|value|), value + CRLF, k);
    } else {
      var rest := (value + CRLF)[..k - header];
      assert BulkBytes(value)[..k] == Header(BULK, |value|) + rest;
      HeaderLine(BULK, |value|, rest);
    }
  }

  lemma CutWiresFail(room: nat, items: seq<Reply>, k: nat)
    requires (forall item <- items :: Sendable(room, item)) && k < |Wires(items)|
    ensures ParseMany(room, Wires(items)[..k], |items|) == Failed
    decreases items
  {
    hide Parse, Wire, Sendable;
    assert items[0] in items;
    var first, more := Wire(items[0]), Wires(items[1..]);
    if k < |first| {
      assert Wires(items)[..k] == first[..k];
      CutReplyFails(room, items[0], k);
    } else {
      var rest := more[..k - |first|];
      assert Wires(items)[..k] == first + rest;
      ReplyRoundTrip(room, items[0], rest);
      assert (first + rest)[|first|..] == rest;
      CutWiresFail(room, items[1..], k - |first|);
    }
  }

  lemma CutArrayFails(room: nat, items: seq<Reply>, k: nat)
    requires |items| <= MAX_INT && ArrayFits(room, |items|)
    requires var header := |Decimal(|items|)| + 3;
             header <= k < header + |Wires(items)| ==>
               ParseMany(room, Wires(items)[..k - header], |items|) == Failed
    ensures var wire := [42] + Decimal(|items|) + [13, 10] + Wires(items);
            k < |wire| ==> Parse(room, wire[..k]) == Failed
  {
    hide Atoi, Decimal, ParseMany, Wires;
    var wire := [42] + Decimal(|items|) + [13, 10] + Wires(items);
    var header := |Header(ARRAY, |items|)|;
    DecimalHasNoLine(|items|);
    if k < header {
      CutLineFails(room, ARRAY, Decimal(|items|), Wires(items), k);
    } else if k < |wire| {
      var rest := Wires(items)[..k - header];
      assert wire[..k] == Header(ARRAY, |items|) + rest;
      HeaderLine(ARRAY, |items|, rest);
    }
  }

  /** A reply that breaks off anywhere is an error, never a shorter reply. */
  lemma CutReplyFails(room: nat, reply: Reply, k: nat)
    requires Sendable(room, reply) && k < |Wire(reply)|
    ensures Parse(room, Wire(reply)[..k]) == Failed
    decreases reply
  {
    hide Parse, Decimal, Printed, Atoi;
    match reply
    case Simple(text) =>
      CutLineFails(room, 43, text, [], k);
      assert [43] + text + [13, 10] + [] == Wire(reply);
    case Integer(n) =>
      AtoiOfPrinted(n);
      CutLineFails(room, 58, Printed(n), [], k);
      assert [58] + Printed(n) + [13, 10] + [] == Wire(reply);
    case Nil =>
      CutLineFails(room, 36, [45, 49], [], k);
      assert [36] + [45, 49] + [13, 10] + [] == Wire(reply);
    case Bulk(value) =>
      CutBulkFails(room, value, k);
      assert BulkBytes(value) == Wire(reply);
    case Array(items) =>
      var header := |Decimal(|items|)| + 3;
      if header <= k {
        CutWiresFail(room, items, k - header);
      }
      CutArrayFails(room, items, k);
  }

  /** A reply that fails makes the whole array fail. */
  lemma {:induction false} ManyFails(room: nat, items: seq<Reply>, data: bytes, n: nat)
    requires (forall item <- items :: Sendable(room, item)) && Parse(room, data) == Failed && |items| < n
    ensures ParseMany(room, Wires(items) + data, n) == Failed
    decreases |items|
  {
    hide Parse, Wire, Sendable;
    if items == [] {
      assert Wires(items) + data == data;
    } else {
      var first, more := Wire(items[0]), Wires(items[1..]) + data;
      assert Wires(items) + data == first + more;
      assert items[0] in items;
      ReplyRoundTrip(room, items[0], more);
      assert (first + more)[|first|..] == more;
      ManyFails(room, items[1..], data, n - 1);
    }
  }

  /** So an error line among the items of an array fails the array, whatever follows. */
  lemma ErrorInArrayFails(room: nat, items: seq<Reply>, n: nat, text: bytes, rest: bytes)
    requires (forall item <- items :: Sendable(room, item)) && |items| < n <= MAX_INT && ArrayFits(room, n)
    requires LF !in text
    ensures Parse(room, [42] + Decimal(n) + [13, 10] + Wires(items) + ([45] + text + [13, 10] + rest)) == Failed
  {
    hide Atoi, TrimLine, LineEnd, ParseMany, Wires;
    var error := [45] + text + [13, 10] + rest;
    OtherKindsFail(room, 45, text, rest);
    ManyFails(room, items, error, n);
    assert [42] + Decimal(n) + [13, 10] + Wires(items) + error == Header(ARRAY, n) + (Wires(items) + error);
    HeaderLine(ARRAY, n, Wires(items) + error);
  }

  // ---- When the reader panics

  /**
    A scan from left to right, without recursion into arrays: owed counts the replies still to come,
    and the scan stops at the first length that make does not admit, or where reading fails.
   */
  predicate HitsBad(room: nat, data: bytes, owed: nat)
    decreases |data|, 0
  {
    if owed == 0 || data == [] || LineEnd(data[1..]).None? then false
    else
      var header := 1 + LineEnd(data[1..]).value;
      BodyHitsBad(room, data[0], TrimLine(data[1..header]), data[header..], owed - 1)
  }

  /** The same behind a header: a bulk string is skipped, an array owes its items. */
  predicate BodyHitsBad(room: nat, kind: byte, line: bytes, rest: bytes, more: nat)
    decreases |rest|, 1
  {
    var number := Atoi(line);
    if kind == SIMPLE then HitsBad(room, rest, more)
    else if number.None? then false
    else if kind == INTEGER then HitsBad(room, rest, more)
    else if kind == ARRAY then !ArrayFits(room, number.value) || HitsBad(room, rest, more + number.value)
    else if kind != BULK then false
    else if number.value < 0 then HitsBad(room, rest, more)
    else if !BulkFits(room, number.value) then true
    else |rest| >= number.value + 2 && HitsBad(room, rest[number.value + 2..], more)
  }

  /** What a reader that still owes `more` replies finds behind the one it reads now. */
  ghost predicate Agrees<T>(room: nat, r: Parsed<T>, data: bytes, owed: nat, more: nat) {
    HitsBad(room, data, owed)
    == match r
       case Parsed(_, used) => used <= |data| && HitsBad(room, data[used..], more)
       case Failed => false
       case Panicked => true
  }

  lemma {:induction false} ParseAgrees(room: nat, data: bytes, more: nat)
    ensures Agrees(room, Parse(room, data), data, 1 + more, more)
    decreases |data|, 0
  {
    hide Atoi, TrimLine, ParseBody, BodyHitsBad;
    if data != [] && LineEnd(data[1..]).Some? {
      var header := 1 + LineEnd(data[1..]).value;
      var kind, line, rest := data[0], TrimLine(data[1..header]), data[header..];
      BodyAgrees(room, kind, line, rest, more);
      var body := ParseBody(room, kind, line, rest);
      if body.Parsed? {
        assert data[header + body.used..] == rest[body.used..];
      }
    }
  }

  lemma {:induction false} BodyAgrees(room: nat, kind: byte, line: bytes, rest: bytes, more: nat)
    ensures BodyHitsBad(room, kind, line, rest, more)
            == match ParseBody(room, kind, line, rest)
               case Parsed(_, used) => used <= |rest| && HitsBad(room, rest[used..], more)
               case Failed => false
               case Panicked => true
    decreases |rest|, 2
  {
    hide Atoi, HitsBad, ParseMany;
    assert rest[0..] == rest;
    if kind == ARRAY && Atoi(line).Some? && ArrayFits(room, Atoi(line).value) {
      ManyAgrees(room, rest, Atoi(line).value, more);
    }
  }

  lemma {:induction false} ManyAgrees(room: nat, data: bytes, n: nat, more: nat)
    ensures Agrees(room, ParseMany(room, data, n), data, n + more, more)
    decreases |data|, 1, n
  {
    hide Parse, HitsBad;
    if n == 0 {
      assert data[0..] == data;
    } else {
      ParseAgrees(room, data, n - 1 + more);
      var first := Parse(room, data);
      if first.Parsed? {
        var rest := data[first.used..];
        ManyAgrees(room, rest, n - 1, more);
        var others := ParseMany(room, rest, n - 1);
        if others.Parsed? {
          assert data[first.used + others.used..] == rest[others.used..];
        }
      }
    }
  }

  lemma NothingOwed(room: nat)
    ensures forall rest :: !HitsBad(room, rest, 0)
  {
  }

  /** For all bytes: the recursive reader panics exactly when the flat scan meets a bad length. */
  lemma PanicsExactlyWhen(room: nat, data: bytes)
    ensures Parse(room, data).Panicked? <==> HitsBad(room, data, 1)
  {
    hide Parse;
    ParseAgrees(room, data, 0);
    NothingOwed(room);
  }

  /** The null array of the protocol, *-1, is such an input on every platform. */
  lemma NullArrayPanics(room: nat, rest: bytes)
    ensures Parse(room, [ARRAY, 45, 49, CR, LF] + rest).Panicked?
  {
    var data := [ARRAY, 45, 49, CR, LF] + rest;
    assert data[1..] == [45, 49, CR] + [LF] + rest;
    LineEndAfter([45, 49, CR], rest);
    assert data[1..5] == [45, 49, CR, LF];
    assert TrimLine(data[1..5]) == [45, 49];
    assert [45, 49][1..] == [49] && [49][..0] == [];
    assert DigitsValue([49]) == 1;
    assert AllDigits([49]);
  }
}
