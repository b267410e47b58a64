/** The message types of gateway/proto_codec.go: their encoders, decoders and round trips. */
module ProtoCodec {
  import opened Bytes
  import opened Wrappers
  import opened Varint
  import opened ProtoFields

  datatype Message = Message(role: bytes, content: bytes)
  datatype Source = Source(chunkId: bytes, source: bytes, chapter: bytes)

  datatype AskRequest = AskRequest(requestId: bytes, sessionId: bytes, userId: bytes, query: bytes,
                                   language: bytes, history: seq<Message>, payloadJson: bytes)

  datatype AskResponse = AskResponse(traceId: bytes, answer: bytes, intent: bytes, validated: bool,
                                     sources: seq<Source>, payloadJson: bytes)

  datatype AskEvent = AskEvent(event: bytes, delta: bytes, payloadJson: bytes)

  datatype Readiness = Readiness(status: bytes, checksJson: bytes)

  const NO_MESSAGE := Message([], [])
  const NO_SOURCE := Source([], [], [])
  const NO_REQUEST := AskRequest([], [], [], [], [], [], [])
  const NO_RESPONSE := AskResponse([], [], [], false, [], [])
  const NO_EVENT := AskEvent([], [], [])
  const NO_READINESS := Readiness([], [])

  // ---- What the encoders write

  function MessageBytes(m: Message): bytes {
    StringField(1, m.role) + StringField(2, m.content)
  }

  function SourceBytes(s: Source): bytes {
    StringField(1, s.chunkId) + StringField(2, s.source) + StringField(3, s.chapter)
  }

  function HistoryBytes(history: seq<Message>): bytes {
    if history == [] then []
    else HistoryBytes(history[..|history| - 1]) + LengthDelimited(6, MessageBytes(history[|history| - 1]))
  }

  function SourcesBytes(sources: seq<Source>): bytes {
    if sources == [] then []
    else SourcesBytes(sources[..|sources| - 1]) + LengthDelimited(5, SourceBytes(sources[|sources| - 1]))
  }

  function RequestHead(r: AskRequest): bytes {
    StringField(1, r.requestId) + StringField(2, r.sessionId) + StringField(3, r.userId)
    + StringField(4, r.query) + StringField(5, r.language)
  }

  function RequestBytes(r: AskRequest): bytes {
    RequestHead(r) + HistoryBytes(r.history) + StringField(7, r.payloadJson)
  }

  function ResponseHead(r: AskResponse): bytes {
    StringField(1, r.traceId) + StringField(2, r.answer) + StringField(3, r.intent) + BoolField(4, r.validated)
  }

  function ResponseBytes(r: AskResponse): bytes {
    ResponseHead(r) + SourcesBytes(r.sources) + StringField(6, r.payloadJson)
  }

  function EventBytes(e: AskEvent): bytes {
    StringField(1, e.event) + StringField(2, e.delta) + StringField(3, e.payloadJson)
  }

  function ReadinessBytes(r: Readiness): bytes {
    StringField(1, r.status) + StringField(2, r.checksJson)
  }

  // ---- The field handlers

  function MessageHandler(f: Field, m: Message): Option<Message> {
    if f.wire != 2 then None
    else if f.number == 1 then Some(m.(role := f.raw))
    else if f.number == 2 then Some(m.(content := f.raw))
    else Some(m)
  }

  function SourceHandler(f: Field, s: Source): Option<Source> {
    if f.wire != 2 then None
    else if f.number == 1 then Some(s.(chunkId := f.raw))
    else if f.number == 2 then Some(s.(source := f.raw))
    else if f.number == 3 then Some(s.(chapter := f.raw))
    else Some(s)
  }

  function RequestHandler(f: Field, r: AskRequest): Option<AskRequest> {
    if 1 <= f.number <= 7 && f.wire != 2 then None
    else
      match f.number
      case 1 => Some(r.(requestId := f.raw))
      case 2 => Some(r.(sessionId := f.raw))
      case 3 => Some(r.(userId := f.raw))
      case 4 => Some(r.(query := f.raw))
      case 5 => Some(r.(language := f.raw))
      case 7 => Some(r.(payloadJson := f.raw))
      case 6 =>
        var item := DecodeFields(f.raw, MessageHandler, NO_MESSAGE);
        if item.ok then Some(r.(history := r.history + [item.msg])) else None
      case _ => Some(r)
  }

  function ResponseHandler(f: Field, r: AskResponse): Option<AskResponse> {
    if f.number in {1, 2, 3, 5, 6} && f.wire != 2 then None
    else if f.number == 4 && f.wire != 0 then None
    else
      match f.number
      case 1 => Some(r.(traceId := f.raw))
      case 2 => Some(r.(answer := f.raw))
      case 3 => Some(r.(intent := f.raw))
      case 6 => Some(r.(payloadJson := f.raw))
      case 4 => Some(r.(validated := f.value != 0))
      case 5 =>
        var item := DecodeFields(f.raw, SourceHandler, NO_SOURCE);
        if item.ok then Some(r.(sources := r.sources + [item.msg])) else None
      case _ => Some(r)
  }

  function EventHandler(f: Field, e: AskEvent): Option<AskEvent> {
    if f.number < 1 || f.number > 3 || f.wire != 2 then None
    else if f.number == 1 then Some(e.(event := f.raw))
    else if f.number == 2 then Some(e.(delta := f.raw))
    else Some(e.(payloadJson := f.raw))
  }

  function ReadinessHandler(f: Field, r: Readiness): Option<Readiness> {
    if f.wire != 2 then None
    else if f.number == 1 then Some(r.(status := f.raw))
    else if f.number == 2 then Some(r.(checksJson := f.raw))
    else Some(r)
  }

  // ---- The encoders and decoders as the gateway runs them

  method MarshalMessage(m: Message) returns (data: bytes)
    requires |m.role| <= MAX_INT && |m.content| <= MAX_INT
    ensures data == MessageBytes(m)
  {
    data := AppendStringField([], 1, m.role);
    data := AppendStringField(data, 2, m.content);
  }

  method MarshalSource(s: Source) returns (data: bytes)
    requires |s.chunkId| <= MAX_INT && |s.source| <= MAX_INT && |s.chapter| <= MAX_INT
    ensures data == SourceBytes(s)
  {
    data := AppendStringField([], 1, s.chunkId);
    data := AppendStringField(data, 2, s.source);
    data := AppendStringField(data, 3, s.chapter);
  }

  method AppendHistory(dst: bytes, history: seq<Message>) returns (data: bytes)
    requires |HistoryBytes(history)| <= MAX_INT
    ensures data == dst + HistoryBytes(history)
  {
    hide LengthDelimited, MessageBytes, SourceBytes;
    data := dst;
    for i := 0 to |history|
      invariant data == dst + HistoryBytes(history[..i])
    {
      HistoryParts(history, i);
      assert history[..i + 1][..i] == history[..i];
      var item := MarshalMessage(history[i]);
      data := AppendMessageField(data, 6, item);
    }
    assert history[..|history|] == history;
  }

  method MarshalAskRequest(r: AskRequest) returns (data: bytes)
    requires |RequestBytes(r)| <= MAX_INT
    ensures data == RequestBytes(r)
  {
    hide StringField, BoolField, HistoryBytes, SourcesBytes;
    RequestParts(r);
    data := AppendStringField([], 1, r.requestId);
    data := AppendStringField(data, 2, r.sessionId);
    data := AppendStringField(data, 3, r.userId);
    data := AppendStringField(data, 4, r.query);
    data := AppendStringField(data, 5, r.language);
    assert data == RequestHead(r);
    data := AppendHistory(data, r.history);
    data := AppendStringField(data, 7, r.payloadJson);
  }

  method AppendSources(dst: bytes, sources: seq<Source>) returns (data: bytes)
    requires |SourcesBytes(sources)| <= MAX_INT
    ensures data == dst + SourcesBytes(sources)
  {
    hide LengthDelimited, MessageBytes, SourceBytes;
    data := dst;
    for i := 0 to |sources|
      invariant data == dst + SourcesBytes(sources[..i])
    {
      SourcesParts(sources, i);
      assert sources[..i + 1][..i] == sources[..i];
      var item := MarshalSource(sources[i]);
      data := AppendMessageField(data, 5, item);
    }
    assert sources[..|sources|] == sources;
  }

  method MarshalAskResponse(r: AskResponse) returns (data: bytes)
    requires |ResponseBytes(r)| <= MAX_INT
    ensures data == ResponseBytes(r)
  {
    hide StringField, BoolField, HistoryBytes, SourcesBytes;
    ResponseParts(r);
    data := AppendStringField([], 1, r.traceId);
    data := AppendStringField(data, 2, r.answer);
    data := AppendStringField(data, 3, r.intent);
    data := AppendBoolField(data, 4, r.validated);
    assert data == ResponseHead(r);
    data := AppendSources(data, r.sources);
    data := AppendStringField(data, 6, r.payloadJson);
  }

  method MarshalAskEvent(e: AskEvent) returns (data: bytes)
    requires |e.event| <= MAX_INT && |e.delta| <= MAX_INT && |e.payloadJson| <= MAX_INT
    ensures data == EventBytes(e)
  {
    data := AppendStringField([], 1, e.event);
    data := AppendStringField(data, 2, e.delta);
    data := AppendStringField(data, 3, e.payloadJson);
  }

  method MarshalReadinessResponse(r: Readiness) returns (data: bytes)
    requires |r.status| <= MAX_INT && |r.checksJson| <= MAX_INT
    ensures data == ReadinessBytes(r)
  {
    data := AppendStringField([], 1, r.status);
    data := AppendStringField(data, 2, r.checksJson);
  }

  method UnmarshalAskRequest(data: bytes, r: AskRequest) returns (ok: bool, r': AskRequest)
    ensures Decoded(r', ok) == DecodeFields(data, RequestHandler, r)
  {
    ok, r' := UnmarshalFields(data, RequestHandler, r);
  }

  method UnmarshalAskResponse(data: bytes, r: AskResponse) returns (ok: bool, r': AskResponse)
    ensures Decoded(r', ok) == DecodeFields(data, ResponseHandler, r)
  {
    ok, r' := UnmarshalFields(data, ResponseHandler, r);
  }

  method UnmarshalAskEvent(data: bytes, e: AskEvent) returns (ok: bool, e': AskEvent)
    ensures Decoded(e', ok) == DecodeFields(data, EventHandler, e)
  {
    ok, e' := UnmarshalFields(data, EventHandler, e);
  }

  method UnmarshalReadinessResponse(data: bytes, r: Readiness) returns (ok: bool, r': Readiness)
    ensures Decoded(r', ok) == DecodeFields(data, ReadinessHandler, r)
  {
    ok, r' := UnmarshalFields(data, ReadinessHandler, r);
  }

  // ---- Sizes: the parts of a message that fits fit too

  lemma {:induction false} HistoryParts(history: seq<Message>, i: nat)
    requires i < |history|
    ensures |MessageBytes(history[i])| <= |HistoryBytes(history)|
    ensures |history[i].role| <= |HistoryBytes(history)| && |history[i].content| <= |HistoryBytes(history)|
  {
    if i < |history| - 1 {
      HistoryParts(history[..|history| - 1], i);
    }
  }

  lemma {:induction false} SourcesParts(sources: seq<Source>, i: nat)
    requires i < |sources|
    ensures |SourceBytes(sources[i])| <= |SourcesBytes(sources)|
    ensures |sources[i].chunkId| <= |SourcesBytes(sources)| && |sources[i].source| <= |SourcesBytes(sources)|
            && |sources[i].chapter| <= |SourcesBytes(sources)|
  {
    if i < |sources| - 1 {
      SourcesParts(sources[..|sources| - 1], i);
    }
  }

  lemma RequestParts(r: AskRequest)
    ensures var n := |RequestBytes(r)|;
            |r.requestId| <= n && |r.sessionId| <= n && |r.userId| <= n && |r.query| <= n && |r.language| <= n
            && |HistoryBytes(r.history)| <= n && |r.payloadJson| <= n
  {
  }

  lemma ResponseParts(r: AskResponse)
    ensures var n := |ResponseBytes(r)|;
            |r.traceId| <= n && |r.answer| <= n && |r.intent| <= n
            && |SourcesBytes(r.sources)| <= n && |r.payloadJson| <= n
  {
  }

  // ---- Round trips

  lemma EventParts(e: AskEvent)
    ensures var n := |EventBytes(e)|; |e.event| <= n && |e.delta| <= n && |e.payloadJson| <= n
  {
  }

  lemma ReadinessParts(r: Readiness)
    ensures var n := |ReadinessBytes(r)|; |r.status| <= n && |r.checksJson| <= n
  {
  }

  function Last(earlier: bytes, later: bytes): bytes {
    if later == [] then earlier else later
  }

  /** Appending one more decoded piece. */
  lemma Then<M>(a: bytes, b: bytes, handler: Handler<M>, start: M, middle: M, end: M)
    requires DecodeFields(a, handler, start) == Decoded(middle, true)
    requires DecodeFields(b, handler, middle) == Decoded(end, true)
    ensures DecodeFields(a + b, handler, start) == Decoded(end, true)
  {
    DecodeMerges(a, b, handler, start);
  }

  /** Appending one more string field, which the handler may change the message with. */
  lemma ThenString<M>(a: bytes, field: nat, value: bytes, handler: Handler<M>, start: M, middle: M, end: M)
    requires 0 < field < 16 && |value| <= MAX_INT
    requires DecodeFields(a, handler, start) == Decoded(middle, true)
    requires if value == [] then end == middle else handler(Field(field, 2, value, 0), middle) == Some(end)
    ensures DecodeFields(a + StringField(field, value), handler, start) == Decoded(end, true)
  {
    DecodeStringField(field, value, handler, middle);
    Then(a, StringField(field, value), handler, start, middle, end);
  }

  lemma MessageRoundTrip(m: Message)
    requires |MessageBytes(m)| <= MAX_INT
    ensures DecodeFields(MessageBytes(m), MessageHandler, NO_MESSAGE) == Decoded(m, true)
  {
    var m1 := NO_MESSAGE.(role := m.role);
    DecodeStringField(1, m.role, MessageHandler, NO_MESSAGE);
    DecodeStringField(2, m.content, MessageHandler, m1);
    Then(StringField(1, m.role), StringField(2, m.content), MessageHandler, NO_MESSAGE, m1, m);
  }

  lemma SourceRoundTrip(s: Source)
    requires |SourceBytes(s)| <= MAX_INT
    ensures DecodeFields(SourceBytes(s), SourceHandler, NO_SOURCE) == Decoded(s, true)
  {
    var s1 := NO_SOURCE.(chunkId := s.chunkId);
    var s2 := s1.(source := s.source);
    DecodeStringField(1, s.chunkId, SourceHandler, NO_SOURCE);
    DecodeStringField(2, s.source, SourceHandler, s1);
    DecodeStringField(3, s.chapter, SourceHandler, s2);
    Then(StringField(1, s.chunkId), StringField(2, s.source), SourceHandler, NO_SOURCE, s1, s2);
    Then(StringField(1, s.chunkId) + StringField(2, s.source), StringField(3, s.chapter), SourceHandler, NO_SOURCE,
         s2, s);
  }

  lemma HistoryItemDecodes(item: Message, r: AskRequest)
    requires |MessageBytes(item)| <= MAX_INT
    ensures DecodeFields(LengthDelimited(6, MessageBytes(item)), RequestHandler, r)
            == Decoded(r.(history := r.history + [item]), true)
  {
    hide LengthDelimited, MessageBytes, SourceBytes;
    MessageRoundTrip(item);
    DecodeMessageField(6, MessageBytes(item), RequestHandler, r);
  }

  lemma {:induction false} HistoryDecodes(history: seq<Message>, r: AskRequest)
    requires |HistoryBytes(history)| <= MAX_INT
    ensures DecodeFields(HistoryBytes(history), RequestHandler, r)
            == Decoded(r.(history := r.history + history), true)
  {
    hide DecodeFields, LengthDelimited, MessageBytes, SourceBytes, RequestHandler, ResponseHandler;
    if history == [] {
      assert r.history + history == r.history;
      DecodeNothing(RequestHandler, r);
    } else {
      var n := |history| - 1;
      var r1 := r.(history := r.history + history[..n]);
      HistoryDecodes(history[..n], r);
      HistoryParts(history, n);
      HistoryItemDecodes(history[n], r1);
      assert r.history + history == r1.history + [history[n]];
      Then(HistoryBytes(history[..n]), LengthDelimited(6, MessageBytes(history[n])), RequestHandler, r, r1,
           r.(history := r.history + history));
    }
  }

  lemma SourcesItemDecodes(item: Source, r: AskResponse)
    requires |SourceBytes(item)| <= MAX_INT
    ensures DecodeFields(LengthDelimited(5, SourceBytes(item)), ResponseHandler, r)
            == Decoded(r.(sources := r.sources + [item]), true)
  {
    hide LengthDelimited, MessageBytes, SourceBytes;
    SourceRoundTrip(item);
    DecodeMessageField(5, SourceBytes(item), ResponseHandler, r);
  }

  lemma {:induction false} SourcesDecode(sources: seq<Source>, r: AskResponse)
    requires |SourcesBytes(sources)| <= MAX_INT
    ensures DecodeFields(SourcesBytes(sources), ResponseHandler, r)
            == Decoded(r.(sources := r.sources + sources), true)
  {
    hide DecodeFields, LengthDelimited, MessageBytes, SourceBytes, RequestHandler, ResponseHandler;
    if sources == [] {
      assert r.sources + sources == r.sources;
      DecodeNothing(ResponseHandler, r);
    } else {
      var n := |sources| - 1;
      var r1 := r.(sources := r.sources + sources[..n]);
      SourcesDecode(sources[..n], r);
      SourcesParts(sources, n);
      SourcesItemDecodes(sources[n], r1);
      assert r.sources + sources == r1.sources + [sources[n]];
      Then(SourcesBytes(sources[..n]), LengthDelimited(5, SourceBytes(sources[n])), ResponseHandler, r, r1,
           r.(sources := r.sources + sources));
    }
  }

  /** Decoding a request into an older one: scalars last win, history is appended. */
  function OverlayRequest(base: AskRequest, r: AskRequest): AskRequest {
    AskRequest(Last(base.requestId, r.requestId), Last(base.sessionId, r.sessionId), Last(base.userId, r.userId),
               Last(base.query, r.query), Last(base.language, r.language), base.history + r.history,
               Last(base.payloadJson, r.payloadJson))
  }

  lemma RequestHeadDecodes(r: AskRequest, base: AskRequest)
    requires |RequestBytes(r)| <= MAX_INT
    ensures DecodeFields(RequestHead(r), RequestHandler, base)
            == Decoded(OverlayRequest(base, r.(history := [], payloadJson := [])), true)
  {
    hide DecodeFields, StringField, BoolField;
    RequestParts(r);
    var r1 := base.(requestId := Last(base.requestId, r.requestId));
    var r2 := r1.(sessionId := Last(base.sessionId, r.sessionId));
    var r3 := r2.(userId := Last(base.userId, r.userId));
    var r4 := r3.(query := Last(base.query, r.query));
    var r5 := r4.(language := Last(base.language, r.language));
    var d1 := StringField(1, r.requestId);
    var d2 := d1 + StringField(2, r.sessionId);
    var d3 := d2 + StringField(3, r.userId);
    var d4 := d3 + StringField(4, r.query);
    assert [] + d1 == d1;
    DecodeNothing(RequestHandler, base);
    ThenString([], 1, r.requestId, RequestHandler, base, base, r1);
    ThenString(d1, 2, r.sessionId, RequestHandler, base, r1, r2);
    ThenString(d2, 3, r.userId, RequestHandler, base, r2, r3);
    ThenString(d3, 4, r.query, RequestHandler, base, r3, r4);
    ThenString(d4, 5, r.language, RequestHandler, base, r4, r5);
    assert base.history + [] == base.history;
  }

  lemma RequestOverlays(r: AskRequest, base: AskRequest)
    requires |RequestBytes(r)| <= MAX_INT
    ensures DecodeFields(RequestBytes(r), RequestHandler, base) == Decoded(OverlayRequest(base, r), true)
  {
    hide DecodeFields, HistoryBytes, StringField;
    RequestParts(r);
    RequestHeadDecodes(r, base);
    var r1 := OverlayRequest(base, r.(history := [], payloadJson := []));
    var r2 := OverlayRequest(base, r.(payloadJson := []));
    assert base.history + [] == base.history;
    HistoryDecodes(r.history, r1);
    Then(RequestHead(r), HistoryBytes(r.history), RequestHandler, base, r1, r2);
    ThenString(RequestHead(r) + HistoryBytes(r.history), 7, r.payloadJson, RequestHandler, base, r2,
               OverlayRequest(base, r));
  }

  lemma AskRequestRoundTrip(r: AskRequest)
    requires |RequestBytes(r)| <= MAX_INT
    ensures DecodeFields(RequestBytes(r), RequestHandler, NO_REQUEST) == Decoded(r, true)
  {
    hide DecodeFields, RequestBytes;
    RequestOverlays(r, NO_REQUEST);
    assert [] + r.history == r.history;
  }

  /** Two requests written back to back read as the second laid over the first. */
  lemma ConcatenatedRequestsOverlay(r1: AskRequest, r2: AskRequest)
    requires |RequestBytes(r1)| <= MAX_INT && |RequestBytes(r2)| <= MAX_INT
    ensures DecodeFields(RequestBytes(r1) + RequestBytes(r2), RequestHandler, NO_REQUEST)
            == Decoded(OverlayRequest(r1, r2), true)
  {
    hide DecodeFields, RequestBytes;
    AskRequestRoundTrip(r1);
    RequestOverlays(r2, r1);
    Then(RequestBytes(r1), RequestBytes(r2), RequestHandler, NO_REQUEST, r1, OverlayRequest(r1, r2));
  }

  function OverlayResponse(base: AskResponse, r: AskResponse): AskResponse {
    AskResponse(Last(base.traceId, r.traceId), Last(base.answer, r.answer), Last(base.intent, r.intent),
                base.validated || r.validated, base.sources + r.sources, Last(base.payloadJson, r.payloadJson))
  }

  lemma ResponseHeadDecodes(r: AskResponse, base: AskResponse)
    requires |ResponseBytes(r)| <= MAX_INT
    ensures DecodeFields(ResponseHead(r), ResponseHandler, base)
            == Decoded(OverlayResponse(base, r.(sources := [], payloadJson := [])), true)
  {
    hide DecodeFields, StringField, BoolField;
    ResponseParts(r);
    var r1 := base.(traceId := Last(base.traceId, r.traceId));
    var r2 := r1.(answer := Last(base.answer, r.answer));
    var r3 := r2.(intent := Last(base.intent, r.intent));
    var r4 := r3.(validated := base.validated || r.validated);
    var d1 := StringField(1, r.traceId);
    var d2 := d1 + StringField(2, r.answer);
    var d3 := d2 + StringField(3, r.intent);
    assert [] + d1 == d1;
    DecodeNothing(ResponseHandler, base);
    ThenString([], 1, r.traceId, ResponseHandler, base, base, r1);
    ThenString(d1, 2, r.answer, ResponseHandler, base, r1, r2);
    ThenString(d2, 3, r.intent, ResponseHandler, base, r2, r3);
    DecodeBoolField(4, r.validated, ResponseHandler, r3);
    Then(d3, BoolField(4, r.validated), ResponseHandler, base, r3, r4);
    assert base.sources + [] == base.sources;
  }

  lemma ResponseOverlays(r: AskResponse, base: AskResponse)
    requires |ResponseBytes(r)| <= MAX_INT
    ensures DecodeFields(ResponseBytes(r), ResponseHandler, base) == Decoded(OverlayResponse(base, r), true)
  {
    hide DecodeFields, SourcesBytes, StringField, BoolField;
    ResponseParts(r);
    ResponseHeadDecodes(r, base);
    var r1 := OverlayResponse(base, r.(sources := [], payloadJson := []));
    var r2 := OverlayResponse(base, r.(payloadJson := []));
    assert base.sources + [] == base.sources;
    SourcesDecode(r.sources, r1);
    Then(ResponseHead(r), SourcesBytes(r.sources), ResponseHandler, base, r1, r2);
    ThenString(ResponseHead(r) + SourcesBytes(r.sources), 6, r.payloadJson, ResponseHandler, base, r2,
               OverlayResponse(base, r));
  }

  lemma AskResponseRoundTrip(r: AskResponse)
    requires |ResponseBytes(r)| <= MAX_INT
    ensures DecodeFields(ResponseBytes(r), ResponseHandler, NO_RESPONSE) == Decoded(r, true)
  {
    hide DecodeFields, ResponseBytes;
    ResponseOverlays(r, NO_RESPONSE);
    assert [] + r.sources == r.sources;
  }

  lemma AskEventRoundTrip(e: AskEvent)
    requires |EventBytes(e)| <= MAX_INT
    ensures DecodeFields(EventBytes(e), EventHandler, NO_EVENT) == Decoded(e, true)
  {
    hide DecodeFields, StringField;
    EventParts(e);
    var e1 := NO_EVENT.(event := e.event);
    var e2 := e1.(delta := e.delta);
    DecodeStringField(1, e.event, EventHandler, NO_EVENT);
    DecodeStringField(2, e.delta, EventHandler, e1);
    DecodeStringField(3, e.payloadJson, EventHandler, e2);
    Then(StringField(1, e.event), StringField(2, e.delta), EventHandler, NO_EVENT, e1, e2);
    Then(StringField(1, e.event) + StringField(2, e.delta), StringField(3, e.payloadJson), EventHandler, NO_EVENT,
         e2, e);
  }

  lemma ReadinessRoundTrip(r: Readiness)
    requires |ReadinessBytes(r)| <= MAX_INT
    ensures DecodeFields(ReadinessBytes(r), ReadinessHandler, NO_READINESS) == Decoded(r, true)
  {
    hide DecodeFields, StringField;
    ReadinessParts(r);
    var r1 := NO_READINESS.(status := r.status);
    DecodeStringField(1, r.status, ReadinessHandler, NO_READINESS);
    DecodeStringField(2, r.checksJson, ReadinessHandler, r1);
    Then(StringField(1, r.status), StringField(2, r.checksJson), ReadinessHandler, NO_READINESS, r1, r);
  }

  // ---- Unknown fields

  /** The bytes are one whole field, canonical or not. */
  predicate OneField(data: bytes) {
    NextField(data).Got? && NextField(data).used == |data|
  }

  /** In a request any whole field numbered above 7 may stand between any two fields. */
  lemma UnknownRequestFieldIsIgnored(a: bytes, field: bytes, b: bytes, r: AskRequest)
    requires Framed(a) && OneField(field) && NextField(field).value.number > 7
    ensures DecodeFields(a + field + b, RequestHandler, r) == DecodeFields(a + b, RequestHandler, r)
  {
    IgnoredFieldChangesNothing(a, field, b, RequestHandler, r);
  }

  lemma UnknownResponseFieldIsIgnored(a: bytes, field: bytes, b: bytes, r: AskResponse)
    requires Framed(a) && OneField(field) && NextField(field).value.number > 6
    ensures DecodeFields(a + field + b, ResponseHandler, r) == DecodeFields(a + b, ResponseHandler, r)
  {
    IgnoredFieldChangesNothing(a, field, b, ResponseHandler, r);
  }

  /** A readiness response tolerates an unknown field exactly when it is length-delimited. */
  lemma UnknownReadinessField(a: bytes, field: bytes, r: Readiness)
    requires DecodeFields(a, ReadinessHandler, r).ok && OneField(field) && NextField(field).value.number > 2
    ensures DecodeFields(a + field, ReadinessHandler, r).ok <==> NextField(field).value.wire == 2
    ensures DecodeFields(a + field, ReadinessHandler, r).msg == DecodeFields(a, ReadinessHandler, r).msg
  {
    DecodeMerges(a, field, ReadinessHandler, r);
    assert field[|field|..] == [];
  }

  /** An event tolerates no unknown field. */
  lemma UnknownEventFieldIsRefused(a: bytes, field: bytes, b: bytes, e: AskEvent)
    requires DecodeFields(a, EventHandler, e).ok && OneField(field) && NextField(field).value.number > 3
    ensures DecodeFields(a + field + b, EventHandler, e) == Decoded(DecodeFields(a, EventHandler, e).msg, false)
  {
    DecodeMerges(a, field + b, EventHandler, e);
    assert a + field + b == a + (field + b);
    NextFieldPrefix(field, b);
  }

  // ---- One more field

  lemma OneMoreField<M(!new)>(a: bytes, field: bytes, handler: Handler<M>, start: M)
    requires DecodeFields(a, handler, start).ok && OneField(field)
    ensures var msg := DecodeFields(a, handler, start).msg;
            DecodeFields(a + field, handler, start)
            == match handler(NextField(field).value, msg)
               case None => Decoded(msg, false)
               case Some(msg') => Decoded(msg', true)
  {
    DecodeMerges(a, field, handler, start);
    assert field[|field|..] == [];
  }

  /**
    What one more field makes of a decoded request: a string field of any length, empty too, replaces the
    value; a history item that decodes is appended; a known field of another wire type, or an item that does
    not decode, is an error that leaves the request as it was; any other field changes nothing.
   */
  lemma RequestFieldDecides(a: bytes, field: bytes, start: AskRequest)
    requires DecodeFields(a, RequestHandler, start).ok && OneField(field)
    ensures var msg, f := DecodeFields(a, RequestHandler, start).msg, NextField(field).value;
            var item := DecodeFields(f.raw, MessageHandler, NO_MESSAGE);
            DecodeFields(a + field, RequestHandler, start)
            == if (f.number in {1, 2, 3, 4, 5, 6, 7} && f.wire != 2) || (f.number == 6 && !item.ok)
               then Decoded(msg, false)
               else if f.number == 1 then Decoded(msg.(requestId := f.raw), true)
               else if f.number == 2 then Decoded(msg.(sessionId := f.raw), true)
               else if f.number == 3 then Decoded(msg.(userId := f.raw), true)
               else if f.number == 4 then Decoded(msg.(query := f.raw), true)
               else if f.number == 5 then Decoded(msg.(language := f.raw), true)
               else if f.number == 6 then Decoded(msg.(history := msg.history + [item.msg]), true)
               else if f.number == 7 then Decoded(msg.(payloadJson := f.raw), true)
               else Decoded(msg, true)
  {
    hide DecodeFields;
    OneMoreField(a, field, RequestHandler, start);
  }

  /** The same for a response, whose flag is true for every number but 0. */
  lemma ResponseFieldDecides(a: bytes, field: bytes, start: AskResponse)
    requires DecodeFields(a, ResponseHandler, start).ok && OneField(field)
    ensures var msg, f := DecodeFields(a, ResponseHandler, start).msg, NextField(field).value;
            var item := DecodeFields(f.raw, SourceHandler, NO_SOURCE);
            DecodeFields(a + field, ResponseHandler, start)
            == if (f.number in {1, 2, 3, 5, 6} && f.wire != 2) || (f.number == 4 && f.wire != 0)
                  || (f.number == 5 && !item.ok) then Decoded(msg, false)
               else if f.number == 1 then Decoded(msg.(traceId := f.raw), true)
               else if f.number == 2 then Decoded(msg.(answer := f.raw), true)
               else if f.number == 3 then Decoded(msg.(intent := f.raw), true)
               else if f.number == 4 then Decoded(msg.(validated := f.value != 0), true)
               else if f.number == 5 then Decoded(msg.(sources := msg.sources + [item.msg]), true)
               else if f.number == 6 then Decoded(msg.(payloadJson := f.raw), true)
               else Decoded(msg, true)
  {
    hide DecodeFields;
    OneMoreField(a, field, ResponseHandler, start);
  }

  /** Inside a request and a response every field must be length-delimited; unknown ones are passed over. */
  lemma NestedFieldsDecide(a: bytes, b: bytes, field: bytes, message: Message, source: Source)
    requires DecodeFields(a, MessageHandler, message).ok && DecodeFields(b, SourceHandler, source).ok && OneField(field)
    ensures var msg, f := DecodeFields(a, MessageHandler, message).msg, NextField(field).value;
            DecodeFields(a + field, MessageHandler, message)
            == if f.wire != 2 then Decoded(msg, false)
               else if f.number == 1 then Decoded(msg.(role := f.raw), true)
               else if f.number == 2 then Decoded(msg.(content := f.raw), true)
               else Decoded(msg, true)
    ensures var msg, f := DecodeFields(b, SourceHandler, source).msg, NextField(field).value;
            DecodeFields(b + field, SourceHandler, source)
            == if f.wire != 2 then Decoded(msg, false)
               else if f.number == 1 then Decoded(msg.(chunkId := f.raw), true)
               else if f.number == 2 then Decoded(msg.(source := f.raw), true)
               else if f.number == 3 then Decoded(msg.(chapter := f.raw), true)
               else Decoded(msg, true)
  {
    hide DecodeFields;
    OneMoreField(a, field, MessageHandler, message);
    OneMoreField(b, field, SourceHandler, source);
  }

  /** An event knows three length-delimited fields and nothing else; a readiness response passes over others. */
  lemma SmallFieldsDecide(a: bytes, b: bytes, field: bytes, event: AskEvent, readiness: Readiness)
    requires DecodeFields(a, EventHandler, event).ok && DecodeFields(b, ReadinessHandler, readiness).ok
    requires OneField(field)
    ensures var msg, f := DecodeFields(a, EventHandler, event).msg, NextField(field).value;
            DecodeFields(a + field, EventHandler, event)
            == if f.wire != 2 || f.number > 3 then Decoded(msg, false)
               else if f.number == 1 then Decoded(msg.(event := f.raw), true)
               else if f.number == 2 then Decoded(msg.(delta := f.raw), true)
               else Decoded(msg.(payloadJson := f.raw), true)
    ensures var msg, f := DecodeFields(b, ReadinessHandler, readiness).msg, NextField(field).value;
            DecodeFields(b + field, ReadinessHandler, readiness)
            == if f.wire != 2 then Decoded(msg, false)
               else if f.number == 1 then Decoded(msg.(status := f.raw), true)
               else if f.number == 2 then Decoded(msg.(checksJson := f.raw), true)
               else Decoded(msg, true)
  {
    hide DecodeFields;
    FieldNumbersArePositive(field);
    OneMoreField(a, field, EventHandler, event);
    OneMoreField(b, field, ReadinessHandler, readiness);
  }

  /** Every canonically written field of wire type 0, 1, 2 or 5 is one whole field. */
  lemma WrittenFieldIsOneField(number: nat, wire: nat, value: nat, payload: bytes)
    requires 0 < number < 0x1000_0000_0000_0000 && value < U64 && |payload| <= MAX_INT
    requires wire == 1 ==> |payload| == 8
    requires wire == 5 ==> |payload| == 4
    ensures wire == 0 ==> OneField(EncodeVarint(number * 8) + EncodeVarint(value))
    ensures wire == 2 ==> OneField(LengthDelimited(number, payload))
    ensures wire == 1 || wire == 5 ==> OneField(EncodeVarint(number * 8 + wire) + payload)
  {
    if wire == 0 {
      var data := EncodeVarint(number * 8) + EncodeVarint(value);
      NextVarintField(number, value, []);
      assert data + [] == data;
    } else if wire == 2 {
      NextLengthDelimited(number, payload, []);
      assert LengthDelimited(number, payload) + [] == LengthDelimited(number, payload);
    } else if wire == 1 || wire == 5 {
      var data := EncodeVarint(number * 8 + wire) + payload;
      NextFixedField(number, wire, payload, []);
      assert data + [] == data;
    }
  }
}
