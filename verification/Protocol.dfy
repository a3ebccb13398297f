/** The agent's wire protocol: frames, the client's encoders, and the agent's parsing of request bodies. */
module Protocol {
  import opened Wrappers
  import opened Bytes
  import opened Utf8
  import opened Payload
  import opened Event
  import Format
  import Writer

  const PROTOCOL_VERSION: u32 := 1
  const MAX_FRAME_SIZE: nat := 1_048_576

  const OP_HELLO: byte := 0x01
  const OP_OPEN_SESSION: byte := 0x02
  const OP_APPEND_EVENT: byte := 0x03
  const OP_FINISH_SESSION: byte := 0x04
  const OP_PING: byte := 0x05
  const OP_INTERN: byte := 0x06
  const OP_FLUSH: byte := 0x07

  /** Which text of an OpenSession body a complaint is about. */
  datatype OpenText = FileName | ProducerName | ProducerVersion

  /** Why the agent answers with an error frame. */
  datatype Refusal =
    | EmptyFrame
    | UnknownCommand
    | HelloTooShort
    | UnsupportedVersion(version: u32)
    | HelloRequired
    | SessionRequired
    | NoOpenSession
    | BodyTooShort
    | NameTruncated
    | NameNotUtf8
    | NameEmptyOrTooLong
    | UnknownKind
    | TextLengthMissing(text: OpenText)
    | TextTruncated(text: OpenText)
    | TextNotUtf8(text: OpenText)
    | InvalidFileName
    | SessionIdTruncated
    | TimestampsTruncated
    | ProducerNameTooLong
    | ProducerVersionTooLong
    | BadSeverity
    | OneFieldOnly
    | FieldHeaderTruncated
    | ValueTruncated(tag: byte)
    | UnsupportedTag
    | Failed(error: Format.Error)

  datatype Reply =
    | HelloOk
    | OpenSessionOk
    | AppendEventOk(sequence: u64)
    | FinishSessionOk
    | Pong
    | InternOk(id: u32)
    | FlushOk
    | Refused(why: Refusal)

  datatype Parsed<+T> = Fine(value: T) | Bad(why: Refusal) {
    predicate IsFailure() { Bad? }
    function PropagateFailure<U>(): Parsed<U>
      requires Bad?
    {
      Bad(why)
    }
    function Extract(): T
      requires Fine?
    {
      value
    }
  }

  function ReplyOpcode(r: Reply): byte {
    match r
    case HelloOk => 0x81
    case OpenSessionOk => 0x82
    case AppendEventOk(_) => 0x83
    case FinishSessionOk => 0x84
    case Pong => 0x85
    case InternOk(_) => 0x86
    case FlushOk => 0x87
    case Refused(_) => 0xFF
  }

  /** The reply body; the wording of a refusal is not modelled. */
  function ReplyBody(r: Reply): (b: seq<byte>)
    ensures |b| <= 8
  {
    match r
    case HelloOk => LE32(PROTOCOL_VERSION)
    case AppendEventOk(sequence) => LE64(sequence)
    case InternOk(id) => LE32(id)
    case _ => []
  }

  // ---- Frames ----

  /** A frame as written: the length of opcode and body, then both. */
  function FrameBytes(opcode: byte, body: seq<byte>): seq<byte>
    requires 1 + |body| < TWO_32
  {
    LE32(1 + |body|) + [opcode] + body
  }

  /** The client's encoder: nothing above the frame limit leaves it. */
  function EncodeFrame(opcode: byte, body: seq<byte>): Option<seq<byte>> {
    if 1 + |body| > MAX_FRAME_SIZE then None else Some(FrameBytes(opcode, body))
  }

  /** What a reader of the stream finds at its front. */
  datatype Incoming = Closed | Unreadable | Frame(content: seq<byte>, rest: seq<byte>)

  function ReadFrame(input: seq<byte>): (i: Incoming)
    ensures i.Frame? ==> |i.rest| < |input|
  {
    if |input| < 4 then Closed
    else
      var len := U32(input[..4]);
      if len > MAX_FRAME_SIZE || 4 + len > |input| then Unreadable
      else Frame(input[4..4 + len], input[4 + len..])
  }

  /** The frames the agent's loop takes from its input, up to the end or the first broken one. */
  function Incomings(input: seq<byte>): seq<seq<byte>>
    decreases |input|
  {
    var i := ReadFrame(input);
    if i.Frame? then [i.content] + Incomings(i.rest) else []
  }

  datatype Message = Message(opcode: byte, body: seq<byte>)

  /** Several encoded frames one behind the other. */
  function Stream(ms: seq<Message>): seq<byte>
    requires forall m <- ms :: 1 + |m.body| <= MAX_FRAME_SIZE
  {
    if ms == [] then [] else FrameBytes(ms[0].opcode, ms[0].body) + Stream(ms[1..])
  }

  lemma FrameReadsBack(opcode: byte, body: seq<byte>, rest: seq<byte>)
    requires 1 + |body| <= MAX_FRAME_SIZE
    ensures ReadFrame(FrameBytes(opcode, body) + rest) == Frame([opcode] + body, rest)
  {
    hide LE32, U32;
    var all := FrameBytes(opcode, body) + rest;
    assert all[..4] == LE32(1 + |body|);
    assert all[4..4 + (1 + |body|)] == [opcode] + body;
    assert all[4 + (1 + |body|)..] == rest;
  }

  /** Frames sent back to back are read back one by one, whatever incomplete frame follows them. */
  lemma {:induction false} StreamReadsBack(ms: seq<Message>, torn: seq<byte>)
    requires forall m <- ms :: 1 + |m.body| <= MAX_FRAME_SIZE
    requires !ReadFrame(torn).Frame?
    ensures Incomings(Stream(ms) + torn) == seq(|ms|, i requires 0 <= i < |ms| => [ms[i].opcode] + ms[i].body)
  {
    hide FrameBytes, ReadFrame;
    var want := seq(|ms|, i requires 0 <= i < |ms| => [ms[i].opcode] + ms[i].body);
    if ms == [] {
      assert Stream(ms) + torn == torn;
    } else {
      var rest := Stream(ms[1..]) + torn;
      FrameReadsBack(ms[0].opcode, ms[0].body, rest);
      StreamReadsBack(ms[1..], torn);
      assert Stream(ms) + torn == FrameBytes(ms[0].opcode, ms[0].body) + rest;
      var more := seq(|ms| - 1, i requires 0 <= i < |ms| - 1 => [ms[1..][i].opcode] + ms[1..][i].body);
      assert want == [[ms[0].opcode] + ms[0].body] + more;
    }
  }

  /** The client's reading of a reply: opcode and body. */
  function DecodeFrame(input: seq<byte>): Option<Message> {
    match ReadFrame(input)
    case Frame(content, _) => if content == [] then None else Some(Message(content[0], content[1..]))
    case _ => None
  }

  lemma ReplyReadsBack(r: Reply)
    ensures DecodeFrame(FrameBytes(ReplyOpcode(r), ReplyBody(r))) == Some(Message(ReplyOpcode(r), ReplyBody(r)))
  {
    hide FrameBytes, ReadFrame;
    var f := FrameBytes(ReplyOpcode(r), ReplyBody(r));
    FrameReadsBack(ReplyOpcode(r), ReplyBody(r), []);
    assert f + [] == f;
  }

  // ---- Intern ----

  /** The client refuses names above 1024 bytes before sending. */
  function EncodeIntern(kind: byte, name: seq<byte>): Option<seq<byte>> {
    if |name| > 1024 then None else EncodeFrame(OP_INTERN, InternBody(kind, name))
  }

  function InternBody(kind: byte, name: seq<byte>): seq<byte>
    requires |name| <= 1024
  {
    [kind] + LE16(|name|) + name
  }

  function ParseIntern(body: seq<byte>): Parsed<(byte, Text)> {
    if |body| < 3 then Bad(BodyTooShort)
    else
      var len := U16(body[1..3]);
      if |body| < 3 + len then Bad(NameTruncated)
      else if !Valid(body[3..3 + len]) then Bad(NameNotUtf8)
      else if len == 0 || len > 1024 then Bad(NameEmptyOrTooLong)
      else Fine((body[0], body[3..3 + len]))
  }

  lemma InternParts(kind: byte, name: seq<byte>)
    requires |name| <= 1024
    ensures var b := InternBody(kind, name);
            |b| == 3 + |name| && b[0] == kind && U16(b[1..3]) == |name| && b[3..3 + |name|] == name
  {
    var b := InternBody(kind, name);
    assert b[1..3] == LE16(|name|);
    hide LE16, U16;
  }

  /** The client sends every name up to 1,024 bytes; the agent reads it back, unless it is empty or not UTF-8. */
  lemma InternReadsBack(kind: byte, name: seq<byte>)
    ensures EncodeIntern(kind, name).Some? <==> |name| <= 1024
    ensures |name| <= 1024 ==>
              if name != [] && Valid(name) then ParseIntern(InternBody(kind, name)) == Fine((kind, name))
              else ParseIntern(InternBody(kind, name)).Bad?
  {
    if |name| <= 1024 {
      InternParts(kind, name);
      hide U16, Valid, InternBody, FrameBytes;
    }
  }

  // ---- AppendEvent ----

  function AppendBody(ns: u64, domain: u32, category: u32, eventName: u32, correlation: u32, severity: byte,
                      fieldName: u32, tag: byte, value: seq<byte>): seq<byte>
  {
    LE64(ns) + LE32(domain) + LE32(category) + LE32(eventName) + LE32(correlation) + [severity] + LE16(1)
    + LE32(fieldName) + [tag] + [0, 0, 0] + value
  }

  /** One value of the AppendEvent body; bytes behind it are ignored. */
  function ParseValue(tag: byte, b: seq<byte>): Parsed<Value> {
    if tag == TYPE_BYTES then
      if |b| < 4 || |b| < 4 + U32(b[..4]) then Bad(ValueTruncated(tag)) else Fine(Blob(b[4..4 + U32(b[..4])]))
    else if Width(tag) == 0 then Bad(UnsupportedTag)
    else if |b| < Width(tag) then Bad(ValueTruncated(tag))
    else Fine(DecodeFixed(tag, b[..Width(tag)]))
  }

  function ParseAppend(body: seq<byte>): Parsed<Writer.AppendEvent> {
    if |body| < 27 then Bad(BodyTooShort)
    else if SeverityFromByte(body[24]).Err? then Bad(BadSeverity)
    else if U16(body[25..27]) != 1 then Bad(OneFieldOnly)
    else if |body| < 35 then Bad(FieldHeaderTruncated)
    else
      var value :- ParseValue(body[31], body[35..]);
      Fine(Writer.AppendEvent(U64(body[0..8]), U32(body[8..12]), U32(body[12..16]), U32(body[16..20]),
          U32(body[20..24]),
                              SeverityFromByte(body[24]).value, TypedPayload([Field(U32(body[27..31]), value)])))
  }

  /** A value as a body carries it; blobs may be longer than a journal accepts. */
  function WireValue(v: Value): seq<byte>
    requires v.Blob? ==> |v.bytes| < TWO_32
  {
    if v.Blob? then LE32(|v.bytes|) + v.bytes else Body(v)
  }

  lemma ValueReadsBack(v: Value)
    requires v.Blob? ==> |v.bytes| < TWO_32
    ensures ParseValue(Tag(v), WireValue(v)) == Fine(v)
  {
    hide LE32, U32, DecodeFixed, Body;
    var b := WireValue(v);
    if v.Blob? {
      assert b[..4] == LE32(|v.bytes|) && b[4..4 + |v.bytes|] == v.bytes;
    } else {
      FixedRoundTrip(v);
      assert b[..Width(Tag(v))] == b;
    }
  }

  lemma AppendLayout(ns: u64, domain: u32, category: u32, eventName: u32, correlation: u32, severity: byte,
                     fieldName: u32, tag: byte, value: seq<byte>)
    ensures var b := AppendBody(ns, domain, category, eventName, correlation, severity, fieldName, tag, value);
            && |b| == 35 + |value|
            && b[0..8] == LE64(ns) && b[8..12] == LE32(domain) && b[12..16] == LE32(category)
            && b[16..20] == LE32(eventName) && b[20..24] == LE32(correlation) && b[24] == severity
            && b[25..27] == LE16(1) && b[27..31] == LE32(fieldName) && b[31] == tag && b[35..] == value
  {
    hide LE16, LE32, LE64;
  }

  /** The agent reads an AppendEvent request back exactly, with the severity as the byte sent, which it must know. */
  lemma AppendReadsBack(ns: u64, domain: u32, category: u32, eventName: u32, correlation: u32, severity: byte,
                        fieldName: u32, v: Value)
    requires v.Blob? ==> |v.bytes| < TWO_32
    ensures ParseAppend(AppendBody(ns, domain, category, eventName, correlation, severity, fieldName, Tag(v),
              WireValue(v))) ==
            if severity > 5 then Bad(BadSeverity)
            else Fine(Writer.AppendEvent(ns, domain, category, eventName, correlation, SeverityFromByte(severity).value,
                                         TypedPayload([Field(fieldName, v)])))
  {
    hide LE16, LE32, LE64, U16, U32, U64, AppendBody, WireValue, ParseValue, SeverityFromByte;
    AppendLayout(ns, domain, category, eventName, correlation, severity, fieldName, Tag(v), WireValue(v));
    ValueReadsBack(v);
  }

  // ---- OpenSession ----

  datatype OpenRequest = OpenRequest(
    fileName: seq<byte>,
    sessionId: seq<byte>,
    startUtcUnixMs: i64,
    monoOriginNs: u64,
    producerName: seq<byte>,
    producerVersion: seq<byte>)

  /** A text behind its 16-bit length, as the client casts it. */
  function Prefixed(t: seq<byte>): seq<byte> { LE16(|t| % TWO_16) + t }

  function OpenBody(q: OpenRequest): seq<byte> {
    Prefixed(q.fileName) + (q.sessionId + LE64(Unsigned64(q.startUtcUnixMs)) + LE64(q.monoOriginNs)
    + (Prefixed(q.producerName) + Prefixed(q.producerVersion)))
  }

  /** A length-prefixed text at the front of `b`, and the bytes it takes. */
  function TakeText(b: seq<byte>, what: OpenText): (r: Parsed<(Text, nat)>)
    ensures r.Fine? ==> r.value.1 == 2 + |r.value.0| <= |b|
  {
    if |b| < 2 then Bad(TextLengthMissing(what))
    else
      var len := U16(b[..2]);
      if |b| < 2 + len then Bad(TextTruncated(what))
      else if !Valid(b[2..2 + len]) then Bad(TextNotUtf8(what))
      else Fine((b[2..2 + len], 2 + len))
  }

  predicate HasDotDot(t: seq<byte>) {
    exists i :: 0 <= i < |t| - 1 && t[i] == 0x2E && t[i + 1] == 0x2E
  }

  /** File names that stay inside the data directory: not empty, no NUL, no separator, no "..". */
  predicate SafeFileName(t: seq<byte>) {
    t != [] && 0 !in t && 0x2F !in t && 0x5C !in t && !HasDotDot(t)
  }

  function ParseOpen(body: seq<byte>): Parsed<OpenRequest> {
    var file :- TakeText(body, FileName);
    if !SafeFileName(file.0) then Bad(InvalidFileName) else
    var b := body[file.1..];
    if |b| < 16 then Bad(SessionIdTruncated)
    else if |b| < 32 then Bad(TimestampsTruncated)
    else
      var name :- TakeText(b[32..], ProducerName);
      var version :- TakeText(b[32 + name.1..], ProducerVersion);
      if |name.0| > 32 then Bad(ProducerNameTooLong)
      else if |version.0| > 16 then Bad(ProducerVersionTooLong)
      else Fine(OpenRequest(file.0, b[..16], Signed64(U64(b[16..24])), U64(b[24..32]), name.0, version.0))
  }

  lemma TextReadsBack(t: Text, rest: seq<byte>, what: OpenText)
    requires |t| < TWO_16
    ensures TakeText(Prefixed(t) + rest, what) == Fine((t, 2 + |t|))
    ensures (Prefixed(t) + rest)[2 + |t|..] == rest
  {
    hide LE16, U16;
    var all := Prefixed(t) + rest;
    assert all[..2] == LE16(|t|) && all[2..2 + |t|] == t;
  }

  /** Texts that fit the 16-bit lengths and the agent's limits, and a file name inside the data directory. */
  predicate Acceptable(q: OpenRequest) {
    && |q.sessionId| == 16
    && Valid(q.fileName) && |q.fileName| < TWO_16 && SafeFileName(q.fileName)
    && Valid(q.producerName) && |q.producerName| <= 32
    && Valid(q.producerVersion) && |q.producerVersion| <= 16
  }

  /** The agent reads an OpenSession request back exactly if and only if it is acceptable. */
  lemma OpenReadsBackIff(q: OpenRequest)
    requires |q.sessionId| == 16
    ensures ParseOpen(OpenBody(q)) == Fine(q) <==> Acceptable(q)
  {
    if Acceptable(q) {
      OpenReadsBack(q);
    } else if ParseOpen(OpenBody(q)) == Fine(q) {
      ParsedIsAcceptable(OpenBody(q));
    }
  }

  lemma ParsedIsAcceptable(body: seq<byte>)
    requires ParseOpen(body).Fine?
    ensures Acceptable(ParseOpen(body).value)
  {
    hide Valid, SafeFileName, U64;
    var file := TakeText(body, FileName);
    var b := body[file.value.1..];
    assert file.value.0 == ParseOpen(body).value.fileName;
  }

  lemma OpenReadsBack(q: OpenRequest)
    requires Acceptable(q)
    ensures ParseOpen(OpenBody(q)) == Fine(q)
  {
    hide LE16, LE64, U16, U64, Prefixed, TakeText, SafeFileName, Valid;
    var tail := Prefixed(q.producerName) + Prefixed(q.producerVersion);
    var b := q.sessionId + LE64(Unsigned64(q.startUtcUnixMs)) + LE64(q.monoOriginNs) + tail;
    TextReadsBack(q.fileName, b, FileName);
    assert b[..16] == q.sessionId && b[16..24] == LE64(Unsigned64(q.startUtcUnixMs))
        && b[24..32] == LE64(q.monoOriginNs);
    assert b[32..] == tail;
    TextReadsBack(q.producerName, Prefixed(q.producerVersion), ProducerName);
    assert b[32 + (2 + |q.producerName|)..] == tail[2 + |q.producerName|..];
    assert Prefixed(q.producerVersion) + [] == Prefixed(q.producerVersion);
    TextReadsBack(q.producerVersion, [], ProducerVersion);
    SignedBack(0, q.startUtcUnixMs);
  }
}
