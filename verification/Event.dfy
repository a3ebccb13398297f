/** Event records: the 40-byte record header and its typed payload. */
module Event {
  import opened Wrappers
  import opened Bytes
  import opened Format
  import opened Payload

  datatype Severity = Trace | Debug | Info | Warn | Error | Fatal

  function SeverityByte(s: Severity): byte {
    match s
    case Trace => 0
    case Debug => 1
    case Info => 2
    case Warn => 3
    case Error => 4
    case Fatal => 5
  }

  function SeverityFromByte(v: byte): (r: Result<Severity>)
    ensures if v <= 5 then r.Ok? && SeverityByte(r.value) == v else r == Err(InvalidSeverity(v))
  {
    if v == 0 then Ok(Trace)
    else if v == 1 then Ok(Debug)
    else if v == 2 then Ok(Info)
    else if v == 3 then Ok(Warn)
    else if v == 4 then Ok(Severity.Error)
    else if v == 5 then Ok(Fatal)
    else Err(InvalidSeverity(v))
  }

  datatype EventRecord = EventRecord(
    monotonicNs: u64,
    sequence: u64,
    domainId: u32,
    categoryId: u32,
    nameId: u32,
    correlationId: u32,
    severity: Severity,
    payload: TypedPayload)

  const RECORD_HEADER: nat := 40

  /** The fixed record header in front of a payload of `len` bytes. */
  function RecordHeader(ev: EventRecord, len: u32): (h: seq<byte>)
    ensures |h| == RECORD_HEADER
    ensures h[0..8] == LE64(ev.monotonicNs) && h[8..16] == LE64(ev.sequence)
    ensures h[16..20] == LE32(ev.domainId) && h[20..24] == LE32(ev.categoryId)
    ensures h[24..28] == LE32(ev.nameId) && h[28..32] == LE32(ev.correlationId)
    ensures h[32] == SeverityByte(ev.severity) && h[36..40] == LE32(len)
  {
    LE64(ev.monotonicNs) + LE64(ev.sequence) + LE32(ev.domainId) + LE32(ev.categoryId)
    + LE32(ev.nameId) + LE32(ev.correlationId) + [SeverityByte(ev.severity), 0] + LE16(0) + LE32(len)
  }

  // ---- Specification ----

  function EncodeRecord(ev: EventRecord): Result<seq<byte>> {
    var payload :- EncodePayload(ev.payload);
    if |payload| % TWO_32 > MAX_EVENT_PAYLOAD then Err(LimitExceeded(Limit.EventPayload))
    else Ok(RecordHeader(ev, |payload| % TWO_32) + payload)
  }

  function EncodeRecords(evs: seq<EventRecord>): Result<seq<byte>> {
    if evs == [] then Ok([]) else
    var head :- EncodeRecord(evs[0]);
    Prepend(head, EncodeRecords(evs[1..]))
  }

  function EncodeEvents(evs: seq<EventRecord>): Result<seq<byte>> {
    if |evs| % TWO_32 > MAX_EVENTS_PER_CHUNK then Err(LimitExceeded(ChunkEvents))
    else Prepend(LE32(|evs| % TWO_32), EncodeRecords(evs))
  }

  /** Reads one record at the front of `buf`, and says how many bytes it took. */
  function DecodeRecord(buf: seq<byte>): (r: Result<(EventRecord, nat)>)
    ensures r.Ok? ==> RECORD_HEADER <= r.value.1 <= |buf|
  {
    if |buf| < RECORD_HEADER then Err(MalformedRecord(EventHeaderTruncated)) else
    var severity :- SeverityFromByte(buf[32]);
    var len := U32(buf[36..40]);
    if len > MAX_EVENT_PAYLOAD then Err(LimitExceeded(Limit.EventPayload))
    else if RECORD_HEADER + len > |buf| then Err(MalformedRecord(EventPayloadTruncated))
    else
      var payload :- DecodePayload(buf[RECORD_HEADER..RECORD_HEADER + len]);
      Ok((EventRecord(U64(buf[0..8]), U64(buf[8..16]), U32(buf[16..20]), U32(buf[20..24]),
                      U32(buf[24..28]), U32(buf[28..32]), severity, payload),
          RECORD_HEADER + len))
  }

  /** Reads exactly `n` records filling `buf`. */
  function DecodeRecords(buf: seq<byte>, n: nat): Result<seq<EventRecord>> {
    if n == 0 then if buf == [] then Ok([]) else Err(MalformedRecord(TrailingBytes(|buf|)))
    else
      var ev :- DecodeRecord(buf);
      Prepend([ev.0], DecodeRecords(buf[ev.1..], n - 1))
  }

  function DecodeEvents(buf: seq<byte>): Result<seq<EventRecord>> {
    if |buf| < 4 then Err(MalformedRecord(EventCountTruncated))
    else if U32(buf[..4]) > MAX_EVENTS_PER_CHUNK then Err(LimitExceeded(ChunkEvents))
    else DecodeRecords(buf[4..], U32(buf[..4]))
  }

  // ---- The loops ----

  method Encode(events: seq<EventRecord>) returns (r: Result<seq<byte>>)
    ensures r == EncodeEvents(events)
  {
    hide LE32, LE64, LE16, EncodePayload;
    if |events| % TWO_32 > MAX_EVENTS_PER_CHUNK {
      return Err(LimitExceeded(ChunkEvents));
    }
    var out := LE32(|events| % TWO_32);
    for i := 0 to |events|
      invariant Prepend(out, EncodeRecords(events[i..])) == EncodeEvents(events)
    {
      var ev := events[i];
      assert events[i..][1..] == events[i + 1..];
      ghost var rest := EncodeRecords(events[i + 1..]);
      var p := Payload.Encode(ev.payload);
      if p.Err? {
        return Err(p.error);
      }
      var payload := p.value;
      if |payload| % TWO_32 > MAX_EVENT_PAYLOAD {
        return Err(LimitExceeded(Limit.EventPayload));
      }
      ghost var before := out;
      out := WriteRecord(out, ev, payload);
      PrependTwice(before, EncodeRecord(ev).value, rest);
    }
    assert out + [] == out;
    return Ok(out);
  }

  method WriteRecord(start: seq<byte>, ev: EventRecord, payload: seq<byte>) returns (out: seq<byte>)
    ensures out == start + (RecordHeader(ev, |payload| % TWO_32) + payload)
  {
    hide LE32, LE64, LE16;
    out := start + LE64(ev.monotonicNs);
    out := out + LE64(ev.sequence);
    out := out + LE32(ev.domainId);
    out := out + LE32(ev.categoryId);
    out := out + LE32(ev.nameId);
    out := out + LE32(ev.correlationId);
    out := out + [SeverityByte(ev.severity)];
    out := out + [0];
    out := out + LE16(0);
    out := out + LE32(|payload| % TWO_32);
    assert out == start + RecordHeader(ev, |payload| % TWO_32);
    out := out + payload;
  }

  method ReadRecord(buf: seq<byte>, start: nat) returns (r: Result<(EventRecord, nat)>)
    requires start <= |buf|
    ensures r == DecodeRecord(buf[start..])
  {
    hide U32, U64, DecodePayload;
    var offset := start;
    if offset + RECORD_HEADER > |buf| {
      return Err(MalformedRecord(EventHeaderTruncated));
    }
    ghost var rest := buf[start..];
    assert rest[0..8] == buf[offset..offset + 8] && rest[8..16] == buf[offset + 8..offset + 16];
    assert rest[16..20] == buf[offset + 16..offset + 20] && rest[20..24] == buf[offset + 20..offset + 24];
    assert rest[24..28] == buf[offset + 24..offset + 28] && rest[28..32] == buf[offset + 28..offset + 32];
    assert rest[36..40] == buf[offset + 36..offset + 40];
    var monotonicNs := U64(buf[offset..offset + 8]);
    var sequence := U64(buf[offset + 8..offset + 16]);
    var domainId := U32(buf[offset + 16..offset + 20]);
    var categoryId := U32(buf[offset + 20..offset + 24]);
    var nameId := U32(buf[offset + 24..offset + 28]);
    var correlationId := U32(buf[offset + 28..offset + 32]);
    var severity := SeverityFromByte(buf[offset + 32]);
    if severity.Err? {
      return Err(severity.error);
    }
    var len := U32(buf[offset + 36..offset + 40]);
    offset := offset + RECORD_HEADER;
    if len > MAX_EVENT_PAYLOAD {
      return Err(LimitExceeded(Limit.EventPayload));
    }
    if offset + len > |buf| {
      return Err(MalformedRecord(EventPayloadTruncated));
    }
    assert rest[RECORD_HEADER..RECORD_HEADER + len] == buf[offset..offset + len];
    var payload := Payload.Decode(buf[offset..offset + len]);
    if payload.Err? {
      return Err(payload.error);
    }
    return Ok((EventRecord(monotonicNs, sequence, domainId, categoryId, nameId, correlationId,
                           severity.value, payload.value),
               RECORD_HEADER + len));
  }

  method DecodeMany(buf: seq<byte>) returns (r: Result<seq<EventRecord>>)
    ensures r == DecodeEvents(buf)
  {
    hide DecodeRecord, U32;
    if |buf| < 4 {
      return Err(MalformedRecord(EventCountTruncated));
    }
    var count := U32(buf[..4]);
    if count > MAX_EVENTS_PER_CHUNK {
      return Err(LimitExceeded(ChunkEvents));
    }
    var offset := 4;
    var events: seq<EventRecord> := [];
    ghost var whole := DecodeRecords(buf[4..], count);
    assert whole.Ok? ==> [] + whole.value == whole.value;
    for i := 0 to count
      invariant 4 <= offset <= |buf|
      invariant Prepend(events, DecodeRecords(buf[offset..], count - i)) == whole
    {
      var ev := ReadRecord(buf, offset);
      if ev.Err? {
        return Err(ev.error);
      }
      assert buf[offset..][ev.value.1..] == buf[offset + ev.value.1..];
      offset := offset + ev.value.1;
      PrependTwice(events, [ev.value.0], DecodeRecords(buf[offset..], count - i - 1));
      events := events + [ev.value.0];
    }
    if offset != |buf| {
      return Err(MalformedRecord(TrailingBytes(|buf| - offset)));
    }
    assert events + [] == events;
    return Ok(events);
  }

  // ---- Decoding undoes encoding ----

  lemma RecordRoundTrip(ev: EventRecord, rest: seq<byte>)
    requires EncodeRecord(ev).Ok?
    ensures var e := EncodeRecord(ev).value;
            |e| >= RECORD_HEADER && DecodeRecord(e + rest) == Ok((ev, |e|))
  {
    hide EncodePayload, DecodePayload, RecordHeader, U32, U64, LE32, LE64;
    var p := EncodePayload(ev.payload).value;
    PayloadEncodesIff(ev.payload);
    PayloadRoundTrip(ev.payload);
    var h := RecordHeader(ev, |p|);
    var all := h + p + rest;
    assert all[0..8] == h[0..8] && all[8..16] == h[8..16] && all[16..20] == h[16..20];
    assert all[20..24] == h[20..24] && all[24..28] == h[24..28] && all[28..32] == h[28..32];
    assert all[32] == h[32] && all[36..40] == h[36..40];
    assert all[RECORD_HEADER..RECORD_HEADER + |p|] == p;
  }

  lemma {:induction false} RecordsRoundTrip(evs: seq<EventRecord>)
    requires EncodeRecords(evs).Ok?
    ensures DecodeRecords(EncodeRecords(evs).value, |evs|) == Ok(evs)
  {
    hide EncodeRecord, DecodeRecord;
    if evs != [] {
      var e, rest := EncodeRecord(evs[0]).value, EncodeRecords(evs[1..]).value;
      RecordRoundTrip(evs[0], rest);
      RecordsRoundTrip(evs[1..]);
      assert (e + rest)[|e|..] == rest;
      assert [evs[0]] + evs[1..] == evs;
    }
  }

  /** Encoded events decode to themselves, unless their number does not fit the 32-bit count. */
  lemma EventsRoundTrip(evs: seq<EventRecord>)
    requires EncodeEvents(evs).Ok? && |evs| < TWO_32
    ensures DecodeEvents(EncodeEvents(evs).value) == Ok(evs)
  {
    hide EncodeRecords, DecodeRecords;
    var e := EncodeEvents(evs).value;
    assert e[..4] == LE32(|evs|) && e[4..] == EncodeRecords(evs).value;
    RecordsRoundTrip(evs);
  }

  // ---- What decodes can be encoded again, at the same length ----

  lemma RecordReencodes(buf: seq<byte>)
    requires DecodeRecord(buf).Ok?
    ensures var (ev, n) := DecodeRecord(buf).value;
            EncodeRecord(ev).Ok? && |EncodeRecord(ev).value| == n
  {
    hide U64, EncodePayload, DecodePayload;
    var len := U32(buf[36..40]);
    PayloadReencodes(buf[RECORD_HEADER..RECORD_HEADER + len]);
  }

  lemma {:induction false} RecordsReencode(buf: seq<byte>, n: nat)
    requires DecodeRecords(buf, n).Ok?
    ensures var evs := DecodeRecords(buf, n).value;
            |evs| == n && EncodeRecords(evs).Ok? && |EncodeRecords(evs).value| == |buf|
    ensures 40 * n <= |buf|
    decreases n
  {
    hide EncodeRecord, DecodeRecord;
    if n > 0 {
      var (ev, k) := DecodeRecord(buf).value;
      RecordReencodes(buf);
      RecordsReencode(buf[k..], n - 1);
      var evs := DecodeRecords(buf, n).value;
      assert evs[0] == ev && evs[1..] == DecodeRecords(buf[k..], n - 1).value;
    }
  }

  /** Whatever the decoder accepts encodes to as many bytes, and those decode to the same events. */
  lemma EventsReencode(buf: seq<byte>)
    requires DecodeEvents(buf).Ok?
    ensures var again := EncodeEvents(DecodeEvents(buf).value);
            again.Ok? && |again.value| == |buf| && DecodeEvents(again.value) == DecodeEvents(buf)
    ensures 40 * |DecodeEvents(buf).value| <= |buf|
  {
    hide EncodeRecords, DecodeRecords, U32;
    RecordsReencode(buf[4..], U32(buf[..4]));
    EventsRoundTrip(DecodeEvents(buf).value);
  }
}
