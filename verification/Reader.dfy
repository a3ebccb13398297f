/** The recovery scan: replays arbitrary bytes, stops at a torn tail, fails closed on corruption. */
module Reader {
  import opened Wrappers
  import opened Bytes
  import opened Format
  import opened Dict
  import opened Event
  import opened Payload
  import Chunk
  import Header
  import Crc32

  /** A journal as read: every committed chunk replayed, and whether bytes were left behind. */
  datatype Session = Session(
    header: Header.FileHeader,
    names: Names,
    events: seq<EventRecord>,
    chunksCommitted: nat,
    tornTail: bool)

  /** What the committed chunks read so far amount to. */
  datatype Recovered = Recovered(names: Names, events: seq<EventRecord>, chunks: nat)

  const NOTHING := Recovered(NO_NAMES, [], 0)

  /** What stands at a chunk position. */
  datatype Frame =
    | End(torn: bool)
    | Broken(error: Format.Error)
    | Whole(chunkType: u16, sequence: u64, payload: seq<byte>)

  // ---- Specification ----

  /** The frame at the front of `rest`; `first` tells the position right after the file header. */
  function NextFrame(rest: seq<byte>, first: bool): (f: Frame)
    ensures f.Whole? ==> Chunk.OVERHEAD + |f.payload| <= |rest|
  {
    if |rest| < Chunk.OVERHEAD then End(|rest| > 0)
    else if rest[..4] != CHUNK_MAGIC then if first then Broken(InvalidChunkMagic) else End(true)
    else FrameBehindMagic(rest)
  }

  function FrameBehindMagic(rest: seq<byte>): (f: Frame)
    requires |rest| >= Chunk.OVERHEAD
    ensures f.Whole? ==> Chunk.OVERHEAD + |f.payload| <= |rest|
  {
    var sequence, len := U64(rest[8..16]), U32(rest[16..20]);
    var end := CHUNK_HEADER_SIZE + len;
    if end + CHUNK_TRAILER_SIZE > |rest| then End(true)
    else if len > MAX_CHUNK_PAYLOAD then Broken(PayloadTooLarge(len, MAX_CHUNK_PAYLOAD))
    else if U32(rest[end + 4..end + 8]) != COMMITTED_MARKER then End(true)
    else if U32(rest[end..end + 4]) != Crc32.Checksum(rest[CHUNK_HEADER_SIZE..end]) then
        Broken(ChecksumMismatch(sequence))
    else Whole(U16(rest[4..6]), sequence, rest[CHUNK_HEADER_SIZE..end])
  }

  /** Whether every id the field list mentions is in the dictionary, reported as the first missing one. */
  function CheckFields(d: Names, fs: seq<Field>): Result<()> {
    if fs == [] then Ok(()) else
    var _ :- Require(d, String, fs[0].nameId);
    var _ :- if fs[0].value.InternedString? then Require(d, String, fs[0].value.id) else Ok([]);
    CheckFields(d, fs[1..])
  }

  function CheckRefs(d: Names, ev: EventRecord): Result<()> {
    var _ :- Require(d, Domain, ev.domainId);
    var _ :- Require(d, Category, ev.categoryId);
    var _ :- Require(d, EventName, ev.nameId);
    var _ :- if ev.correlationId != 0 then Require(d, String, ev.correlationId) else Ok([]);
    CheckFields(d, ev.payload.fields)
  }

  function CheckEvents(d: Names, evs: seq<EventRecord>, expected: nat): Result<()> {
    if evs == [] then Ok(())
    else if evs[0].sequence != expected then Err(SequenceGap(expected, evs[0].sequence))
    else
      var _ :- CheckRefs(d, evs[0]);
      CheckEvents(d, evs[1..], expected + 1)
  }

  function WithEntries(st: Recovered, es: seq<DictEntry>): Result<Recovered> {
    var names :- AllInserted(st.names, es);
    Ok(Recovered(names, st.events, st.chunks + 1))
  }

  function WithEvents(st: Recovered, evs: seq<EventRecord>): Result<Recovered> {
    var _ :- CheckEvents(st.names, evs, |st.events| + 1);
    Ok(Recovered(st.names, st.events + evs, st.chunks + 1))
  }

  /** Replays one intact chunk. */
  function Apply(st: Recovered, chunkType: u16, sequence: u64, payload: seq<byte>): Result<Recovered> {
    if sequence != st.chunks + 1 then Err(SequenceGap(st.chunks + 1, sequence))
    else if chunkType == CHUNK_TYPE_DICTIONARY then
      var es :- DecodedEntries(payload);
      WithEntries(st, es)
    else if chunkType == CHUNK_TYPE_EVENT then
      var evs :- DecodeEvents(payload);
      WithEvents(st, evs)
    else Ok(Recovered(st.names, st.events, st.chunks + 1))
  }

  /** Replays chunk after chunk until the bytes end, tear, or fail. */
  function Scan(rest: seq<byte>, first: bool, st: Recovered): Result<(Recovered, bool)>
    decreases |rest|
  {
    match NextFrame(rest, first)
    case End(torn) => Ok((st, torn))
    case Broken(e) => Err(e)
    case Whole(chunkType, sequence, payload) =>
      var st1 :- Apply(st, chunkType, sequence, payload);
      Scan(rest[Chunk.OVERHEAD + |payload|..], false, st1)
  }

  function Opened(file: seq<byte>): Result<Session> {
    if |file| < 128 then Err(Io) else
    var header :- Header.Decode(file[..128]);
    var (st, torn) :- Scan(file[128..], true, NOTHING);
    Ok(Session(header, st.names, st.events, st.chunks, torn))
  }

  // ---- The loop ----

  method ValidateFields(d: Dictionary, fields: seq<Field>) returns (r: Result<()>)
    ensures r == CheckFields(d.Value(), fields)
  {
    hide Require;
    for i := 0 to |fields|
      invariant CheckFields(d.Value(), fields[i..]) == CheckFields(d.Value(), fields)
    {
      assert fields[i..][1..] == fields[i + 1..];
      var found := Require(d.Value(), String, fields[i].nameId);
      if found.Err? {
        return Err(found.error);
      }
      if fields[i].value.InternedString? {
        found := Require(d.Value(), String, fields[i].value.id);
        if found.Err? {
          return Err(found.error);
        }
      }
    }
    return Ok(());
  }

  method ValidateEventRefs(d: Dictionary, ev: EventRecord) returns (r: Result<()>)
    ensures r == CheckRefs(d.Value(), ev)
  {
    hide Require, CheckFields;
    var found := Require(d.Value(), Domain, ev.domainId);
    if found.Err? {
      return Err(found.error);
    }
    found := Require(d.Value(), Category, ev.categoryId);
    if found.Err? {
      return Err(found.error);
    }
    found := Require(d.Value(), EventName, ev.nameId);
    if found.Err? {
      return Err(found.error);
    }
    if ev.correlationId != 0 {
      found := Require(d.Value(), String, ev.correlationId);
      if found.Err? {
        return Err(found.error);
      }
    }
    r := ValidateFields(d, ev.payload.fields);
  }

  method InsertEntries(d: Dictionary, entries: seq<DictEntry>) returns (r: Result<()>)
    modifies d
    ensures match AllInserted(old(d.Value()), entries)
            case Ok(names) => r == Ok(()) && d.Value() == names
            case Err(e) => r == Err(e)
  {
    hide Inserted;
    for i := 0 to |entries|
      invariant AllInserted(d.Value(), entries[i..]) == AllInserted(old(d.Value()), entries)
    {
      assert entries[i..][1..] == entries[i + 1..];
      var inserted := d.Insert(entries[i]);
      if inserted.Err? {
        return Err(inserted.error);
      }
    }
    return Ok(());
  }

  method ValidateEvents(d: Dictionary, events: seq<EventRecord>, start: nat) returns (r: Result<nat>)
    ensures match CheckEvents(d.Value(), events, start)
            case Ok(_) => r == Ok(start + |events|)
            case Err(e) => r == Err(e)
  {
    hide CheckRefs;
    var expected := start;
    for i := 0 to |events|
      invariant expected == start + i
      invariant CheckEvents(d.Value(), events[i..], expected) == CheckEvents(d.Value(), events, start)
    {
      assert events[i..][1..] == events[i + 1..];
      if events[i].sequence != expected {
        return Err(SequenceGap(expected, events[i].sequence));
      }
      expected := expected + 1;
      var valid := ValidateEventRefs(d, events[i]);
      if valid.Err? {
        return Err(valid.error);
      }
    }
    return Ok(expected);
  }

  /** Reads the frame at `offset` of the file. */
  method ReadFrame(file: seq<byte>, offset: nat) returns (f: Frame)
    requires offset + Chunk.OVERHEAD <= |file|
    ensures f == NextFrame(file[offset..], offset == 128)
    ensures f.End? ==> f.torn
  {
    hide Crc32.Checksum, U16, U32, U64;
    ghost var rest := file[offset..];
    var hdr := file[offset..offset + CHUNK_HEADER_SIZE];
    assert hdr == rest[0..CHUNK_HEADER_SIZE];
    SliceOfSlice(rest, 0, CHUNK_HEADER_SIZE, 0, 4);
    SliceOfSlice(rest, 0, CHUNK_HEADER_SIZE, 4, 6);
    SliceOfSlice(rest, 0, CHUNK_HEADER_SIZE, 8, 16);
    SliceOfSlice(rest, 0, CHUNK_HEADER_SIZE, 16, 20);
    if hdr[0..4] != CHUNK_MAGIC {
      return if offset == 128 then Broken(InvalidChunkMagic) else End(true);
    }
    var header := Chunk.DecodeHeader(hdr).value;
    var need := CHUNK_HEADER_SIZE + header.payloadLen + CHUNK_TRAILER_SIZE;
    if need > |file| - offset {
      return End(true);
    }
    if header.payloadLen > MAX_CHUNK_PAYLOAD {
      return Broken(PayloadTooLarge(header.payloadLen, MAX_CHUNK_PAYLOAD));
    }
    var end := CHUNK_HEADER_SIZE + header.payloadLen;
    var payload := file[offset + CHUNK_HEADER_SIZE..offset + end];
    var trailer := file[offset + end..offset + need];
    assert rest[CHUNK_HEADER_SIZE..end] == payload;
    assert trailer == rest[end..need];
    SliceOfSlice(rest, end, need, 0, 4);
    SliceOfSlice(rest, end, need, 4, 8);
    var checksum := U32(trailer[0..4]);
    var committed := U32(trailer[4..8]);
    if committed != COMMITTED_MARKER {
      return End(true);
    }
    var expectedCrc := Crc32.Crc32(payload);
    if checksum != expectedCrc {
      return Broken(ChecksumMismatch(header.sequence));
    }
    return Whole(header.chunkType, header.sequence, payload);
  }

  lemma TailFrame(rest: seq<byte>, first: bool)
    requires |rest| < Chunk.OVERHEAD
    ensures NextFrame(rest, first) == End(|rest| > 0)
  {
  }

  method Open(file: seq<byte>) returns (r: Result<Session>)
    ensures r == Opened(file)
  {
    hide NextFrame, Header.Decode, CheckEvents, AllInserted, DecodedEntries, DecodeEvents;
    if |file| < 128 {
      return Err(Io);
    }
    var header := Header.Decode(file[..128]);
    if header.Err? {
      return Err(header.error);
    }
    var dictionary := new Dictionary();
    var events: seq<EventRecord> := [];
    var offset := 128;
    var expectedChunkSeq, expectedEventSeq := 1, 1;
    var tornTail := false;
    while |file| - offset >= Chunk.OVERHEAD
      invariant 128 <= offset <= |file|
      invariant expectedChunkSeq >= 1 && expectedEventSeq == |events| + 1
      invariant !tornTail
      invariant Scan(file[128..], true, NOTHING) ==
                Scan(file[offset..], offset == 128, Recovered(dictionary.Value(), events, expectedChunkSeq - 1))
      decreases |file| - offset
    {
      ghost var st := Recovered(dictionary.Value(), events, expectedChunkSeq - 1);
      var frame := ReadFrame(file, offset);
      if frame.Broken? {
        return Err(frame.error);
      }
      if frame.End? {
        tornTail := true;
        break;
      }
      if frame.sequence != expectedChunkSeq {
        return Err(SequenceGap(expectedChunkSeq, frame.sequence));
      }
      expectedChunkSeq := expectedChunkSeq + 1;
      if frame.chunkType == CHUNK_TYPE_DICTIONARY {
        var entries := DecodeEntries(frame.payload);
        if entries.Err? {
          return Err(entries.error);
        }
        var inserted := InsertEntries(dictionary, entries.value);
        if inserted.Err? {
          return Err(inserted.error);
        }
      } else if frame.chunkType == CHUNK_TYPE_EVENT {
        var decoded := DecodeMany(frame.payload);
        if decoded.Err? {
          return Err(decoded.error);
        }
        var checkedTo := ValidateEvents(dictionary, decoded.value, expectedEventSeq);
        if checkedTo.Err? {
          return Err(checkedTo.error);
        }
        expectedEventSeq := checkedTo.value;
        events := events + decoded.value;
      }
      ghost var need := Chunk.OVERHEAD + |frame.payload|;
      assert Apply(st, frame.chunkType, frame.sequence, frame.payload) ==
             Ok(Recovered(dictionary.Value(), events, expectedChunkSeq - 1));
      assert file[offset..][need..] == file[offset + need..];
      offset := offset + (Chunk.OVERHEAD + |frame.payload|);
    }
    if !tornTail {
      TailFrame(file[offset..], offset == 128);
    }
    if |file| > offset && !tornTail {
      tornTail := true;
    }
    return Ok(Session(header.value, dictionary.Value(), events, expectedChunkSeq - 1, tornTail));
  }
}
