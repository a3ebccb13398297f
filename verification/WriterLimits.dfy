/** Where a sealed chunk cannot be read back, that a writer can get there, and where a filed event's ids are defined. */
module WriterLimits {
  import opened Wrappers
  import opened Bytes
  import opened Utf8
  import opened Format
  import opened Dict
  import opened Payload
  import opened Event
  import opened Reader
  import opened Recovery
  import opened Journal
  import opened Writer
  import opened WriterTheorems
  import Chunk
  import Crc32

  // ---- Ids are defined before they are used ----

  /** Every id in a written event is defined by the dictionary chunks written before that event's chunk. */
  lemma FiledRefsEarlier(s: WriterState, i: nat, ev: EventRecord)
    requires Inv(s) && i < |s.log| && s.log[i].EventChunk? && ev in s.log[i].events
    ensures AllInserted(NO_NAMES, FiledEntries(s.log[..i])).Ok?
    ensures Resolves(AllInserted(NO_NAMES, FiledEntries(s.log[..i])).value, ev)
  {
    assert Good(s.log);
    hide Inv, Resolves, AllInserted, FiledEntries, FiledEvents, AllSound, CheckEvents;
    var front, rest := s.log[..i], s.log[i..];
    assert s.log == front + rest && rest[0] == s.log[i];
    ReplayConcat(NOTHING, front, rest);
    ReplayIs(front);
    var st := Replay(NOTHING, front).value;
    assert WithEvents(st, rest[0].events).Ok?;
    CheckEventsIff(st.names, rest[0].events, |st.events| + 1);
  }

  // ---- Which sealed chunks can be read back ----

  /** A sealed chunk is read back as its payload exactly when the payload is below 2^32 bytes. */
  lemma SealedReadsIff(c: LogChunk, n: u64, x: seq<byte>, first: bool)
    requires Sealed(c, n).Ok?
    ensures NextFrame(Sealed(c, n).value + x, first) == Whole(ChunkType(c), n, PayloadOf(c).value) <==>
            |PayloadOf(c).value| < TWO_32
  {
    hide PayloadOf, Crc32.Checksum, Chunk.HeaderBytes, LE32, NextFrame;
    var payload := PayloadOf(c).value;
    var h := Chunk.ChunkHeader(ChunkType(c), n, |payload| % TWO_32);
    if |payload| < TWO_32 {
      LaidOutFrame(h, payload, Crc32.Checksum(payload), x, first);
    } else {
      FrameIsShort(NextFrame(Sealed(c, n).value + x, first), Sealed(c, n).value + x, first);
    }
  }

  /** The reader takes no payload beyond the limit. */
  lemma FrameIsShort(f: Frame, rest: seq<byte>, first: bool)
    requires f == NextFrame(rest, first)
    ensures f.Whole? ==> |f.payload| <= MAX_CHUNK_PAYLOAD
  {
    hide Crc32.Checksum, U16, U64;
  }

  // ---- A writer can seal a chunk that is too long ----

  /** `n` fields with the longest blob, and one that fills the payload limit behind fifteen of them. */
  function Blobs(n: nat): seq<Field> {
    if n == 0 then [Field(1, Blob(Zeros(3933)))] else [Field(1, Blob(Zeros(4096)))] + Blobs(n - 1)
  }

  /** An event whose payload encodes to exactly 65,535 bytes. */
  function BigEvent(): AppendEvent { AppendEvent(0, 1, 1, 1, 0, Trace, TypedPayload(Blobs(15))) }

  /** What `n` appends of it leave pending, numbered from `start`. */
  function BigRecords(start: nat, n: nat): seq<EventRecord>
    requires start + n < TWO_64
  {
    if n == 0 then [] else BigRecords(start, n - 1) + [Record(BigEvent(), start + n - 1)]
  }

  lemma {:induction false} BlobsAre(n: nat)
    ensures |Blobs(n)| == n + 1 && FieldsSize(Blobs(n)) == 4106 * n + 3943
    ensures EncodeFields(Blobs(n)).Ok?
    decreases n
  {
    hide LE32, Zeros;
    assert |Zeros(4096)| == 4096 && |Zeros(3933)| == 3933;
    if n > 0 {
      BlobsAre(n - 1);
      assert Blobs(n)[1..] == Blobs(n - 1);
    } else {
      assert Blobs(n)[1..] == [];
    }
  }

  lemma BigRecordIs(sequence: u64)
    ensures EncodeRecord(Record(BigEvent(), sequence)).Ok?
    ensures RecordSize(Record(BigEvent(), sequence)) == 65_575
  {
    BlobsAre(15);
    FieldsSizeIs(Blobs(15));
    BigIs(Record(BigEvent(), sequence), Blobs(15));
  }

  lemma BigIs(ev: EventRecord, fields: seq<Field>)
    requires ev.payload.fields == fields && |fields| == 16 && EncodeFields(fields).Ok?
    requires |EncodeFields(fields).value| == FieldsSize(fields) == 65_533
    ensures EncodeRecord(ev).Ok? && RecordSize(ev) == 65_575
  {
    hide EncodeFields, FieldsSize, RecordHeader, LE16;
  }

  lemma SizeAppend(evs: seq<EventRecord>, ev: EventRecord)
    ensures EventsSize(evs + [ev]) == EventsSize(evs) + RecordSize(ev)
  {
    hide RecordSize;
    assert (evs + [ev])[..|evs|] == evs;
  }

  lemma NoRecords()
    ensures EncodeRecords([]).Ok? && EventsSize([]) == 4
  {
  }

  lemma {:induction false} BigRecordsAre(start: nat, n: nat)
    requires start + n < TWO_64
    ensures |BigRecords(start, n)| == n && EventsSize(BigRecords(start, n)) == 4 + 65_575 * n
    ensures EncodeRecords(BigRecords(start, n)).Ok?
    decreases n
  {
    hide EncodeRecord, EncodeRecords, EventsSize, RecordSize, BigEvent;
    NoRecords();
    if n > 0 {
      BigRecordsAre(start, n - 1);
      BigRecordIs(start + n - 1);
      var evs, last := BigRecords(start, n - 1), Record(BigEvent(), start + n - 1);
      RecordsAppend(evs, last);
      SizeAppend(evs, last);
    }
  }

  lemma EventsPayload(evs: seq<EventRecord>)
    requires |evs| <= MAX_EVENTS_PER_CHUNK && EncodeRecords(evs).Ok?
    ensures EncodeEvents(evs).Ok? && |EncodeEvents(evs).value| == EventsSize(evs)
  {
    hide EncodeRecords, EventsSize, LE32;
    EventsSizeIs(evs);
  }

  /** 65,535 of them seal, although their payload is beyond 2^32 bytes. */
  lemma BigChunkSeals(start: nat, n: u64)
    requires start + 65_535 < TWO_64
    ensures var c := EventChunk(BigRecords(start, 65_535));
            Sealed(c, n).Ok? && |PayloadOf(c).value| == 4_297_457_629
  {
    var evs := BigRecords(start, 65_535);
    hide BigRecords, EncodeEvents, EncodeRecords, EventsSize, Chunk.Committed;
    BigRecordsAre(start, 65_535);
    EventsPayload(evs);
    CommittedIff(CHUNK_TYPE_EVENT, n, EncodeEvents(evs).value);
  }

  /** The dictionary defines the ids the event uses. */
  predicate Knows(s: WriterState) {
    (Domain, 1) in s.names.byKey && (Category, 1) in s.names.byKey && (EventName, 1) in s.names.byKey
        && (String, 1) in s.names.byKey
  }

  lemma {:induction false} BlobsResolve(d: Names, n: nat)
    requires (String, 1) in d.byKey
    ensures CheckFields(d, Blobs(n)).Ok?
    decreases n
  {
    if n > 0 {
      BlobsResolve(d, n - 1);
      assert Blobs(n)[1..] == Blobs(n - 1);
    } else {
      assert Blobs(n)[1..] == [];
    }
  }

  function Appends(n: nat): seq<Op> {
    if n == 0 then [] else [AppendOp(BigEvent())] + Appends(n - 1)
  }

  lemma BigAppends(s: WriterState, start: nat, k: nat)
    requires !s.finished && Knows(s) && start + k + 1 < TWO_64 && s.nextEvent == start + k
    requires s.pendingEvents == BigRecords(start, k)
    ensures Buffered(s, BigEvent()) == s.(nextEvent := start + k + 1, pendingEvents := BigRecords(start, k + 1))
    ensures CheckRefs(s.names, Record(BigEvent(), s.nextEvent)).Ok?
  {
    BlobsResolve(s.names, 15);
    hide Blobs;
  }

  /** An append that does not fill the buffer only buffers. */
  lemma AppendBuffers(s: WriterState, ev: AppendEvent)
    requires !s.finished && CheckRefs(s.names, Record(ev, s.nextEvent)).Ok? && |s.pendingEvents| < 65_534
    ensures Step(s, AppendOp(ev)) == Buffered(s, ev)
  {
    hide CheckRefs, Record, Flushing;
  }

  lemma OneAppend(s: WriterState, start: nat, k: nat)
    requires !s.finished && Knows(s) && start + k + 1 < TWO_64 && s.nextEvent == start + k && k < 65_534
    requires s.pendingEvents == BigRecords(start, k)
    ensures Step(s, AppendOp(BigEvent())) == s.(nextEvent := start + k + 1, pendingEvents := BigRecords(start, k + 1))
  {
    hide CheckRefs, BigEvent, BigRecords, Step, Buffered, Record, EventsSize, EncodeRecords;
    BigRecordsAre(start, k);
    BigAppends(s, start, k);
    AppendBuffers(s, BigEvent());
  }

  /** Up to the last but one append the events only pile up. */
  lemma {:induction false} Piling(s: WriterState, start: nat, k: nat, n: nat)
    requires !s.finished && Knows(s) && start + k + n < TWO_64 && s.nextEvent == start + k && k + n < 65_535
    requires s.pendingEvents == BigRecords(start, k)
    ensures After(s, Appends(n)) == s.(nextEvent := start + k + n, pendingEvents := BigRecords(start, k + n))
    decreases n
  {
    hide BigEvent, BigRecords, Step;
    if n > 0 {
      OneAppend(s, start, k);
      assert Appends(n)[1..] == Appends(n - 1);
      Piling(Step(s, AppendOp(BigEvent())), start, k + 1, n - 1);
    }
  }

  // ---- What the reader makes of it ----

  /** Where the reader, taking the wrapped length field at its word, looks for the end of the payload. */
  const WRAPPED: nat := 2_490_333

  lemma {:induction false} BlobsEnd(n: nat)
    requires EncodeFields(Blobs(n)).Ok?
    ensures var e := EncodeFields(Blobs(n)).value;
            |e| >= 3933 && forall i | |e| - 3933 <= i < |e| :: e[i] == 0
    decreases n
  {
    hide LE32;
    if n > 0 {
      assert Blobs(n)[1..] == Blobs(n - 1);
      BlobsEnd(n - 1);
    } else {
      assert Blobs(n)[1..] == [];
    }
  }

  /** A record ends as its fields do. */
  lemma RecordEndsAsFields(ev: EventRecord, i: nat)
    requires EncodeRecord(ev).Ok? && EncodeFields(ev.payload.fields).Ok?
    requires i < |EncodeFields(ev.payload.fields).value|
    ensures var e, fields := EncodeRecord(ev).value, EncodeFields(ev.payload.fields).value;
            |e| == RECORD_HEADER + 2 + |fields| && e[RECORD_HEADER + 2 + i] == fields[i]
  {
    hide EncodeFields, RecordHeader, LE16;
  }

  /** A largest record ends in zeros. */
  lemma RecordEnds(sequence: u64, i: nat)
    requires EncodeRecord(Record(BigEvent(), sequence)).Ok? && 61_642 <= i < 65_575
    ensures var e := EncodeRecord(Record(BigEvent(), sequence)).value; |e| == 65_575 && e[i] == 0
  {
    hide Blobs, EncodeFields, EncodeRecord, FieldsSize;
    var ev := Record(BigEvent(), sequence);
    BlobsAre(15);
    FieldsSizeIs(Blobs(15));
    BlobsEnd(15);
    RecordEndsAsFields(ev, i - 42);
  }

  /** The 38th record's zeros are there, however many records follow. */
  lemma {:induction false} RecordsHold(start: nat, n: nat, i: nat)
    requires start + n < TWO_64 && 38 <= n && EncodeRecords(BigRecords(start, n)).Ok?
    requires 37 * 65_575 + 61_642 <= i < 38 * 65_575
    ensures |EncodeRecords(BigRecords(start, n)).value| == 65_575 * n
    ensures EncodeRecords(BigRecords(start, n)).value[i] == 0
    decreases n
  {
    hide EncodeRecord, EncodeRecords, BigEvent, EventsSize, RecordSize;
    var evs, last := BigRecords(start, n - 1), Record(BigEvent(), start + n - 1);
    BigRecordsAre(start, n);
    EventsSizeIs(BigRecords(start, n));
    BigRecordsAre(start, n - 1);
    EventsSizeIs(evs);
    RecordsAppend(evs, last);
    BigRecordIs(start + n - 1);
    if n > 38 {
      RecordsHold(start, n - 1, i);
    } else {
      RecordEnds(start + n - 1, i - 37 * 65_575);
    }
  }

  /** The reader finds no commit marker there, and takes the chunk for a torn tail. */
  lemma WrappedIsTorn(chunkType: u16, n: u64, payload: seq<byte>, x: seq<byte>, first: bool)
    requires |payload| == 4_297_457_629 && forall i | WRAPPED + 4 <= i < WRAPPED + 8 :: payload[i] == 0
    requires Chunk.Committed(chunkType, n, payload).Ok?
    ensures NextFrame(Chunk.Committed(chunkType, n, payload).value + x, first) == End(true)
  {
    hide U16, U32, U64, LE32, LE64, LE16, Crc32.Checksum, Chunk.HeaderBytes;
    var h := Chunk.ChunkHeader(chunkType, n, WRAPPED);
    var all := Chunk.Committed(chunkType, n, payload).value + x;
    assert all[..CHUNK_HEADER_SIZE] == Chunk.HeaderBytes(h);
    HeaderAtFront(h, all);
    var end := CHUNK_HEADER_SIZE + WRAPPED;
    var marker := all[end + 4..end + 8];
    forall i | 0 <= i < 4
      ensures marker[i] == 0
    {
      assert marker[i] == payload[WRAPPED + 4 + i];
    }
    ZeroMarker(marker);
  }

  lemma ZeroMarker(b: seq<byte>)
    requires |b| == 4 && b[0] == b[1] == b[2] == b[3] == 0
    ensures U32(b) != COMMITTED_MARKER
  {
    assert b == [0, 0, 0, 0];
  }

  lemma RecordsBehindCount(evs: seq<EventRecord>, i: nat)
    requires |evs| <= MAX_EVENTS_PER_CHUNK && EncodeRecords(evs).Ok? && 4 <= i < 4 + |EncodeRecords(evs).value|
    ensures EncodeEvents(evs).Ok? && i < |EncodeEvents(evs).value|
    ensures EncodeEvents(evs).value[i] == EncodeRecords(evs).value[i - 4]
  {
    hide EncodeRecords, LE32;
  }

  lemma WrappedZero(start: nat, n: nat, i: nat)
    requires n == 65_535 && start + n < TWO_64 && WRAPPED + 4 <= i < WRAPPED + 8
    ensures var r := EncodeEvents(BigRecords(start, n)); r.Ok? && i < |r.value| && r.value[i] == 0
  {
    hide BigRecords, EncodeEvents, EncodeRecords, EventsSize;
    BigRecordsAre(start, n);
    RecordsHold(start, n, i - 4);
    RecordsBehindCount(BigRecords(start, n), i);
  }

  lemma WrappedZeros(start: nat)
    requires start + 65_535 < TWO_64
    ensures var r := EncodeEvents(BigRecords(start, 65_535));
            r.Ok? && |r.value| == 4_297_457_629 && forall i | WRAPPED + 4 <= i < WRAPPED + 8 :: r.value[i] == 0
  {
    hide BigRecords, EncodeEvents, EncodeRecords, EventsSize;
    BigRecordsAre(start, 65_535);
    EventsPayload(BigRecords(start, 65_535));
    forall i | WRAPPED + 4 <= i < WRAPPED + 8
      ensures EncodeEvents(BigRecords(start, 65_535)).value[i] == 0
    {
      WrappedZero(start, 65_535, i);
    }
  }

  lemma WrappedFrame(start: nat, n: u64, first: bool)
    requires start + 65_535 < TWO_64
    ensures var c := EventChunk(BigRecords(start, 65_535));
            Sealed(c, n).Ok? && NextFrame(Sealed(c, n).value, first) == End(true)
  {
    hide BigRecords, EncodeEvents, NextFrame, Chunk.Committed;
    BigChunkSeals(start, n);
    WrappedZeros(start);
    var payload := EncodeEvents(BigRecords(start, 65_535)).value;
    WrappedIsTorn(CHUNK_TYPE_EVENT, n, payload, [], first);
    var b := Chunk.Committed(CHUNK_TYPE_EVENT, n, payload).value;
    assert b + [] == b;
  }

  lemma TornScan(b: seq<byte>, first: bool, st: Recovered)
    requires NextFrame(b, first) == End(true)
    ensures Scan(b, first, st) == Ok((st, true))
  {
    hide NextFrame;
  }

  lemma OpensTorn(h: Header.Laid, log: seq<LogChunk>, b: seq<byte>)
    requires Good(log) && NextFrame(b, log == []) == End(true)
    ensures Opened(Header.HeaderBytes(h) + (Layout(log, 1) + b)) == Ok(SessionOf(h, log, true))
  {
    hide NextFrame, Scan, Layout, Replay, Sound, Header.HeaderBytes, Header.AsRead, Opened;
    OpenBehindHeader(h, Layout(log, 1) + b);
    ScanLog(log, b, true, NOTHING);
    ReplayCounts(NOTHING, log);
    TornScan(b, log == [], Replay(NOTHING, log).value);
  }

  /** A chunk taken for a torn tail leaves the journal as it was before it. */
  lemma TornBehind(h: Header.Laid, log: seq<LogChunk>, c: LogChunk)
    requires Good(log) && |log| + 1 < TWO_64 && Sealed(c, |log| + 1).Ok?
    requires NextFrame(Sealed(c, |log| + 1).value, log == []) == End(true)
    ensures Opened(FileOf(h, log + [c])) == Ok(SessionOf(h, log, true))
  {
    hide Sealed, SealedBytes, NextFrame, Layout, Replay, Sound, ChunkType, Header.HeaderBytes, Header.AsRead, Opened;
    var b := Sealed(c, |log| + 1).value;
    SealedBytesAre(c, |log| + 1);
    LayoutAppend(log, c, 1);
    OpensTorn(h, log, b);
    Rejoined(Header.HeaderBytes(h), Layout(log, 1), b);
  }

  lemma SealedBytesAre(c: LogChunk, n: u64)
    requires Sealed(c, n).Ok?
    ensures SealedBytes(c, n) == Sealed(c, n).value
  {
    hide Sealed;
  }

  lemma Rejoined(a: seq<byte>, b: seq<byte>, c: seq<byte>)
    ensures a + (b + c) == a + b + c
  {
  }

  // ---- A new writer gets there ----

  const NAME_D: Text := [0x64]
  const NAME_C: Text := [0x63]
  const NAME_E: Text := [0x65]
  const NAME_S: Text := [0x73]

  /** One name of every kind, and a flush. */
  function SetUp(): seq<Op> {
    [InternOp(Domain, NAME_D), InternOp(Category, NAME_C), InternOp(EventName, NAME_E), InternOp(String, NAME_S),
     FlushOp]
  }

  /** Nothing of a kind is interned yet. */
  predicate Untouched(d: Names, kind: DictKind) {
    (forall key <- d.byKey :: key.0 != kind) && (forall key <- d.byName :: key.0 != kind) && NextId(d, kind) == 1
  }

  /** The first name of a kind gets the id 1. */
  lemma FirstName(s: WriterState, kind: DictKind, name: Text)
    requires !s.finished && Untouched(s.names, kind) && |name| <= 1024
    ensures var t := Step(s, InternOp(kind, name));
            && t == s.(names := t.names, pendingDict := s.pendingDict + [DictEntry(kind, 1, name)])
            && (kind, 1) in t.names.byKey
            && (forall key <- s.names.byKey :: key in t.names.byKey)
            && (forall k | k != kind && Untouched(s.names, k) :: Untouched(t.names, k))
  {
  }

  lemma NothingTouched(kind: DictKind)
    ensures Untouched(NO_NAMES, kind)
  {
  }

  lemma SetUpNames(h: Header.Laid)
    ensures var s := After(Fresh(h), SetUp()[..4]);
            && s == Fresh(h).(names := s.names, pendingDict := s.pendingDict)
            && Knows(s) && |s.pendingDict| == 4 && forall i | 0 <= i < 4 :: |s.pendingDict[i].name| == 1
  {
    hide Step, Untouched, After;
    var ops := SetUp()[..4];
    var s0 := Fresh(h);
    NothingTouched(Domain);
    NothingTouched(Category);
    NothingTouched(EventName);
    NothingTouched(String);
    var s1 := Step(s0, ops[0]);
    FirstName(s0, Domain, NAME_D);
    var s2 := Step(s1, ops[1]);
    FirstName(s1, Category, NAME_C);
    var s3 := Step(s2, ops[2]);
    FirstName(s2, EventName, NAME_E);
    var s4 := Step(s3, ops[3]);
    FirstName(s3, String, NAME_S);
    FourSteps(s0, ops);
  }

  lemma AfterFirst(s: WriterState, ops: seq<Op>)
    ensures After(s, ops) == if ops == [] then s else After(Step(s, ops[0]), ops[1..])
  {
    hide Step;
  }

  lemma FourSteps(s: WriterState, ops: seq<Op>)
    requires |ops| == 4
    ensures After(s, ops) == Step(Step(Step(Step(s, ops[0]), ops[1]), ops[2]), ops[3])
  {
    hide Step, After;
    var s1 := Step(s, ops[0]);
    var s2 := Step(s1, ops[1]);
    var s3 := Step(s2, ops[2]);
    AfterFirst(s, ops);
    AfterFirst(s1, ops[1..]);
    AfterFirst(s2, ops[2..]);
    AfterFirst(s3, ops[3..]);
    AfterFirst(Step(s3, ops[3]), []);
    assert ops[1..][1..] == ops[2..] && ops[2..][1..] == ops[3..] && ops[3..][1..] == [];
  }

  lemma {:induction false} SmallEntriesSeal(es: seq<DictEntry>)
    requires forall i | 0 <= i < |es| :: |es[i].name| == 1
    ensures EncodeAll(es).Ok? && EntriesSize(es) == 4 + 8 * |es|
    decreases |es|
  {
    hide LE32, LE16;
    if es != [] {
      var front, last := es[..|es| - 1], es[|es| - 1];
      assert es == front + [last];
      SmallEntriesSeal(front);
      AllAppend(front, last);
    }
  }

  /** Flushing names alone leaves nothing pending and no events on file. */
  lemma NamesFlushed(s: WriterState)
    requires Inv(s) && !s.finished && Within(s, 4) && !Stuck(s) && s.log == [] && s.pendingEvents == []
               && s.nextEvent == 1
    ensures var t := Flushing(s).0;
            && Inv(t) && !t.finished && t.header == s.header && t.names == s.names && t.pendingDict == []
                 && t.pendingEvents == []
            && t.nextEvent == 1 && FiledEvents(t.log) == []
  {
    assert FiledEvents(s.log) == [];
    hide Flushing, Inv, Stuck, FiledEvents;
    FlushFailsIff(s);
    NoneWraps(s);
    FlushKeeps(s);
    FlushFrame(s);
    assert FiledEvents(Flushing(s).0.log) + [] == FiledEvents(Flushing(s).0.log);
  }

  lemma FrontLength()
    ensures |SetUp()[..4]| == 4
  {
  }

  lemma NoneWraps(s: WriterState)
    requires s.pendingEvents == []
    ensures !FlushWraps(s) && |s.pendingEvents| < TWO_32
  {
    NoRecords();
  }

  lemma SetUpRoom(h: Header.Laid)
    ensures RoomForAll(Fresh(h), SetUp()[..4]) && Within(After(Fresh(h), SetUp()[..4]), 4)
  {
    var ops := SetUp()[..4];
    assert forall op <- ops :: ShortOp(op);
    hide Step, SetUp, Short, ShortOp;
    assert |ops| == 4 by { FrontLength(); }
    CountsSuffice(Fresh(h), ops, 0);
    FourSteps(Fresh(h), ops);
    StepWithin(Fresh(h), ops[0], 0);
    var s1 := Step(Fresh(h), ops[0]);
    StepWithin(s1, ops[1], 1);
    StepWithin(Step(s1, ops[1]), ops[2], 2);
    StepWithin(Step(Step(s1, ops[1]), ops[2]), ops[3], 3);
  }

  lemma SetUpSplit(h: Header.Laid)
    ensures After(Fresh(h), SetUp()) == Flushing(After(Fresh(h), SetUp()[..4])).0
  {
    hide Flushing, Interning, Interned, Appending, Step;
    var front := SetUp()[..4];
    assert SetUp() == front + [FlushOp];
    RoomJoined(Fresh(h), front, [FlushOp]);
    var s := After(Fresh(h), front);
    AfterFirst(s, [FlushOp]);
    AfterFirst(Step(s, FlushOp), []);
    assert [FlushOp][1..] == [];
    FlushStep(s);
  }

  lemma FlushStep(s: WriterState)
    ensures Step(s, FlushOp) == Flushing(s).0
  {
    hide Flushing;
  }

  /** A new writer after the set-up: the four names are on file, and nothing is pending. */
  lemma SetUpIs(h: Header.Laid)
    ensures var s := After(Fresh(h), SetUp());
            && Inv(s) && !s.finished && Knows(s) && s.header == h && s.pendingDict == [] && s.pendingEvents == []
            && s.nextEvent == 1 && FiledEvents(s.log) == []
  {
    var front := SetUp()[..4];
    var s := After(Fresh(h), front);
    SetUpSplit(h);
    SetUpNames(h);
    SmallEntriesSeal(s.pendingDict);
    EmptySeals();
    assert !Stuck(s);
    hide After, EncodeAll, EntriesSize, Flushing, Inv, Stuck, SetUp, RoomForAll, Within, FiledEvents;
    SetUpRoom(h);
    NewRunKeeps(h, front);
    NamesFlushed(s);
  }

  lemma BigWraps(start: nat)
    requires start + 65_535 < TWO_64
    ensures Wraps(BigRecords(start, 65_535)) && |BigRecords(start, 65_535)| == 65_535
  {
    hide BigRecords, EncodeRecords, EventsSize;
    BigRecordsAre(start, 65_535);
  }

  /** The last append fills the buffer, and its flush meets a wrap. */
  lemma LastMeetsWrap(s: WriterState, start: nat)
    requires !s.finished && Knows(s) && s.pendingDict == [] && start + 65_535 < TWO_64 && s.nextEvent == start + 65_534
    requires s.pendingEvents == BigRecords(start, 65_534)
    ensures MeetsWrap(s, AppendOp(BigEvent()))
  {
    hide *;
    BigAppends(s, start, 65_534);
    BigWraps(start);
    FillsAndWraps(s, BigEvent(), BigRecords(start, 65_535));
  }

  lemma FillsAndWraps(s: WriterState, ev: AppendEvent, evs: seq<EventRecord>)
    requires !s.finished && s.pendingDict == [] && CheckRefs(s.names, Record(ev, s.nextEvent)).Ok?
    requires Buffered(s, ev).pendingEvents == evs && Wraps(evs) && |evs| == 65_535
    ensures MeetsWrap(s, AppendOp(ev))
  {
    EmptySeals();
    hide CheckRefs, SealsEntries, Wraps, Record;
  }

  /** From there, 65,535 appends of the largest event succeed, and the last one writes them as one chunk. */
  lemma WrapFrom(s: WriterState)
    requires !s.finished && Knows(s) && s.pendingDict == [] && s.pendingEvents == []
    requires s.nextEvent + 65_535 < TWO_64
    ensures var before := After(s, Appends(65_534));
            var (after, r) := Appending(before, BigEvent());
            && r == Ok(before.nextEvent) && before.nextEvent == s.nextEvent + 65_534
            && before.pendingEvents == BigRecords(s.nextEvent, 65_534) && MeetsWrap(before, AppendOp(BigEvent()))
            && after.log == s.log + [EventChunk(BigRecords(s.nextEvent, 65_535))]
            && after.pendingEvents == [] && after.pendingDict == [] && !after.finished && after.header == s.header
  {
    var start := s.nextEvent;
    assert BigRecords(start, 0) == [];
    Piling(s, start, 0, 65_534);
    var before := After(s, Appends(65_534));
    BigAppends(before, start, 65_534);
    LastMeetsWrap(before, start);
    BigChunkSeals(start, s.nextChunk);
    BigRecordsAre(start, 65_535);
    hide After, Appends, BigRecords, BigEvent, CheckRefs, Sealed, MeetsWrap;
    var t := Buffered(before, BigEvent());
    assert BufferFull(t);
  }

  /** With nothing pending a flush and a finish have nothing to do. */
  lemma FinishesEmpty(s: WriterState)
    requires !s.finished && s.pendingDict == [] && s.pendingEvents == []
    ensures Finishing(s).1.Ok? && File(Finishing(s).0) == File(s)
  {
    hide FileOf;
  }

  /**
   A new writer can meet a wrap: after four interned names and a flush, 65,535 appends of the largest event are all
   given their numbers and the finish succeeds, and yet the file opens with none of the events, as a torn tail. Until
   the last append the writer was stuck.
   */
  lemma WrapReachable(h: Header.Laid)
    ensures var before := After(After(Fresh(h), SetUp()), Appends(65_534));
            var (after, r) := Appending(before, BigEvent());
            && Stuck(before) && MeetsWrap(before, AppendOp(BigEvent())) && r == Ok(65_535) && Finishing(after).1.Ok?
            && var found := Opened(File(Finishing(after).0));
               found.Ok? && found.value.events == [] && found.value.tornTail
  {
    BigRecordsAre(1, 65_534);
    assert 1 + 65_535 < TWO_64;
    hide *;
    var s := After(Fresh(h), SetUp());
    SetUpIs(h);
    WrapFrom(s);
    var before := After(s, Appends(65_534));
    var after := Appending(before, BigEvent()).0;
    BigStuck(before);
    FinishesEmpty(after);
    WrapHides(s, after);
  }

  /** A wrapped chunk of the largest events hides them all. */
  lemma WrapHides(s: WriterState, t: WriterState)
    requires Inv(s) && FiledEvents(s.log) == []
    requires t.header == s.header && t.log == s.log + [EventChunk(BigRecords(1, 65_535))]
    ensures var found := Opened(File(t)); found.Ok? && found.value.events == [] && found.value.tornTail
  {
    GoodInInv(s);
    hide Inv, BigRecords, FileOf, Opened, FiledEvents, Sealed, Replay, AllSound, Sound;
    WrappedFrame(1, |s.log| + 1, s.log == []);
    TornBehind(s.header, s.log, EventChunk(BigRecords(1, 65_535)));
    ReplayIs(s.log);
  }

  lemma BigStuck(s: WriterState)
    requires EventsSize(s.pendingEvents) == 4 + 65_575 * 65_534
    ensures Stuck(s)
  {
    hide EventsSize;
  }

  lemma GoodInInv(s: WriterState)
    requires Inv(s)
    ensures Good(s.log) && s.nextChunk == |s.log| + 1
  {
  }
}
