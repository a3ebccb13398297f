/** What holds in every state a writer can reach, over whole runs, and of the files it leaves behind. */
module WriterTheorems {
  import opened Wrappers
  import opened Bytes
  import opened Format
  import opened Utf8
  import opened Dict
  import opened Payload
  import opened Event
  import opened Reader
  import opened Recovery
  import opened Journal
  import opened Writer
  import Chunk
  import Header

  // ---- Sizes a caller can know ----

  function BodySize(v: Value): nat {
    if v.Blob? then 4 + |v.bytes| else Width(Tag(v))
  }

  function FieldsSize(fs: seq<Field>): nat {
    if fs == [] then 0 else 6 + BodySize(fs[0].value) + FieldsSize(fs[1..])
  }

  /** Bytes a record takes once encoded. */
  function RecordSize(ev: EventRecord): nat { RECORD_HEADER + 2 + FieldsSize(ev.payload.fields) }

  function EventsSize(evs: seq<EventRecord>): nat {
    if evs == [] then 4 else EventsSize(evs[..|evs| - 1]) + RecordSize(evs[|evs| - 1])
  }

  function EntriesSize(es: seq<DictEntry>): nat {
    if es == [] then 4 else EntriesSize(es[..|es| - 1]) + 7 + |es[|es| - 1].name|
  }

  lemma {:induction false} FieldsSizeIs(fs: seq<Field>)
    requires EncodeFields(fs).Ok?
    ensures |EncodeFields(fs).value| == FieldsSize(fs)
  {
    if fs != [] {
      BodySizeIs(fs[0].value);
      FieldsSizeIs(fs[1..]);
    }
  }

  lemma BodySizeIs(v: Value)
    requires ValueFits(v)
    ensures |Body(v)| == BodySize(v)
  {
  }

  lemma RecordSizeIs(ev: EventRecord)
    requires EncodeRecord(ev).Ok?
    ensures |EncodeRecord(ev).value| == RecordSize(ev)
  {
    hide RecordHeader;
    FieldsSizeIs(ev.payload.fields);
  }

  lemma {:induction false} RecordsAppend(evs: seq<EventRecord>, ev: EventRecord)
    ensures EncodeRecords(evs + [ev]).Ok? <==> EncodeRecords(evs).Ok? && EncodeRecord(ev).Ok?
    ensures EncodeRecords(evs + [ev]).Ok? ==>
              EncodeRecords(evs + [ev]).value == EncodeRecords(evs).value + EncodeRecord(ev).value
    decreases |evs|
  {
    hide EncodeRecord;
    if evs == [] {
      assert evs + [ev] == [ev] && [ev][1..] == [];
    } else {
      assert (evs + [ev])[1..] == evs[1..] + [ev];
      RecordsAppend(evs[1..], ev);
    }
  }

  lemma {:induction false} EventsSizeIs(evs: seq<EventRecord>)
    requires EncodeRecords(evs).Ok?
    ensures 4 + |EncodeRecords(evs).value| == EventsSize(evs)
    decreases |evs|
  {
    hide EncodeRecord;
    if evs != [] {
      var front, last := evs[..|evs| - 1], evs[|evs| - 1];
      assert evs == front + [last];
      RecordsAppend(front, last);
      EventsSizeIs(front);
      RecordSizeIs(last);
    }
  }

  lemma {:induction false} AllAppend(es: seq<DictEntry>, e: DictEntry)
    ensures EncodeAll(es + [e]).Ok? <==> EncodeAll(es).Ok? && EncodeEntry(e).Ok?
    ensures EncodeAll(es + [e]).Ok? ==> EncodeAll(es + [e]).value == EncodeAll(es).value + EncodeEntry(e).value
    decreases |es|
  {
    hide EncodeEntry;
    if es == [] {
      assert es + [e] == [e] && [e][1..] == [];
    } else {
      assert (es + [e])[1..] == es[1..] + [e];
      AllAppend(es[1..], e);
    }
  }

  lemma {:induction false} EntriesSizeIs(es: seq<DictEntry>)
    requires EncodeAll(es).Ok?
    ensures 4 + |EncodeAll(es).value| == EntriesSize(es)
    decreases |es|
  {
    if es != [] {
      var front, last := es[..|es| - 1], es[|es| - 1];
      assert es == front + [last];
      AllAppend(front, last);
      EntriesSizeIs(front);
    }
  }

  // ---- Which chunks seal, and that growing never helps ----

  predicate SealsEntries(es: seq<DictEntry>) {
    |es| <= MAX_DICT_ENTRIES && EncodeAll(es).Ok? && EntriesSize(es) <= MAX_CHUNK_PAYLOAD
  }

  predicate SealsEvents(evs: seq<EventRecord>) {
    |evs| <= MAX_EVENTS_PER_CHUNK && EncodeRecords(evs).Ok? && EventsSize(evs) <= MAX_CHUNK_PAYLOAD
  }

  lemma CommittedIff(chunkType: u16, n: u64, payload: seq<byte>)
    ensures Chunk.Committed(chunkType, n, payload).Ok? <==> |payload| % TWO_32 <= MAX_CHUNK_PAYLOAD
  {
  }

  lemma {:induction false} EntriesSizeBound(es: seq<DictEntry>)
    requires EncodeAll(es).Ok?
    ensures EntriesSize(es) <= 4 + 1031 * |es|
    decreases |es|
  {
    if es != [] {
      var front, last := es[..|es| - 1], es[|es| - 1];
      assert es == front + [last];
      AllAppend(front, last);
      EntriesSizeBound(front);
    }
  }

  /** Events that seal under a length field that has wrapped: their size is 2^32 or more, but not modulo 2^32. */
  predicate Wraps(evs: seq<EventRecord>) {
    && |evs| <= MAX_EVENTS_PER_CHUNK && EncodeRecords(evs).Ok?
    && EventsSize(evs) >= TWO_32 && EventsSize(evs) % TWO_32 <= MAX_CHUNK_PAYLOAD
  }

  lemma EntriesSealIff(es: seq<DictEntry>, n: u64)
    requires |es| < TWO_32
    ensures Sealed(EntryChunk(es), n).Ok? <==> SealsEntries(es)
    ensures SealsEntries(es) <==> Sound(EntryChunk(es))
  {
    hide Chunk.Committed, EncodeAll, EntriesSize, LE32;
    if EncodeAll(es).Ok? {
      EntriesSizeBound(es);
      EntriesSizeIs(es);
    }
    if EncodedEntries(es).Ok? {
      CommittedIff(CHUNK_TYPE_DICTIONARY, n, EncodedEntries(es).value);
    }
  }

  lemma EventsSealIff(evs: seq<EventRecord>, n: u64)
    requires |evs| < TWO_32
    ensures Sealed(EventChunk(evs), n).Ok? <==> SealsEvents(evs) || Wraps(evs)
    ensures SealsEvents(evs) <==> Sound(EventChunk(evs))
  {
    hide Chunk.Committed, EncodeRecords, EventsSize, LE32;
    if EncodeRecords(evs).Ok? {
      EventsSizeIs(evs);
    }
    if EncodeEvents(evs).Ok? {
      CommittedIff(CHUNK_TYPE_EVENT, n, EncodeEvents(evs).value);
    }
  }

  lemma EmptySeals()
    ensures SealsEntries([]) && SealsEvents([])
  {
  }

  lemma GrowingNeverHelps(es: seq<DictEntry>, e: DictEntry, evs: seq<EventRecord>, ev: EventRecord)
    ensures SealsEntries(es + [e]) ==> SealsEntries(es)
    ensures SealsEvents(evs + [ev]) ==> SealsEvents(evs)
  {
    hide EncodeEntry, EncodeRecord;
    assert (es + [e])[..|es|] == es && (evs + [ev])[..|evs|] == evs;
    AllAppend(es, e);
    RecordsAppend(evs, ev);
  }

  // ---- What the chunks of a log hold ----

  function EntriesOf(c: LogChunk): seq<DictEntry> { if c.EntryChunk? then c.entries else [] }
  function EventsOf(c: LogChunk): seq<EventRecord> { if c.EventChunk? then c.events else [] }

  /** All entries written, in order. */
  function FiledEntries(log: seq<LogChunk>): seq<DictEntry> {
    if log == [] then [] else FiledEntries(log[..|log| - 1]) + EntriesOf(log[|log| - 1])
  }

  /** All events written, in order. */
  function FiledEvents(log: seq<LogChunk>): seq<EventRecord> {
    if log == [] then [] else FiledEvents(log[..|log| - 1]) + EventsOf(log[|log| - 1])
  }

  lemma FiledAppend(log: seq<LogChunk>, c: LogChunk)
    ensures FiledEntries(log + [c]) == FiledEntries(log) + EntriesOf(c)
    ensures FiledEvents(log + [c]) == FiledEvents(log) + EventsOf(c)
  {
    assert (log + [c])[..|log|] == log;
  }

  /** Replaying a log is inserting its entries and collecting its events. */
  lemma {:induction false} ReplayIs(log: seq<LogChunk>)
    requires Replay(NOTHING, log).Ok?
    ensures AllInserted(NO_NAMES, FiledEntries(log)) == Ok(Replay(NOTHING, log).value.names)
    ensures Replay(NOTHING, log).value.events == FiledEvents(log)
    decreases |log|
  {
    hide AllInserted, CheckEvents, Replay;
    if log == [] {
      ReplayNone();
    } else {
      var front, last := log[..|log| - 1], log[|log| - 1];
      assert log == front + [last];
      ReplayAppend(NOTHING, front, last);
      ReplayIs(front);
      FiledAppend(front, last);
      if last.EntryChunk? {
        InsertedConcat(NO_NAMES, FiledEntries(front), last.entries);
        assert FiledEvents(front) + [] == FiledEvents(front);
      } else {
        assert FiledEntries(front) + [] == FiledEntries(front);
      }
    }
  }

  lemma ReplayNone()
    ensures Replay(NOTHING, []) == Ok(NOTHING) && AllInserted(NO_NAMES, []) == Ok(NO_NAMES)
  {
  }

  // ---- The invariant ----

  /**
   The file is a header and good chunks numbered 1 up to `nextChunk - 1`; the entries written and pending are the
   dictionary, with ids 1..m per kind; the events written and pending are numbered 1 up to `nextEvent - 1` and
   refer only to interned names.
   */
  ghost predicate Inv(s: WriterState) {
    && Good(s.log)
    && s.nextChunk == |s.log| + 1
    && HoldsInterned(s.names, FiledEntries(s.log) + s.pendingDict)
    && InOrder(s.names, FiledEvents(s.log) + s.pendingEvents, 1)
    && s.nextEvent == |FiledEvents(s.log)| + |s.pendingEvents| + 1
    && s.synced <= |s.log|
    && |s.pendingDict| < TWO_32
    && |s.pendingEvents| < TWO_32
  }

  lemma FreshInv(h: Header.Laid)
    ensures Inv(Fresh(h))
  {
  }

  /** One more sound chunk that replays keeps the log good. */
  lemma GoodAppend(log: seq<LogChunk>, c: LogChunk)
    requires Good(log) && Sound(c) && |log| + 1 < TWO_64
    requires ApplyChunk(Replay(NOTHING, log).value, c).Ok?
    ensures Good(log + [c])
  {
    hide Sound, Replay, ApplyChunk;
    ReplayAppend(NOTHING, log, c);
  }

  /** The pending entries, once sealed, replay behind the log. */
  lemma PendingEntriesReplay(s: WriterState)
    requires Inv(s) && s.nextChunk < TWO_64 - 1 && SealsEntries(s.pendingDict)
    ensures Good(s.log + [EntryChunk(s.pendingDict)])
  {
    var c := EntryChunk(s.pendingDict);
    EntriesSealIff(s.pendingDict, s.nextChunk);
    ReplayIs(s.log);
    InsertedConcat(NO_NAMES, FiledEntries(s.log), s.pendingDict);
    hide Sound, Replay, AllInserted, InOrder, MutuallyInverse, Numbered, FiledEntries, FiledEvents;
    GoodAppend(s.log, c);
  }

  /** With every entry written, the pending events, once sealed, replay behind the log. */
  lemma PendingEventsReplay(s: WriterState)
    requires Inv(s) && s.nextChunk < TWO_64 - 1 && s.pendingDict == [] && SealsEvents(s.pendingEvents)
    ensures Good(s.log + [EventChunk(s.pendingEvents)])
  {
    var c := EventChunk(s.pendingEvents);
    EventsSealIff(s.pendingEvents, s.nextChunk);
    ReplayIs(s.log);
    assert FiledEntries(s.log) + [] == FiledEntries(s.log);
    hide Sound, Replay, AllInserted, MutuallyInverse, Numbered, FiledEntries, FiledEvents, CheckEvents, Resolves;
    var st := Replay(NOTHING, s.log).value;
    SameNamesInOrder(s.names, st.names, FiledEvents(s.log), s.pendingEvents);
    CheckEventsIff(st.names, s.pendingEvents, |st.events| + 1);
    GoodAppend(s.log, c);
  }

  lemma SameNamesInOrder(d: Names, e: Names, before: seq<EventRecord>, evs: seq<EventRecord>)
    requires SameNames(e, d) && InOrder(d, before + evs, 1)
    ensures InOrder(e, evs, |before| + 1)
  {
    var all := before + evs;
    forall i | 0 <= i < |evs|
      ensures evs[i].sequence == |before| + 1 + i && Resolves(e, evs[i])
    {
      assert evs[i] == all[|before| + i];
    }
  }

  lemma SealEntriesIs(s: WriterState)
    requires s.pendingDict != [] && SealingEntries(s).Ok? && |s.pendingDict| < TWO_32 && s.nextChunk < TWO_64 - 1
    ensures SealsEntries(s.pendingDict)
    ensures SealingEntries(s).value ==
            s.(log := s.log + [EntryChunk(s.pendingDict)], nextChunk := s.nextChunk + 1, pendingDict := [])
  {
    hide Sealed, SealsEntries, Sound;
    EntriesSealIff(s.pendingDict, s.nextChunk);
  }

  lemma SealEventsIs(s: WriterState)
    requires s.pendingEvents != [] && SealingEvents(s).Ok? && !Wraps(s.pendingEvents)
    requires |s.pendingEvents| < TWO_32 && s.nextChunk < TWO_64 - 1
    ensures SealsEvents(s.pendingEvents)
    ensures SealingEvents(s).value ==
            s.(log := s.log + [EventChunk(s.pendingEvents)], nextChunk := s.nextChunk + 1, pendingEvents := [])
  {
    hide Sealed, SealsEvents, Sound;
    EventsSealIff(s.pendingEvents, s.nextChunk);
  }

  /** Moving what is pending into a further chunk keeps the invariant. */
  lemma MovedKeeps(s: WriterState, t: WriterState)
    requires Inv(s) && Good(t.log) && t.nextChunk == |t.log| + 1 && t.synced == s.synced && |s.log| <= |t.log|
    requires t.header == s.header && t.names == s.names && t.nextEvent == s.nextEvent
    requires FiledEntries(t.log) + t.pendingDict == FiledEntries(s.log) + s.pendingDict
    requires FiledEvents(t.log) + t.pendingEvents == FiledEvents(s.log) + s.pendingEvents
    requires |t.pendingDict| < TWO_32 && |t.pendingEvents| < TWO_32
    ensures Inv(t)
  {
    hide Good, InOrder, HoldsInterned, FiledEntries, FiledEvents;
    assert |FiledEvents(t.log)| + |t.pendingEvents| == |FiledEvents(t.log) + t.pendingEvents|;
  }

  lemma SealEntriesKeeps(s: WriterState)
    requires Inv(s) && s.nextChunk < TWO_64 - 1 && SealingEntries(s).Ok?
    ensures var t := SealingEntries(s).value;
            Inv(t) && t.pendingDict == [] && t.nextChunk <= s.nextChunk + 1 && s.log <= t.log
  {
    if s.pendingDict != [] {
      SealEntriesIs(s);
      PendingEntriesReplay(s);
      var t := SealingEntries(s).value;
      hide SealingEntries, Good, InOrder, HoldsInterned, FiledEntries, FiledEvents, SealsEntries;
      FiledAppend(s.log, EntryChunk(s.pendingDict));
      assert FiledEntries(t.log) + [] == FiledEntries(t.log);
      assert FiledEvents(t.log) == FiledEvents(s.log);
      MovedKeeps(s, t);
    }
  }

  lemma SealEventsKeeps(s: WriterState)
    requires Inv(s) && s.nextChunk < TWO_64 - 1 && s.pendingDict == []
    requires SealingEvents(s).Ok? && !Wraps(s.pendingEvents)
    ensures var t := SealingEvents(s).value;
            Inv(t) && t.pendingDict == [] && t.pendingEvents == [] && s.log <= t.log
  {
    if s.pendingEvents != [] {
      SealEventsIs(s);
      PendingEventsReplay(s);
      var t := SealingEvents(s).value;
      hide SealingEvents, Good, InOrder, HoldsInterned, FiledEntries, FiledEvents, SealsEvents;
      FiledAppend(s.log, EventChunk(s.pendingEvents));
      assert FiledEntries(t.log) == FiledEntries(s.log);
      assert FiledEvents(t.log) + [] == FiledEvents(t.log);
      MovedKeeps(s, t);
    }
  }

  /** A flush of this state would write events under a wrapped length field. */
  predicate FlushWraps(s: WriterState) {
    !s.finished && SealsEntries(s.pendingDict) && Wraps(s.pendingEvents)
  }

  lemma FlushKeeps(s: WriterState)
    requires Inv(s) && s.nextChunk < TWO_64 - 2 && !FlushWraps(s)
    ensures Inv(Flushing(s).0) && s.log <= Flushing(s).0.log && s.synced <= Flushing(s).0.synced
    ensures Flushing(s).0.nextEvent == s.nextEvent && Flushing(s).0.names == s.names
    ensures var t := Flushing(s).0; FiledEvents(t.log) + t.pendingEvents == FiledEvents(s.log) + s.pendingEvents
    ensures Flushing(s).1.Ok? ==>
              var t := Flushing(s).0; t.pendingDict == [] && t.pendingEvents == [] && t.synced == |t.log|
  {
    hide Sealed, Replay, AllInserted, InOrder, HoldsInterned, FiledEntries, FiledEvents, Good, SealsEntries, Wraps;
    if !s.finished && SealingEntries(s).Ok? {
      SealEntriesKeeps(s);
      var t := SealingEntries(s).value;
      if s.pendingDict != [] {
        SealEntriesIs(s);
      } else {
        EmptySeals();
      }
      SealKeepsEvents(s, t);
      if SealingEvents(t).Ok? {
        SealEventsKeeps(t);
        SealKeepsEvents(t, SealingEvents(t).value);
      }
    }
  }

  lemma SealKeepsEvents(s: WriterState, t: WriterState)
    requires SealingEntries(s) == Ok(t) || SealingEvents(s) == Ok(t)
    ensures FiledEvents(t.log) + t.pendingEvents == FiledEvents(s.log) + s.pendingEvents
  {
    hide Sealed, FiledEvents;
    if t != s {
      var c := t.log[|s.log|];
      FiledAppend(s.log, c);
      assert t.log == s.log + [c];
      if c.EventChunk? {
        assert FiledEvents(s.log) + s.pendingEvents + [] == FiledEvents(s.log) + s.pendingEvents;
      } else {
        assert FiledEvents(s.log) + [] == FiledEvents(s.log);
      }
    }
  }

  // ---- Operations keep the invariant ----

  lemma InterningIs(s: WriterState, kind: DictKind, name: Text)
    requires !s.finished
    ensures Interning(s, kind, name).0 ==
            s.(names := Interned(s.names, kind, name).0, pendingDict := s.pendingDict + NewEntries(s.names, kind, name))
  {
    assert s.pendingDict + [] == s.pendingDict;
  }

  lemma InternKeeps(s: WriterState, kind: DictKind, name: Text)
    requires Inv(s) && |s.pendingDict| < TWO_32 - 1
    ensures Inv(Interning(s, kind, name).0)
  {
    if !s.finished {
      InterningIs(s, kind, name);
      InternEffect(s.names, kind, name);
      InternStable(s.names, kind, name);
      hide Interned, NewEntries, Interning, Good, InOrder, HoldsInterned, FiledEntries, FiledEvents;
      var t := Interning(s, kind, name).0;
      var added := NewEntries(s.names, kind, name);
      InternKeepsOrder(s.names, FiledEntries(s.log) + s.pendingDict, kind, name);
      assert FiledEntries(s.log) + s.pendingDict + added == FiledEntries(t.log) + t.pendingDict;
      InOrderExtends(s.names, t.names, FiledEvents(s.log) + s.pendingEvents, 1);
      assert |added| <= 1;
    }
  }

  lemma BufferKeeps(s: WriterState, ev: AppendEvent)
    requires Inv(s) && s.nextEvent < TWO_64 - 1 && CheckRefs(s.names, Record(ev, s.nextEvent)).Ok?
    requires |s.pendingEvents| < TWO_32 - 1
    ensures Inv(Buffered(s, ev))
  {
    hide CheckRefs, Good, HoldsInterned, FiledEntries, FiledEvents, Resolves;
    var t, rec := Buffered(s, ev), Record(ev, s.nextEvent);
    CheckRefsIff(s.names, rec);
    var before, all := FiledEvents(s.log) + s.pendingEvents, FiledEvents(s.log) + t.pendingEvents;
    forall i | 0 <= i < |all|
      ensures all[i].sequence == 1 + i && Resolves(s.names, all[i])
    {
      assert i < |before| ==> all[i] == before[i];
    }
  }

  // ---- Runs ----

  datatype Op = InternOp(kind: DictKind, name: Text) | AppendOp(ev: AppendEvent) | FlushOp

  function Step(s: WriterState, op: Op): WriterState {
    match op
    case InternOp(kind, name) => Interning(s, kind, name).0
    case AppendOp(ev) => Appending(s, ev).0
    case FlushOp => Flushing(s).0
  }

  /** The counters, and the counts of what is pending, have not run out. */
  predicate Counted(s: WriterState, op: Op) {
    && s.nextChunk < TWO_64 - 2 && s.nextEvent < TWO_64 - 1
    && (op.InternOp? ==> |s.pendingDict| < TWO_32 - 1)
    && (op.AppendOp? ==> |s.pendingEvents| < TWO_32 - 1)
  }

  /** The events an operation gives a sequence number. */
  function Numbered(s: WriterState, op: Op): seq<EventRecord> {
    if op.AppendOp? && !s.finished && CheckRefs(s.names, Record(op.ev, s.nextEvent)).Ok?
    then [Record(op.ev, s.nextEvent)] else []
  }

  /** The state whose buffers an operation flushes, if it flushes: an append does when it fills the buffer. */
  function FlushedBy(s: WriterState, op: Op): Option<WriterState> {
    if op.FlushOp? then Some(s)
    else if Numbered(s, op) != [] && BufferFull(Buffered(s, op.ev)) then Some(Buffered(s, op.ev)) else None
  }

  /** The operation flushes, and writes events under a wrapped length field. */
  predicate MeetsWrap(s: WriterState, op: Op) {
    FlushedBy(s, op).Some? && FlushWraps(FlushedBy(s, op).value)
  }

  /** Room for one more operation: nothing has run out, and no length field wraps. */
  predicate Room(s: WriterState, op: Op) { Counted(s, op) && !MeetsWrap(s, op) }

  function After(s: WriterState, ops: seq<Op>): WriterState
    decreases |ops|
  {
    if ops == [] then s else After(Step(s, ops[0]), ops[1..])
  }

  predicate RoomForAll(s: WriterState, ops: seq<Op>)
    decreases |ops|
  {
    ops != [] ==> Room(s, ops[0]) && RoomForAll(Step(s, ops[0]), ops[1..])
  }

  predicate CountedForAll(s: WriterState, ops: seq<Op>)
    decreases |ops|
  {
    ops != [] ==> Counted(s, ops[0]) && CountedForAll(Step(s, ops[0]), ops[1..])
  }

  /** The events a run gave sequence numbers, in order. */
  function AllNumbered(s: WriterState, ops: seq<Op>): seq<EventRecord>
    decreases |ops|
  {
    if ops == [] then [] else Numbered(s, ops[0]) + AllNumbered(Step(s, ops[0]), ops[1..])
  }

  /** Every event the writer has taken, written or pending. */
  function Taken(s: WriterState): seq<EventRecord> {
    FiledEvents(s.log) + s.pendingEvents
  }

  lemma StepKeeps(s: WriterState, op: Op)
    requires Inv(s) && Room(s, op)
    ensures var t := Step(s, op);
            && Inv(t) && s.log <= t.log && s.synced <= t.synced
            && t.header == s.header && t.finished == s.finished
            && Taken(t) == Taken(s) + Numbered(s, op)
  {
    hide Flushing, Interned, Inv, FiledEvents, CheckRefs;
    match op
    case InternOp(kind, name) =>
      InternKeeps(s, kind, name);
      assert Taken(s) + [] == Taken(s);
    case FlushOp =>
      FlushKeeps(s);
      FlushFrame(s);
      assert Taken(s) + [] == Taken(s);
    case AppendOp(ev) =>
      if Numbered(s, op) != [] {
        BufferKeeps(s, ev);
        var t := Buffered(s, ev);
        assert Taken(t) == Taken(s) + Numbered(s, op);
        if BufferFull(t) {
          FlushKeeps(t);
          FlushFrame(t);
        }
      } else {
        assert Taken(s) + [] == Taken(s);
      }
  }

  lemma FlushFrame(s: WriterState)
    ensures Flushing(s).0.header == s.header && Flushing(s).0.finished == s.finished
  {
    hide Sealed;
  }

  /** Every state of a run with room keeps the invariant, loses no chunk and takes exactly the numbered events. */
  lemma {:induction false} RunKeeps(s: WriterState, ops: seq<Op>)
    requires Inv(s) && RoomForAll(s, ops)
    ensures var t := After(s, ops);
            && Inv(t) && s.log <= t.log && s.synced <= t.synced
            && t.header == s.header && t.finished == s.finished
            && Taken(t) == Taken(s) + AllNumbered(s, ops)
    decreases |ops|
  {
    hide Step, Inv, Taken, Room, Numbered;
    if ops == [] {
      assert Taken(s) + [] == Taken(s);
    } else {
      StepKeeps(s, ops[0]);
      var s1 := Step(s, ops[0]);
      RunKeeps(s1, ops[1..]);
      assert Taken(s) + Numbered(s, ops[0]) + AllNumbered(s1, ops[1..]) == Taken(s) + AllNumbered(s, ops);
    }
  }

  // ---- Room is exactly what a run needs ----

  /** A flush that meets a wrap succeeds, and leaves a chunk that does not read back as what it holds. */
  lemma WrapSpoils(s: WriterState)
    requires FlushWraps(s) && |s.pendingDict| < TWO_32 && |s.pendingEvents| < TWO_32
    ensures Flushing(s).1.Ok? && !AllSound(Flushing(s).0.log)
  {
    assert s.pendingEvents != [];
    EntriesSealIff(s.pendingDict, s.nextChunk);
    EventsSealIff(s.pendingEvents, s.nextChunk);
    EventsSealIff(s.pendingEvents, Next64(s.nextChunk));
    hide Sealed, Sound, SealsEntries, EncodeRecords, EventsSize;
    var c, t := EventChunk(s.pendingEvents), Flushing(s).0;
    assert t.log[|t.log| - 1] == c && c in t.log;
  }

  lemma FlushGrows(s: WriterState)
    ensures s.log <= Flushing(s).0.log
  {
    hide Sealed;
  }

  lemma StepGrows(s: WriterState, op: Op)
    ensures s.log <= Step(s, op).log
  {
    hide Flushing, Interned, CheckRefs;
    match op
    case InternOp(_, _) =>
    case AppendOp(ev) => FlushGrows(Buffered(s, ev));
    case FlushOp => FlushGrows(s);
  }

  lemma {:induction false} RunGrows(s: WriterState, ops: seq<Op>)
    ensures s.log <= After(s, ops).log
    decreases |ops|
  {
    hide Step;
    if ops != [] {
      StepGrows(s, ops[0]);
      RunGrows(Step(s, ops[0]), ops[1..]);
    }
  }

  lemma FlushedByStep(s: WriterState, op: Op)
    requires FlushedBy(s, op).Some?
    ensures Step(s, op) == Flushing(FlushedBy(s, op).value).0
  {
    hide Flushing, CheckRefs;
  }

  lemma MetWrapSpoils(s: WriterState, op: Op)
    requires Inv(s) && Counted(s, op) && MeetsWrap(s, op)
    ensures Flushing(FlushedBy(s, op).value).1.Ok? && !AllSound(Step(s, op).log)
  {
    FlushedByStep(s, op);
    WrapSpoils(FlushedBy(s, op).value);
    hide Flushing, Step, CheckRefs, AllSound, Wraps, SealsEntries, Good, InOrder, HoldsInterned;
  }

  /** A run that does not run out of counters keeps the invariant if and only if no flush of it meets a wrap. */
  lemma {:induction false} RunKeepsIff(s: WriterState, ops: seq<Op>)
    requires Inv(s) && CountedForAll(s, ops)
    ensures Inv(After(s, ops)) <==> RoomForAll(s, ops)
    decreases |ops|
  {
    if ops != [] {
      var t := Step(s, ops[0]);
      hide Step, MeetsWrap, Counted, FlushedBy, Inv;
      if MeetsWrap(s, ops[0]) {
        MetWrapSpoils(s, ops[0]);
        RunGrows(t, ops[1..]);
        UnsoundBehind(t, After(t, ops[1..]));
      } else {
        StepKeeps(s, ops[0]);
        RunKeepsIff(t, ops[1..]);
      }
    }
  }

  lemma UnsoundBehind(s: WriterState, t: WriterState)
    requires !AllSound(s.log) && s.log <= t.log
    ensures !Inv(t)
  {
    hide Sound, Replay, InOrder, HoldsInterned;
  }

  lemma {:induction false} RoomJoined(s: WriterState, a: seq<Op>, b: seq<Op>)
    ensures RoomForAll(s, a + b) <==> RoomForAll(s, a) && RoomForAll(After(s, a), b)
    ensures After(s, a + b) == After(After(s, a), b)
    decreases |a|
  {
    hide Step, Room;
    if a == [] {
      assert a + b == b;
    } else {
      assert (a + b)[1..] == a[1..] + b;
      RoomJoined(Step(s, a[0]), a[1..], b);
    }
  }

  /** Every run with room on a new writer keeps the invariant and takes exactly the events it numbers. */
  lemma NewRunKeeps(h: Header.Laid, ops: seq<Op>)
    requires RoomForAll(Fresh(h), ops)
    ensures var s := After(Fresh(h), ops);
            && Inv(s) && !s.finished && s.header == h
            && Taken(s) == AllNumbered(Fresh(h), ops)
  {
    FreshInv(h);
    assert Taken(Fresh(h)) == [];
    hide Inv, After, Taken, AllNumbered, RoomForAll;
    RunKeeps(Fresh(h), ops);
    assert [] + AllNumbered(Fresh(h), ops) == AllNumbered(Fresh(h), ops);
  }

  // ---- When a run has room ----

  /** What `n` operations on a new writer can have used up at most. */
  predicate Within(s: WriterState, n: nat) {
    s.nextChunk <= 1 + 2 * n && s.nextEvent <= 1 + n && |s.pendingDict| <= n && |s.pendingEvents| <= n
  }

  lemma FlushWithin(s: WriterState)
    ensures var t := Flushing(s).0;
            && t.nextChunk <= s.nextChunk + 2 && t.nextEvent == s.nextEvent
            && |t.pendingDict| <= |s.pendingDict| && (t.pendingEvents == s.pendingEvents || t.pendingEvents == [])
  {
    hide Sealed;
  }

  /** What one operation can use up. */
  lemma StepSpends(s: WriterState, op: Op)
    ensures var t := Step(s, op);
            && t.nextChunk <= s.nextChunk + 2 && t.nextEvent <= s.nextEvent + 1
            && |t.pendingDict| <= |s.pendingDict| + 1 && |t.pendingEvents| <= |s.pendingEvents| + 1
  {
    hide Flushing, Interned, CheckRefs;
    match op
    case InternOp(_, _) =>
    case AppendOp(ev) => FlushWithin(Buffered(s, ev));
    case FlushOp => FlushWithin(s);
  }

  lemma StepWithin(s: WriterState, op: Op, n: nat)
    requires Within(s, n)
    ensures Within(Step(s, op), n + 1)
  {
    StepSpends(s, op);
    hide Step;
  }

  /** What an operation leaves of the pending events: those there were, those and the one it numbers, or none. */
  lemma StepPending(s: WriterState, op: Op)
    ensures Step(s, op).pendingEvents in {s.pendingEvents, s.pendingEvents + Numbered(s, op), []}
  {
    hide Flushing, Interned, CheckRefs;
    match op
    case InternOp(_, _) =>
    case AppendOp(ev) => FlushWithin(Buffered(s, ev));
    case FlushOp => FlushWithin(s);
  }

  /** A payload that no event can carry, or one of at most 65,496 bytes: 65,535 such records stay below 2^32. */
  predicate Short(p: TypedPayload) {
    EncodePayload(p).Ok? && |EncodePayload(p).value| <= MAX_EVENT_PAYLOAD ==> |EncodePayload(p).value| <= 65_496
  }

  predicate ShortOp(op: Op) { op.AppendOp? ==> Short(op.ev.payload) }

  predicate ShortPending(s: WriterState) {
    forall ev <- s.pendingEvents :: Short(ev.payload)
  }

  lemma OneFieldShort(p: TypedPayload)
    requires |p.fields| == 1
    ensures Short(p)
  {
    FieldsEncodeIff(p.fields);
    hide EncodeFields, LE16;
  }

  lemma ShortRecord(ev: EventRecord)
    requires Short(ev.payload) && EncodeRecord(ev).Ok?
    ensures RecordSize(ev) <= 65_536
  {
    PayloadEncodesIff(ev.payload);
    RecordSizeIs(ev);
    hide EncodePayload, RecordSize, RecordHeader;
  }

  lemma {:induction false} ShortSize(evs: seq<EventRecord>)
    requires EncodeRecords(evs).Ok? && forall ev <- evs :: Short(ev.payload)
    ensures EventsSize(evs) <= 4 + 65_536 * |evs|
    decreases |evs|
  {
    hide EncodeRecord, RecordSize, Short;
    if evs != [] {
      var front, last := evs[..|evs| - 1], evs[|evs| - 1];
      assert evs == front + [last] && last in evs && forall ev <- front :: ev in evs;
      RecordsAppend(front, last);
      ShortSize(front);
      ShortRecord(last);
    }
  }

  lemma ShortNeverWraps(s: WriterState)
    requires ShortPending(s)
    ensures !FlushWraps(s)
  {
    hide EncodeRecords, EventsSize, Short;
    if Wraps(s.pendingEvents) {
      ShortSize(s.pendingEvents);
    }
  }

  lemma BufferedShort(s: WriterState, ev: AppendEvent)
    requires ShortPending(s) && Short(ev.payload)
    ensures ShortPending(Buffered(s, ev))
  {
    hide Short;
  }

  /** Short events among short ones never meet a wrap. */
  lemma ShortRoom(s: WriterState, op: Op)
    requires Counted(s, op) && ShortPending(s) && ShortOp(op)
    ensures Room(s, op) && ShortPending(Step(s, op))
  {
    StepPending(s, op);
    ShortNeverWraps(s);
    if op.AppendOp? {
      BufferedShort(s, op.ev);
      ShortNeverWraps(Buffered(s, op.ev));
    }
    hide Step, FlushWraps, CheckRefs, Short;
  }

  /** Fewer operations, after `n` earlier ones, than 32 bits count, and every event appended is short. */
  predicate Countable(ops: seq<Op>, n: nat) {
    n + |ops| < TWO_32 - 1 && forall op <- ops :: ShortOp(op)
  }

  /** Countable runs have room all along. */
  lemma {:induction false} CountsSuffice(s: WriterState, ops: seq<Op>, n: nat)
    requires Within(s, n) && ShortPending(s) && Countable(ops, n)
    ensures RoomForAll(s, ops)
    decreases |ops|
  {
    hide Step, ShortOp, ShortPending, MeetsWrap;
    if ops != [] {
      ShortRoom(s, ops[0]);
      StepWithin(s, ops[0], n);
      CountsSuffice(Step(s, ops[0]), ops[1..], n + 1);
    }
  }

  /** Bytes of the records a run can append. */
  function AppendedSize(ops: seq<Op>): nat {
    if ops == [] then 0
    else (if ops[0].AppendOp? then RecordSize(Record(ops[0].ev, 0)) else 0) + AppendedSize(ops[1..])
  }

  /** Events that together stay below 2^32 bytes never meet a wrap. */
  lemma SmallRoom(s: WriterState, op: Op)
    requires Counted(s, op) && EventsSize(s.pendingEvents) + AppendedSize([op]) < TWO_32
    ensures Room(s, op) && EventsSize(Step(s, op).pendingEvents) <= EventsSize(s.pendingEvents) + AppendedSize([op])
  {
    hide Step, CheckRefs, RecordSize, SealsEntries, EncodeRecords;
    StepPending(s, op);
    assert s.pendingEvents + [] == s.pendingEvents;
    if op.AppendOp? {
      var t := Buffered(s, op.ev);
      assert t.pendingEvents[..|s.pendingEvents|] == s.pendingEvents;
      SameSize(op.ev, s.nextEvent);
      assert AppendedSize([op]) == RecordSize(Record(op.ev, 0));
    }
    SizeAtLeast(s.pendingEvents);
  }

  lemma SameSize(ev: AppendEvent, n: u64)
    ensures RecordSize(Record(ev, n)) == RecordSize(Record(ev, 0))
  {
  }

  lemma {:induction false} SizeAtLeast(evs: seq<EventRecord>)
    ensures EventsSize(evs) >= EventsSize([]) == 4
    decreases |evs|
  {
    hide RecordSize;
    if evs != [] {
      SizeAtLeast(evs[..|evs| - 1]);
    }
  }

  /** A run on a new writer that appends fewer than 2^32 - 4 bytes of records, of any lengths, has room all along. */
  lemma {:induction false} BytesSuffice(s: WriterState, ops: seq<Op>, n: nat)
    requires Within(s, n) && n + |ops| < TWO_32 - 1 && EventsSize(s.pendingEvents) + AppendedSize(ops) < TWO_32
    ensures RoomForAll(s, ops)
    decreases |ops|
  {
    hide Step, MeetsWrap, RecordSize, EventsSize;
    if ops != [] {
      assert AppendedSize(ops) == AppendedSize([ops[0]]) + AppendedSize(ops[1..]);
      SmallRoom(s, ops[0]);
      StepWithin(s, ops[0], n);
      BytesSuffice(Step(s, ops[0]), ops[1..], n + 1);
    }
  }

  // ---- A failed flush stays failed ----

  /** Something pending has no chunk that would hold it. */
  predicate Stuck(s: WriterState) {
    !SealsEntries(s.pendingDict) || !SealsEvents(s.pendingEvents)
  }

  /** Flushing fails exactly when something pending has no chunk and no length field hides it; that stays pending. */
  lemma FlushFailsIff(s: WriterState)
    requires |s.pendingDict| < TWO_32 && |s.pendingEvents| < TWO_32 && !s.finished
    ensures Flushing(s).1.Err? <==> Stuck(s) && !FlushWraps(s)
    ensures Stuck(s) && !FlushWraps(s) ==> Stuck(Flushing(s).0)
  {
    hide Sealed, Sound, EncodeAll, EncodeRecords, EventsSize, EntriesSize;
    EntriesSealIff(s.pendingDict, s.nextChunk);
    EventsSealIff(s.pendingEvents, s.nextChunk);
    EventsSealIff(s.pendingEvents, Next64(s.nextChunk));
    EmptySeals();
  }

  lemma StepKeepsStuck(s: WriterState, op: Op)
    requires Inv(s) && !s.finished && Room(s, op) && Stuck(s)
    ensures Stuck(Step(s, op))
    ensures FlushedBy(s, op).Some? ==> Flushing(FlushedBy(s, op).value).1.Err?
  {
    hide Flushing, Interned, SealsEntries, SealsEvents, CheckRefs, Good, InOrder, HoldsInterned, Wraps;
    match op
    case InternOp(kind, name) =>
      var t := Interning(s, kind, name).0;
      if t.pendingDict != s.pendingDict {
        GrowingNeverHelps(s.pendingDict, t.pendingDict[|s.pendingDict|], [], Record(NO_EVENT, 1));
      }
    case FlushOp =>
      FlushFailsIff(s);
    case AppendOp(ev) =>
      if Numbered(s, op) != [] {
        var t := Buffered(s, ev);
        GrowingNeverHelps([], DictEntry(Domain, 1, []), s.pendingEvents, Record(ev, s.nextEvent));
        FlushFailsIff(t);
      }
  }

  const NO_EVENT := AppendEvent(0, 0, 0, 0, 0, Trace, TypedPayload([]))

  /** Every flush of a run fails, also those of full buffers. */
  predicate FlushesFail(s: WriterState, ops: seq<Op>)
    decreases |ops|
  {
    ops != [] ==>
      && (FlushedBy(s, ops[0]).Some? ==> Flushing(FlushedBy(s, ops[0]).value).1.Err?)
      && FlushesFail(Step(s, ops[0]), ops[1..])
  }

  /** From a stuck writer every flush of a run fails if and only if none of them meets a wrap. */
  lemma {:induction false} StuckUntilWrap(s: WriterState, ops: seq<Op>)
    requires Inv(s) && !s.finished && Stuck(s) && CountedForAll(s, ops)
    ensures FlushesFail(s, ops) <==> RoomForAll(s, ops)
    decreases |ops|
  {
    if ops != [] {
      hide Step, Inv, Stuck, Flushing, Counted, FlushedBy, FlushWraps;
      if MeetsWrap(s, ops[0]) {
        MetWrapSpoils(s, ops[0]);
      } else {
        StepKeeps(s, ops[0]);
        StepKeepsStuck(s, ops[0]);
        StuckUntilWrap(Step(s, ops[0]), ops[1..]);
      }
    }
  }

  /** Behind any run with room a stuck writer is stuck: a flush and the finish fail, unless they meet a wrap. */
  lemma {:induction false} StuckForever(s: WriterState, ops: seq<Op>)
    requires Inv(s) && !s.finished && Stuck(s) && RoomForAll(s, ops)
    ensures var t := After(s, ops);
            Stuck(t) && (Flushing(t).1.Err? <==> !FlushWraps(t)) && (Finishing(t).1.Err? <==> !FlushWraps(t))
    decreases |ops|
  {
    hide Step, Stuck, Flushing, Room, FlushWraps, Good, InOrder, HoldsInterned;
    if ops == [] {
      FlushFailsIff(s);
    } else {
      StepKeeps(s, ops[0]);
      StepKeepsStuck(s, ops[0]);
      StuckForever(Step(s, ops[0]), ops[1..]);
    }
  }

  /** On a new writer: once stuck, no continuation of the run with room can finish. */
  lemma NewStuckForever(h: Header.Laid, before: seq<Op>, ops: seq<Op>)
    requires RoomForAll(Fresh(h), before + ops + [FlushOp]) && Stuck(After(Fresh(h), before))
    ensures Flushing(After(Fresh(h), before + ops)).1.Err? && Finishing(After(Fresh(h), before + ops)).1.Err?
  {
    var t := After(Fresh(h), before + ops);
    RoomJoined(Fresh(h), before + ops, [FlushOp]);
    RoomJoined(Fresh(h), before, ops);
    NewRunKeeps(h, before);
    assert !FlushWraps(t) by { LastRoom(t, FlushOp); }
    hide *;
    StuckForever(After(Fresh(h), before), ops);
  }

  lemma LastRoom(s: WriterState, op: Op)
    requires RoomForAll(s, [op])
    ensures Room(s, op)
  {
  }

  // ---- Files left behind ----

  /** The journal bytes of a state. */
  function File(s: WriterState): seq<byte> {
    FileOf(s.header, s.log)
  }

  /** In every state the file reads back cleanly: the entries and events written, no torn tail. */
  lemma FileReadsBack(s: WriterState)
    requires Inv(s)
    ensures Opened(File(s)).Ok?
    ensures var r := Opened(File(s)).value;
            && r.header == Header.AsRead(s.header) && !r.tornTail && r.chunksCommitted == |s.log|
            && r.events == FiledEvents(s.log)
            && AllInserted(NO_NAMES, FiledEntries(s.log)) == Ok(r.names)
  {
    hide Opened, Replay, AllInserted, FiledEntries, FiledEvents, FileOf, Header.AsRead;
    OpenComplete(s.header, s.log);
    ReplayIs(s.log);
  }

  /** After a successful flush the dictionary read back is the writer's, and every event taken is in the file. */
  lemma FlushedReadsBack(s: WriterState)
    requires Inv(s) && Room(s, FlushOp) && Flushing(s).1.Ok?
    ensures var t := Flushing(s).0;
            && Inv(t) && Opened(File(t)).Ok?
            && SameNames(Opened(File(t)).value.names, s.names)
            && Opened(File(t)).value.events == Taken(s)
            && t.synced == |t.log|
  {
    FlushKeeps(s);
    hide Flushing, Opened, AllInserted, FiledEntries, FiledEvents, FileOf, Good, InOrder, MutuallyInverse,
         Dict.Numbered;
    var t := Flushing(s).0;
    FileReadsBack(t);
    assert FiledEntries(t.log) + [] == FiledEntries(t.log);
    assert FiledEvents(t.log) + [] == FiledEvents(t.log);
  }

  /**
   Writing and reading: whatever was interned, appended and flushed on a new session, if finishing succeeds then
   opening the file gives the header, exactly the interned names, exactly the events that were given a sequence
   number, numbered 1 to n, the number of chunks written, and no torn tail.
   */
  lemma FinishedReadsBack(h: Header.Laid, ops: seq<Op>)
    requires RoomForAll(Fresh(h), ops + [FlushOp])
    requires Finishing(After(Fresh(h), ops)).1.Ok?
    ensures var s := After(Fresh(h), ops);
            var t := Finishing(s).0;
            && Opened(File(t)).Ok?
            && var r := Opened(File(t)).value;
               && r.header == Header.AsRead(h) && !r.tornTail && r.chunksCommitted == |t.log|
               && SameNames(r.names, s.names)
               && r.events == AllNumbered(Fresh(h), ops)
               && (forall i | 0 <= i < |r.events| :: r.events[i].sequence == i + 1)
  {
    var s := After(Fresh(h), ops);
    RoomJoined(Fresh(h), ops, [FlushOp]);
    LastRoom(s, FlushOp);
    NewRunKeeps(h, ops);
    hide After, Flushing, Opened, AllNumbered, Taken, RoomForAll, FileOf, Header.AsRead, FiledEvents, FiledEntries,
         Good, Room;
    FlushedReadsBack(s);
    var t := Flushing(s).0;
    FlushFrame(s);
    FileReadsBack(t);
  }

  /**
   A crash leaves the first `n` bytes, at least those flushed. Opening them succeeds; the events are a prefix of
   those written and contain all that were in the file at the last successful flush.
   */
  lemma CrashRecovers(s: WriterState, n: nat)
    requires Inv(s) && 128 <= n <= |File(s)| && |FileOf(s.header, s.log[..s.synced])| <= n
    ensures var j := WholeChunks(s.log, 1, n - 128);
            && s.synced <= j <= |s.log|
            && Opened(File(s)[..n]).Ok?
            && var r := Opened(File(s)[..n]).value;
               && r.events == FiledEvents(s.log[..j])
               && AllInserted(NO_NAMES, FiledEntries(s.log[..j])) == Ok(r.names)
               && (r.tornTail <==> n != |FileOf(s.header, s.log[..j])|)
  {
    var j := WholeChunks(s.log, 1, n - 128);
    OpenTruncated(s.header, s.log, n);
    ReplayIs(s.log[..j]);
    if j < s.synced {
      LayoutGrows(s.log, j + 1, s.synced);
    }
  }

  lemma LayoutGrows(log: seq<LogChunk>, i: nat, j: nat)
    requires i <= j <= |log|
    ensures |Layout(log[..i], 1)| <= |Layout(log[..j], 1)|
  {
    hide Layout;
    assert log[..j] == log[..i] + log[i..j];
    LayoutConcat(log[..i], log[i..j], 1);
  }

  /** Every cut of the file that keeps the flushed bytes opens, with the events in front of those read. */
  ghost predicate SurvivesCuts(t: WriterState, events: seq<EventRecord>) {
    && t.synced <= |t.log|
    && forall n | |FileOf(t.header, t.log[..t.synced])| <= n <= |File(t)| ::
         Opened(File(t)[..n]).Ok? && events <= Opened(File(t)[..n]).value.events
  }

  /**
   Durability: once a flush has succeeded, no later operation and no crash can lose an event taken before it, as
   long as the bytes flushed stay on disk.
   */
  lemma FlushedSurvives(s: WriterState, ops: seq<Op>)
    requires Inv(s) && RoomForAll(s, [FlushOp] + ops) && Flushing(s).1.Ok?
    ensures var t := After(s, [FlushOp] + ops);
            Inv(t) && Flushing(s).0.log <= t.log && Flushing(s).0.synced <= t.synced && SurvivesCuts(t, Taken(s))
  {
    var u, t := Flushing(s).0, After(s, [FlushOp] + ops);
    assert ([FlushOp] + ops)[1..] == ops;
    FlushFirst(s, ops);
    FlushKeeps(s);
    RunKeeps(u, ops);
    assert FiledEvents(u.log) + [] == FiledEvents(u.log);
    assert FiledEvents(u.log) == Taken(s);
    assert |u.log| <= t.synced;
    hide *;
    CutsSurvive(t, u.log);
  }

  lemma CutsSurvive(t: WriterState, flushed: seq<LogChunk>)
    requires Inv(t) && flushed <= t.log && |flushed| <= t.synced
    ensures SurvivesCuts(t, FiledEvents(flushed))
  {
    SyncedInLog(t);
    hide Inv, File, FileOf, Opened, FiledEvents;
    forall n | |FileOf(t.header, t.log[..t.synced])| <= n <= |File(t)|
      ensures Opened(File(t)[..n]).Ok? && FiledEvents(flushed) <= Opened(File(t)[..n]).value.events
    {
      SyncedSurvives(t, flushed, n);
    }
  }

  lemma FlushFirst(s: WriterState, ops: seq<Op>)
    requires RoomForAll(s, [FlushOp] + ops)
    ensures Room(s, FlushOp) && RoomForAll(Flushing(s).0, ops)
    ensures After(s, [FlushOp] + ops) == After(Flushing(s).0, ops)
  {
    assert ([FlushOp] + ops)[1..] == ops;
    hide Flushing, Room;
  }

  lemma SyncedInLog(t: WriterState)
    requires Inv(t)
    ensures t.synced <= |t.log|
  {
  }

  /** On a new writer: the events numbered before a successful flush survive every later operation and crash. */
  lemma NewFlushedSurvives(h: Header.Laid, before: seq<Op>, ops: seq<Op>)
    requires RoomForAll(Fresh(h), before + ([FlushOp] + ops)) && Flushing(After(Fresh(h), before)).1.Ok?
    ensures SurvivesCuts(After(Fresh(h), before + ([FlushOp] + ops)), AllNumbered(Fresh(h), before))
  {
    RoomJoined(Fresh(h), before, [FlushOp] + ops);
    NewRunKeeps(h, before);
    hide *;
    FlushedSurvives(After(Fresh(h), before), ops);
  }

  /** Cutting a journal behind its flushed part keeps every event of the chunks flushed. */
  lemma SyncedSurvives(t: WriterState, flushed: seq<LogChunk>, n: nat)
    requires Inv(t) && flushed <= t.log && |flushed| <= t.synced <= |t.log|
    requires |FileOf(t.header, t.log[..t.synced])| <= n <= |File(t)|
    ensures Opened(File(t)[..n]).Ok? && FiledEvents(flushed) <= Opened(File(t)[..n]).value.events
  {
    hide *;
    FileAtLeast(t.header, t.log[..t.synced]);
    CrashRecovers(t, n);
    FiledPrefix(t.log, |flushed|, WholeChunks(t.log, 1, n - 128));
    assert t.log[..|flushed|] == flushed;
  }

  lemma FileAtLeast(h: Header.Laid, log: seq<LogChunk>)
    ensures |FileOf(h, log)| >= 128
  {
    hide Layout;
  }

  lemma {:induction false} FiledPrefix(log: seq<LogChunk>, i: nat, j: nat)
    requires i <= j <= |log|
    ensures FiledEvents(log[..i]) <= FiledEvents(log[..j])
    decreases j - i
  {
    hide FiledEvents;
    if i < j {
      FiledPrefix(log, i, j - 1);
      assert log[..j] == log[..j - 1] + [log[j - 1]];
      FiledAppend(log[..j - 1], log[j - 1]);
    }
  }
}
