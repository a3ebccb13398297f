/** The session writer: interns names, buffers events, and seals the buffers into committed chunks. */
module Writer {
  import opened Wrappers
  import opened Bytes
  import opened Format
  import opened Utf8
  import opened Dict
  import opened Payload
  import opened Event
  import opened Reader
  import opened Journal
  import Chunk
  import Header

  /** One event as handed to the writer, before it has a sequence number. */
  datatype AppendEvent = AppendEvent(
    monotonicNs: u64,
    domainId: u32,
    categoryId: u32,
    nameId: u32,
    correlationId: u32,
    severity: Severity,
    payload: TypedPayload)

  function Record(ev: AppendEvent, sequence: u64): EventRecord {
    EventRecord(ev.monotonicNs, sequence, ev.domainId, ev.categoryId, ev.nameId, ev.correlationId, ev.severity,
        ev.payload)
  }

  /**
   A writer by its contents: `log` are the chunks written so far, `synced` how many of them had been
   handed to the file when it was last flushed.
   */
  datatype WriterState = WriterState(
    header: Header.Laid,
    log: seq<LogChunk>,
    names: Names,
    pendingDict: seq<DictEntry>,
    pendingEvents: seq<EventRecord>,
    nextChunk: u64,
    nextEvent: u64,
    finished: bool,
    synced: nat)

  // ---- Specification of the operations ----

  function Fresh(h: Header.Laid): WriterState {
    WriterState(h, [], NO_NAMES, [], [], 1, 1, false, 0)
  }

  function Interning(s: WriterState, kind: DictKind, name: Text): (WriterState, Result<u32>) {
    if s.finished then (s, Err(SessionClosed)) else
    var (names, r) := Interned(s.names, kind, name);
    match r
    case Err(e) => (s.(names := names), Err(e))
    case Ok((id, added)) =>
      (s.(names := names, pendingDict := s.pendingDict + if added then [DictEntry(kind, id, name)] else []), Ok(id))
  }

  /** Writes one chunk behind the others, if it can be encoded. */
  function Sealing(s: WriterState, c: LogChunk): Result<WriterState> {
    var _ :- Sealed(c, s.nextChunk);
    Ok(s.(log := s.log + [c], nextChunk := Next64(s.nextChunk)))
  }

  function SealingEntries(s: WriterState): Result<WriterState> {
    if s.pendingDict == [] then Ok(s) else
    var t :- Sealing(s, EntryChunk(s.pendingDict));
    Ok(t.(pendingDict := []))
  }

  function SealingEvents(s: WriterState): Result<WriterState> {
    if s.pendingEvents == [] then Ok(s) else
    var t :- Sealing(s, EventChunk(s.pendingEvents));
    Ok(t.(pendingEvents := []))
  }

  function Flushing(s: WriterState): (WriterState, Result<()>) {
    if s.finished then (s, Err(SessionClosed)) else
    match SealingEntries(s)
    case Err(e) => (s, Err(e))
    case Ok(t) =>
      match SealingEvents(t)
      case Err(e) => (t, Err(e))
      case Ok(u) => (u.(synced := |u.log|), Ok(()))
  }

  /** Takes a sequence number for the event and buffers it. */
  function Buffered(s: WriterState, ev: AppendEvent): WriterState {
    s.(nextEvent := Next64(s.nextEvent), pendingEvents := s.pendingEvents + [Record(ev, s.nextEvent)])
  }

  predicate BufferFull(s: WriterState) {
    |s.pendingEvents| % TWO_32 >= MAX_EVENTS_PER_CHUNK
  }

  function Appending(s: WriterState, ev: AppendEvent): (WriterState, Result<u64>) {
    if s.finished then (s, Err(SessionClosed)) else
    match CheckRefs(s.names, Record(ev, s.nextEvent))
    case Err(e) => (s, Err(e))
    case Ok(_) =>
      var t := Buffered(s, ev);
      if !BufferFull(t) then (t, Ok(s.nextEvent)) else
      var (u, r) := Flushing(t);
      (u, match r case Ok(_) => Ok(s.nextEvent) case Err(e) => Err(e))
  }

  function Finishing(s: WriterState): (WriterState, Result<()>) {
    var (t, r) := Flushing(s);
    (if r.Ok? then t.(finished := true) else t, r)
  }

  lemma FileAppend(h: Header.Laid, log: seq<LogChunk>, c: LogChunk)
    ensures FileOf(h, log + [c]) == FileOf(h, log) + SealedBytes(c, 1 + |log|)
  {
    hide Header.HeaderBytes, Layout, SealedBytes;
    LayoutAppend(log, c, 1);
    assert Header.HeaderBytes(h) + (Layout(log, 1) + SealedBytes(c, 1 + |log|))
        == Header.HeaderBytes(h) + Layout(log, 1) + SealedBytes(c, 1 + |log|);
  }

  lemma NextNumber(n: nat)
    ensures Next64(n % TWO_64) == (n + 1) % TWO_64
  {
  }

  lemma SealingIs(s: WriterState, c: LogChunk, bytes: seq<byte>)
    requires Sealed(c, s.nextChunk) == Ok(bytes) && s.nextChunk == (|s.log| + 1) % TWO_64
    ensures Sealing(s, c) == Ok(s.(log := s.log + [c], nextChunk := Next64(s.nextChunk)))
    ensures bytes == SealedBytes(c, 1 + |s.log|)
  {
    hide Sealed;
  }

  // ---- The class ----

  class SessionWriter {
    var file: seq<byte>
    const header: Header.Laid
    const dictionary: Dictionary
    var pendingDict: seq<DictEntry>
    var pendingEvents: seq<EventRecord>
    var nextChunkSeq: u64
    var nextEventSeq: u64
    var finished: bool
    ghost var log: seq<LogChunk>
    ghost var synced: nat

    /** The bytes written are the header and the chunks of the log, numbered from 1. */
    ghost predicate Valid()
      reads this
    {
      && file == FileOf(header, log)
      && nextChunkSeq == (|log| + 1) % TWO_64
    }

    ghost function State(): WriterState
      reads this, dictionary
    {
      WriterState(header, log, dictionary.Value(), pendingDict, pendingEvents, nextChunkSeq, nextEventSeq, finished,
          synced)
    }

    constructor OpenNew(h: Header.Laid)
      ensures Valid() && fresh(dictionary) && State() == Fresh(h)
    {
      header := h;
      dictionary := new Dictionary();
      pendingDict, pendingEvents := [], [];
      nextChunkSeq, nextEventSeq := 1, 1;
      finished := false;
      log, synced := [], 0;
      file := [];
      new;
      var bytes := Header.Encode(h);
      file := file + bytes;
    }

    method Intern(kind: DictKind, name: Text) returns (r: Result<u32>)
      requires Valid()
      modifies this, dictionary
      ensures Valid() && (State(), r) == Interning(old(State()), kind, name)
    {
      hide Interned, FileOf;
      if finished {
        return Err(SessionClosed);
      }
      var interned := dictionary.Intern(kind, name);
      if interned.Err? {
        return Err(interned.error);
      }
      var (id, added) := interned.value;
      if added {
        pendingDict := pendingDict + [DictEntry(kind, id, name)];
      } else {
        assert pendingDict + [] == pendingDict;
      }
      return Ok(id);
    }

    method AppendEvent(ev: AppendEvent) returns (r: Result<u64>)
      requires Valid()
      modifies this
      ensures Valid() && (State(), r) == Appending(old(State()), ev)
    {
      hide Flushing, FileOf, CheckRefs;
      if finished {
        return Err(SessionClosed);
      }
      var known := ValidateEventRefs(dictionary, Record(ev, nextEventSeq));
      if known.Err? {
        return Err(known.error);
      }
      var sequence := nextEventSeq;
      nextEventSeq := Next64(nextEventSeq);
      pendingEvents := pendingEvents + [Record(ev, sequence)];
      if |pendingEvents| % TWO_32 >= MAX_EVENTS_PER_CHUNK {
        var flushed := FlushChunk();
        if flushed.Err? {
          return Err(flushed.error);
        }
      }
      return Ok(sequence);
    }

    /** Appends one sealed chunk to the file. */
    method Write(bytes: seq<byte>, ghost c: LogChunk)
      requires Valid() && Sealed(c, nextChunkSeq) == Ok(bytes)
      modifies this`file, this`nextChunkSeq, this`log
      ensures Valid() && Sealing(old(State()), c) == Ok(State())
    {
      hide Sealed, SealedBytes, FileOf, Sealing, Next64;
      NextNumber(|log| + 1);
      SealingIs(State(), c, bytes);
      FileAppend(header, log, c);
      file := file + bytes;
      nextChunkSeq := Next64(nextChunkSeq);
      log := log + [c];
    }

    method FlushChunk() returns (r: Result<()>)
      requires Valid()
      modifies this
      ensures Valid() && (State(), r) == Flushing(old(State()))
    {
      hide EncodedEntries, EncodeEvents, Chunk.Committed, FileOf;
      if finished {
        return Err(SessionClosed);
      }
      if pendingDict != [] {
        var payload := EncodeEntries(pendingDict);
        if payload.Err? {
          return Err(payload.error);
        }
        var bytes := Chunk.EncodeCommittedChunk(CHUNK_TYPE_DICTIONARY, nextChunkSeq, payload.value);
        if bytes.Err? {
          return Err(bytes.error);
        }
        Write(bytes.value, EntryChunk(pendingDict));
        pendingDict := [];
      }
      assert SealingEntries(old(State())) == Ok(State());
      if pendingEvents != [] {
        var payload := Event.Encode(pendingEvents);
        if payload.Err? {
          return Err(payload.error);
        }
        var bytes := Chunk.EncodeCommittedChunk(CHUNK_TYPE_EVENT, nextChunkSeq, payload.value);
        if bytes.Err? {
          return Err(bytes.error);
        }
        Write(bytes.value, EventChunk(pendingEvents));
        pendingEvents := [];
      }
      synced := |log|;
      return Ok(());
    }

    method Finish() returns (r: Result<()>)
      requires Valid()
      modifies this
      ensures Valid() && (State(), r) == Finishing(old(State()))
    {
      hide FileOf, SealingEntries, SealingEvents;
      if finished {
        return Err(SessionClosed);
      }
      r := FlushChunk();
      if r.Err? {
        return;
      }
      finished := true;
    }
  }
}
