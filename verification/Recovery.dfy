/** What the recovery scan guarantees on arbitrary bytes, and that appending to a journal only extends it. */
module Recovery {
  import opened Wrappers
  import opened Bytes
  import opened Format
  import opened Dict
  import opened Event
  import opened Payload
  import opened Reader
  import Chunk
  import Header
  import Crc32

  // ---- References ----

  predicate FieldResolves(d: Names, f: Field) {
    (String, f.nameId) in d.byKey && (f.value.InternedString? ==> (String, f.value.id) in d.byKey)
  }

  /** Every id the event mentions is defined in `d`. */
  predicate Resolves(d: Names, ev: EventRecord) {
    && (Domain, ev.domainId) in d.byKey
    && (Category, ev.categoryId) in d.byKey
    && (EventName, ev.nameId) in d.byKey
    && (ev.correlationId != 0 ==> (String, ev.correlationId) in d.byKey)
    && (forall f <- ev.payload.fields :: FieldResolves(d, f))
  }

  lemma {:induction false} CheckFieldsIff(d: Names, fs: seq<Field>)
    ensures CheckFields(d, fs).Ok? <==> forall f <- fs :: FieldResolves(d, f)
  {
    if fs != [] {
      CheckFieldsIff(d, fs[1..]);
      assert fs[0] in fs;
      assert CheckFields(d, fs).Ok? <==> FieldResolves(d, fs[0]) && CheckFields(d, fs[1..]).Ok?;
      assert forall f <- fs :: f == fs[0] || f in fs[1..];
    }
  }

  lemma CheckRefsIff(d: Names, ev: EventRecord)
    ensures CheckRefs(d, ev).Ok? <==> Resolves(d, ev)
  {
    CheckFieldsIff(d, ev.payload.fields);
  }

  /** The events are numbered from `start` on, and all their references resolve. */
  predicate InOrder(d: Names, evs: seq<EventRecord>, start: nat) {
    forall i | 0 <= i < |evs| :: evs[i].sequence == start + i && Resolves(d, evs[i])
  }

  lemma {:induction false} CheckEventsIff(d: Names, evs: seq<EventRecord>, start: nat)
    ensures CheckEvents(d, evs, start).Ok? <==> InOrder(d, evs, start)
    decreases |evs|
  {
    hide CheckRefs, Resolves;
    if evs != [] {
      CheckRefsIff(d, evs[0]);
      CheckEventsIff(d, evs[1..], start + 1);
      if InOrder(d, evs, start) {
        assert evs[0].sequence == start && Resolves(d, evs[0]);
        assert forall i | 0 <= i < |evs| - 1 :: evs[1..][i] == evs[i + 1];
      } else {
        assert forall i | 0 < i < |evs| :: evs[i] == evs[1..][i - 1];
      }
    }
  }

  /** Everything `d` defines, `e` defines with the same name. */
  ghost predicate Extends(d: Names, e: Names) {
    forall key <- d.byKey :: key in e.byKey && e.byKey[key] == d.byKey[key]
  }

  lemma ResolvesExtends(d: Names, e: Names, ev: EventRecord)
    requires Resolves(d, ev) && Extends(d, e)
    ensures Resolves(e, ev)
  {
  }

  lemma InOrderExtends(d: Names, e: Names, evs: seq<EventRecord>, start: nat)
    requires InOrder(d, evs, start) && Extends(d, e)
    ensures InOrder(e, evs, start)
  {
    hide Resolves;
    forall i | 0 <= i < |evs|
      ensures Resolves(e, evs[i])
    {
      ResolvesExtends(d, e, evs[i]);
    }
  }

  // ---- Arbitrary bytes ----

  /** What holds of the state after every replayed chunk. */
  ghost predicate Clean(st: Recovered) {
    InOrder(st.names, st.events, 1) && NamesBacked(st.names)
  }

  /** `t` continues `s`: nothing read before is lost or changed. */
  ghost predicate Continues(s: Recovered, t: Recovered) {
    s.events <= t.events && Extends(s.names, t.names) && s.chunks <= t.chunks
  }

  lemma EntriesKeepClean(st: Recovered, es: seq<DictEntry>)
    requires Clean(st) && WithEntries(st, es).Ok?
    ensures Clean(WithEntries(st, es).value) && Continues(st, WithEntries(st, es).value)
  {
    hide Resolves, AllInserted, InOrder, NamesBacked;
    InsertsKeepBacked(st.names, es);
    InOrderExtends(st.names, WithEntries(st, es).value.names, st.events, 1);
  }

  lemma EventsKeepClean(st: Recovered, evs: seq<EventRecord>)
    requires Clean(st) && WithEvents(st, evs).Ok?
    ensures Clean(WithEvents(st, evs).value) && Continues(st, WithEvents(st, evs).value)
  {
    hide Resolves, CheckEvents, NamesBacked;
    CheckEventsIff(st.names, evs, |st.events| + 1);
    var all := st.events + evs;
    forall i | 0 <= i < |all|
      ensures all[i].sequence == 1 + i && Resolves(st.names, all[i])
    {
      assert i >= |st.events| ==> all[i] == evs[i - |st.events|];
    }
  }

  lemma ApplyKeepsClean(st: Recovered, chunkType: u16, sequence: u64, payload: seq<byte>)
    requires Clean(st) && Apply(st, chunkType, sequence, payload).Ok?
    ensures var st1 := Apply(st, chunkType, sequence, payload).value;
            Clean(st1) && Continues(st, st1) && st1.chunks == sequence == st.chunks + 1
  {
    hide InOrder, NamesBacked, DecodedEntries, DecodeEvents, AllInserted, CheckEvents;
    if chunkType == CHUNK_TYPE_DICTIONARY {
      EntriesKeepClean(st, DecodedEntries(payload).value);
    } else if chunkType == CHUNK_TYPE_EVENT {
      EventsKeepClean(st, DecodeEvents(payload).value);
    }
  }

  /** The intact chunks in front of the first end or damage, in file order. */
  function Frames(rest: seq<byte>, first: bool): seq<Frame>
    decreases |rest|
  {
    var f := NextFrame(rest, first);
    if f.Whole? then [f] + Frames(rest[Chunk.OVERHEAD + |f.payload|..], false) else []
  }

  lemma {:induction false} ScanKeepsClean(rest: seq<byte>, first: bool, st: Recovered)
    requires Clean(st) && Scan(rest, first, st).Ok?
    ensures var t := Scan(rest, first, st).value.0;
            && Clean(t) && Continues(st, t)
            && t.chunks == st.chunks + |Frames(rest, first)|
            && forall i | 0 <= i < |Frames(rest, first)| ::
                 Frames(rest, first)[i].Whole? && Frames(rest, first)[i].sequence == st.chunks + 1 + i
    ensures Chunk.OVERHEAD * |Frames(rest, first)| <= |rest|
    decreases |rest|
  {
    hide NextFrame, Clean, Apply;
    var f := NextFrame(rest, first);
    if f.Whole? {
      ApplyKeepsClean(st, f.chunkType, f.sequence, f.payload);
      var st1 := Apply(st, f.chunkType, f.sequence, f.payload).value;
      var tail := rest[Chunk.OVERHEAD + |f.payload|..];
      ScanKeepsClean(tail, false, st1);
      forall i | 0 <= i < |Frames(rest, first)|
        ensures Frames(rest, first)[i].Whole? && Frames(rest, first)[i].sequence == st.chunks + 1 + i
      {
        assert Frames(rest, first) == [f] + Frames(tail, false);
        assert i > 0 ==> Frames(rest, first)[i] == Frames(tail, false)[i - 1];
      }
    }
  }

  /**
   On any bytes the reader accepts: events are numbered 1..n, committed chunks 1..k, every reference of every
   event resolves in the final dictionary, and the chunks fit in the file.
   */
  lemma OpenSound(file: seq<byte>)
    requires Opened(file).Ok?
    ensures var s := Opened(file).value;
            && InOrder(s.names, s.events, 1)
            && NamesBacked(s.names)
            && s.chunksCommitted == |Frames(file[128..], true)|
            && (forall i | 0 <= i < s.chunksCommitted ::
                  Frames(file[128..], true)[i].Whole? && Frames(file[128..], true)[i].sequence == i + 1)
            && 128 + Chunk.OVERHEAD * s.chunksCommitted <= |file|
  {
    hide Scan, Frames, Header.Decode, Resolves;
    ScanKeepsClean(file[128..], true, NOTHING);
  }

  // ---- Appending ----

  lemma FrameLocal(rest: seq<byte>, x: seq<byte>, first: bool)
    requires NextFrame(rest, first).Whole?
    ensures NextFrame(rest + x, first) == NextFrame(rest, first)
  {
    hide U16, U32, U64, Crc32.Checksum;
    var all := rest + x;
    var end := CHUNK_HEADER_SIZE + U32(rest[16..20]);
    assert all[..4] == rest[..4] && all[4..6] == rest[4..6] && all[8..16] == rest[8..16] && all[16..20] == rest[16..20];
    assert all[end..end + 4] == rest[end..end + 4] && all[end + 4..end + 8] == rest[end + 4..end + 8];
    assert all[CHUNK_HEADER_SIZE..end] == rest[CHUNK_HEADER_SIZE..end];
  }

  /** Scanning a cleanly ending journal with more bytes behind it goes on where the journal ended. */
  lemma {:induction false} ScanAppended(rest: seq<byte>, x: seq<byte>, first: bool, st: Recovered)
    requires Scan(rest, first, st).Ok? && !Scan(rest, first, st).value.1
    ensures Scan(rest + x, first, st) == Scan(x, first && rest == [], Scan(rest, first, st).value.0)
    decreases |rest|
  {
    hide Apply, FrameBehindMagic;
    var f := NextFrame(rest, first);
    if f.Whole? {
      FrameLocal(rest, x, first);
      var n := Chunk.OVERHEAD + |f.payload|;
      assert (rest + x)[n..] == rest[n..] + x;
      ScanAppended(rest[n..], x, false, Apply(st, f.chunkType, f.sequence, f.payload).value);
    } else {
      FrameEnds(rest, first);
      assert rest + x == x;
    }
  }

  lemma FrameEnds(rest: seq<byte>, first: bool)
    requires NextFrame(rest, first) == End(false)
    ensures rest == []
  {
  }

  /** Nothing a journal without a torn tail holds can be lost or changed by bytes added behind it. */
  lemma AppendOnly(file: seq<byte>, x: seq<byte>)
    requires Opened(file).Ok? && !Opened(file).value.tornTail
    ensures Opened(file + x).Err? ||
            var (s, t) := (Opened(file).value, Opened(file + x).value);
            t.header == s.header && s.events <= t.events && Extends(s.names, t.names)
                && s.chunksCommitted <= t.chunksCommitted
  {
    hide Scan, Header.Decode, Clean;
    assert (file + x)[..128] == file[..128] && (file + x)[128..] == file[128..] + x;
    ScanAppended(file[128..], x, true, NOTHING);
    assert Clean(NOTHING) by { CleanAtStart(); }
    ScanKeepsClean(file[128..], true, NOTHING);
    var st := Scan(file[128..], true, NOTHING).value.0;
    if Opened(file + x).Ok? {
      ScanKeepsClean(x, file[128..] == [], st);
    }
  }

  lemma CleanAtStart()
    ensures Clean(NOTHING)
  {
  }
}
