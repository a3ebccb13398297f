/** Journals as lists of chunks: their bytes, their meaning, and what survives truncation and corruption. */
module Journal {
  import opened Wrappers
  import opened Bytes
  import opened Format
  import opened Dict
  import opened Event
  import opened Reader
  import opened Recovery
  import Chunk
  import Header
  import Crc32

  /** A chunk by its contents. */
  datatype LogChunk = EntryChunk(entries: seq<DictEntry>) | EventChunk(events: seq<EventRecord>)

  function ChunkType(c: LogChunk): u16 {
    if c.EntryChunk? then CHUNK_TYPE_DICTIONARY else CHUNK_TYPE_EVENT
  }

  function PayloadOf(c: LogChunk): Result<seq<byte>> {
    match c
    case EntryChunk(es) => EncodedEntries(es)
    case EventChunk(evs) => EncodeEvents(evs)
  }

  /** The chunk's bytes under sequence number `n`. */
  function Sealed(c: LogChunk, n: u64): Result<seq<byte>> {
    var payload :- PayloadOf(c);
    Chunk.Committed(ChunkType(c), n, payload)
  }

  function SealedBytes(c: LogChunk, n: nat): seq<byte> {
    match Sealed(c, n % TWO_64) case Ok(b) => b case Err(_) => []
  }

  /** The chunks one after the other, numbered from `n` on. */
  function Layout(log: seq<LogChunk>, n: nat): seq<byte> {
    if log == [] then [] else SealedBytes(log[0], n) + Layout(log[1..], n + 1)
  }

  /** A chunk whose payload encodes within the size limit. */
  predicate Sound(c: LogChunk) {
    PayloadOf(c).Ok? && |PayloadOf(c).value| <= MAX_CHUNK_PAYLOAD
  }

  predicate AllSound(log: seq<LogChunk>) {
    forall c <- log :: Sound(c)
  }

  function ApplyChunk(st: Recovered, c: LogChunk): Result<Recovered> {
    match c
    case EntryChunk(es) => WithEntries(st, es)
    case EventChunk(evs) => WithEvents(st, evs)
  }

  /** The meaning of a list of chunks: what replaying them in order yields. */
  function Replay(st: Recovered, log: seq<LogChunk>): Result<Recovered>
    decreases |log|
  {
    if log == [] then Ok(st) else
    var st1 :- ApplyChunk(st, log[0]);
    Replay(st1, log[1..])
  }

  // ---- Lists of chunks, extended at the end ----

  lemma {:induction false} LayoutAppend(log: seq<LogChunk>, c: LogChunk, n: nat)
    ensures Layout(log + [c], n) == Layout(log, n) + SealedBytes(c, n + |log|)
    decreases |log|
  {
    hide SealedBytes;
    if log == [] {
      assert log + [c] == [c] && [c][1..] == [];
    } else {
      assert (log + [c])[1..] == log[1..] + [c];
      LayoutAppend(log[1..], c, n + 1);
      assert Layout(log + [c], n) == SealedBytes(log[0], n) + (Layout(log[1..], n + 1) + SealedBytes(c, n + |log|));
    }
  }

  lemma {:induction false} LayoutConcat(a: seq<LogChunk>, b: seq<LogChunk>, n: nat)
    ensures Layout(a + b, n) == Layout(a, n) + Layout(b, n + |a|)
    decreases |a|
  {
    hide SealedBytes;
    if a == [] {
      assert a + b == b;
    } else {
      assert (a + b)[1..] == a[1..] + b;
      LayoutConcat(a[1..], b, n + 1);
      assert Layout(a + b, n) == SealedBytes(a[0], n) + (Layout(a[1..], n + 1) + Layout(b, n + |a|));
    }
  }

  lemma {:induction false} ReplayAppend(st: Recovered, log: seq<LogChunk>, c: LogChunk)
    ensures Replay(st, log + [c]) == match Replay(st, log) { case Ok(st1) => ApplyChunk(st1, c) case Err(e) => Err(e) }
    decreases |log|
  {
    hide ApplyChunk;
    if log == [] {
      assert log + [c] == [c] && [c][1..] == [];
    } else {
      assert (log + [c])[1..] == log[1..] + [c];
      if ApplyChunk(st, log[0]).Ok? {
        ReplayAppend(ApplyChunk(st, log[0]).value, log[1..], c);
      }
    }
  }

  lemma {:induction false} ReplayConcat(st: Recovered, a: seq<LogChunk>, b: seq<LogChunk>)
    ensures Replay(st, a + b) == match Replay(st, a) { case Ok(st1) => Replay(st1, b) case Err(e) => Err(e) }
    decreases |a|
  {
    hide ApplyChunk;
    if a == [] {
      assert a + b == b;
    } else {
      assert (a + b)[1..] == a[1..] + b;
      if ApplyChunk(st, a[0]).Ok? {
        ReplayConcat(ApplyChunk(st, a[0]).value, a[1..], b);
      }
    }
  }

  lemma ApplyCounts(st: Recovered, c: LogChunk)
    requires ApplyChunk(st, c).Ok?
    ensures ApplyChunk(st, c).value.chunks == st.chunks + 1
  {
  }

  lemma {:induction false} ReplayCounts(st: Recovered, log: seq<LogChunk>)
    requires Replay(st, log).Ok?
    ensures Replay(st, log).value.chunks == st.chunks + |log|
    decreases |log|
  {
    hide ApplyChunk;
    if log != [] {
      ApplyCounts(st, log[0]);
      ReplayCounts(ApplyChunk(st, log[0]).value, log[1..]);
    }
  }

  // ---- One chunk read back ----

  lemma {:induction false} EntriesTakeRoom(es: seq<DictEntry>)
    requires EncodeAll(es).Ok?
    ensures 7 * |es| <= |EncodeAll(es).value|
  {
    if es != [] {
      EntriesTakeRoom(es[1..]);
    }
  }

  lemma {:induction false} RecordsTakeRoom(evs: seq<EventRecord>)
    requires EncodeRecords(evs).Ok?
    ensures 40 * |evs| <= |EncodeRecords(evs).value|
  {
    hide RecordHeader;
    if evs != [] {
      RecordsTakeRoom(evs[1..]);
    }
  }

  /** Reading a sound chunk's payload back and applying it is applying the chunk. */
  lemma ApplySound(st: Recovered, c: LogChunk)
    requires Sound(c)
    requires st.chunks + 1 < TWO_64
    ensures Apply(st, ChunkType(c), st.chunks + 1, PayloadOf(c).value) == ApplyChunk(st, c)
  {
    hide WithEntries, WithEvents, DecodedEntries, DecodeEvents, EncodeAll, EncodeRecords;
    match c
    case EntryChunk(es) =>
      EntriesTakeRoom(es);
      EntriesRoundTrip(es);
    case EventChunk(evs) =>
      RecordsTakeRoom(evs);
      EventsRoundTrip(evs);
  }

  /** A laid-out frame with any checksum field: whole if the checksum is right, damaged if it is not. */
  lemma LaidOutFrame(h: Chunk.ChunkHeader, payload: seq<byte>, sum: u32, x: seq<byte>, first: bool)
    requires h.payloadLen == |payload| <= MAX_CHUNK_PAYLOAD
    ensures var b := Chunk.HeaderBytes(h) + payload + LE32(sum) + LE32(COMMITTED_MARKER);
            NextFrame(b + x, first) ==
            if sum == Crc32.Checksum(payload) then Whole(h.chunkType, h.sequence, payload)
                else Broken(ChecksumMismatch(h.sequence))
  {
    hide U16, U32, U64, LE32, LE64, LE16, Crc32.Checksum, Chunk.HeaderBytes;
    var hb := Chunk.HeaderBytes(h);
    var all := hb + payload + LE32(sum) + LE32(COMMITTED_MARKER) + x;
    var end := CHUNK_HEADER_SIZE + |payload|;
    HeaderAtFront(h, all);
    assert all[CHUNK_HEADER_SIZE..end] == payload;
    assert all[end..end + 4] == LE32(sum) && all[end + 4..end + 8] == LE32(COMMITTED_MARKER);
  }

  lemma HeaderAtFront(h: Chunk.ChunkHeader, all: seq<byte>)
    requires |all| >= CHUNK_HEADER_SIZE && all[..CHUNK_HEADER_SIZE] == Chunk.HeaderBytes(h)
    ensures all[..4] == CHUNK_MAGIC && U16(all[4..6]) == h.chunkType
    ensures U64(all[8..16]) == h.sequence && U32(all[16..20]) == h.payloadLen
  {
    hide U16, U32, U64, Chunk.HeaderBytes;
    Chunk.HeaderRoundTrip(h);
    SliceOfSlice(all, 0, CHUNK_HEADER_SIZE, 0, 4);
    SliceOfSlice(all, 0, CHUNK_HEADER_SIZE, 4, 6);
    SliceOfSlice(all, 0, CHUNK_HEADER_SIZE, 8, 16);
    SliceOfSlice(all, 0, CHUNK_HEADER_SIZE, 16, 20);
  }

  lemma SoundBytes(c: LogChunk, n: nat)
    requires Sound(c)
    ensures var payload := PayloadOf(c).value;
            var h := Chunk.ChunkHeader(ChunkType(c), n % TWO_64, |payload|);
            SealedBytes(c, n) == Chunk.HeaderBytes(h) + payload + LE32(Crc32.Checksum(payload)) + LE32(COMMITTED_MARKER)
    ensures |SealedBytes(c, n)| == Chunk.OVERHEAD + |PayloadOf(c).value|
  {
    hide PayloadOf, Chunk.HeaderBytes, Crc32.Checksum, LE32;
  }

  lemma SoundFrame(c: LogChunk, n: nat, x: seq<byte>, first: bool)
    requires Sound(c)
    ensures NextFrame(SealedBytes(c, n) + x, first) == Whole(ChunkType(c), n % TWO_64, PayloadOf(c).value)
  {
    hide PayloadOf, NextFrame, SealedBytes;
    var payload := PayloadOf(c).value;
    SoundBytes(c, n);
    LaidOutFrame(Chunk.ChunkHeader(ChunkType(c), n % TWO_64, |payload|), payload, Crc32.Checksum(payload), x, first);
  }

  /** A sound chunk cut short is a torn tail, or the clean end if nothing of it is there. */
  lemma CutFrame(c: LogChunk, n: nat, k: nat, first: bool)
    requires Sound(c) && k < |SealedBytes(c, n)|
    ensures NextFrame(SealedBytes(c, n)[..k], first) == End(k > 0)
  {
    hide PayloadOf, SealedBytes, U32;
    SoundBytes(c, n);
    var payload := PayloadOf(c).value;
    var cut := SealedBytes(c, n)[..k];
    if k >= Chunk.OVERHEAD {
      var h := Chunk.ChunkHeader(ChunkType(c), n % TWO_64, |payload|);
      assert cut[..CHUNK_HEADER_SIZE] == Chunk.HeaderBytes(h);
      HeaderAtFront(h, cut);
    }
  }

  // ---- Whole journals ----

  /** Scanning one sound chunk applies it, and goes on behind it. */
  lemma ScanChunk(c: LogChunk, x: seq<byte>, first: bool, st: Recovered)
    requires Sound(c) && ApplyChunk(st, c).Ok? && st.chunks + 1 < TWO_64
    ensures Scan(SealedBytes(c, st.chunks + 1) + x, first, st) == Scan(x, false, ApplyChunk(st, c).value)
  {
    hide Sound, SealedBytes, NextFrame, Apply, ApplyChunk, PayloadOf, ChunkType;
    var bytes := SealedBytes(c, st.chunks + 1);
    SoundFrame(c, st.chunks + 1, x, first);
    ApplyIsSound(st, c);
    SoundLength(c, st.chunks + 1);
    assert (bytes + x)[|bytes|..] == x;
  }

  /** Scanning laid-out chunks replays them, and goes on behind them. */
  lemma {:induction false} ScanLog(log: seq<LogChunk>, x: seq<byte>, first: bool, st: Recovered)
    requires AllSound(log) && Replay(st, log).Ok? && st.chunks + |log| < TWO_64
    ensures Scan(Layout(log, st.chunks + 1) + x, first, st) == Scan(x, first && log == [], Replay(st, log).value)
    decreases |log|
  {
    hide Sound, SealedBytes, ApplyChunk, Scan;
    if log == [] {
      assert Layout(log, st.chunks + 1) + x == x;
    } else {
      var n := st.chunks + 1;
      var st1 := ApplyChunk(st, log[0]).value;
      var tail := Layout(log[1..], n + 1) + x;
      assert Layout(log, n) + x == SealedBytes(log[0], n) + tail;
      ApplyCounts(st, log[0]);
      ScanChunk(log[0], tail, first, st);
      ScanLog(log[1..], x, false, st1);
    }
  }

  lemma SoundLength(c: LogChunk, n: nat)
    requires Sound(c)
    ensures PayloadOf(c).Ok? && |SealedBytes(c, n)| == Chunk.OVERHEAD + |PayloadOf(c).value|
  {
    SoundBytes(c, n);
  }

  lemma ApplyIsSound(st: Recovered, c: LogChunk)
    requires Sound(c) && st.chunks + 1 < TWO_64
    ensures PayloadOf(c).Ok?
    ensures Apply(st, ChunkType(c), st.chunks + 1, PayloadOf(c).value) == ApplyChunk(st, c)
  {
    ApplySound(st, c);
  }

  /** How many chunks lie wholly inside the first `k` bytes. */
  function WholeChunks(log: seq<LogChunk>, n: nat, k: nat): (j: nat)
    ensures j <= |log|
  {
    if log == [] || k < |SealedBytes(log[0], n)| then 0
    else 1 + WholeChunks(log[1..], n + 1, k - |SealedBytes(log[0], n)|)
  }

  lemma {:induction false} WholeChunksFit(log: seq<LogChunk>, n: nat, k: nat)
    requires k <= |Layout(log, n)|
    ensures var j := WholeChunks(log, n, k);
            |Layout(log[..j], n)| <= k && (j < |log| ==> k < |Layout(log[..j + 1], n)|)
    decreases |log|
  {
    hide SealedBytes;
    if log != [] && k >= |SealedBytes(log[0], n)| {
      var j := WholeChunks(log, n, k);
      WholeChunksFit(log[1..], n + 1, k - |SealedBytes(log[0], n)|);
      assert log[..j][1..] == log[1..][..j - 1];
      if j < |log| {
        assert log[..j + 1][1..] == log[1..][..j];
      }
    } else if log != [] {
      assert log[..1][1..] == [];
      assert log[..0] == [];
    }
  }

  /** Cutting laid-out chunks after `k` bytes keeps exactly the whole ones; the tail is torn off a boundary only. */
  lemma {:induction false} ScanCut(log: seq<LogChunk>, k: nat, first: bool, st: Recovered)
    requires AllSound(log) && Replay(st, log).Ok? && st.chunks + |log| < TWO_64
    requires k <= |Layout(log, st.chunks + 1)|
    ensures var j := WholeChunks(log, st.chunks + 1, k);
            && Replay(st, log[..j]).Ok?
            && Scan(Layout(log, st.chunks + 1)[..k], first, st)
               == Ok((Replay(st, log[..j]).value, k != |Layout(log[..j], st.chunks + 1)|))
    decreases |log|
  {
    hide Sound, SealedBytes, NextFrame, Apply, ApplyChunk, PayloadOf;
    var n := st.chunks + 1;
    var cut := Layout(log, n)[..k];
    if log == [] {
      ScanLog([], [], first, st);
      EmptyFrame(first);
    } else {
      var bytes := SealedBytes(log[0], n);
      var tail := Layout(log[1..], n + 1);
      if k < |bytes| {
        assert cut == bytes[..k];
        CutFrame(log[0], n, k, first);
      } else {
        var st1 := ApplyChunk(st, log[0]).value;
        var j := WholeChunks(log[1..], n + 1, k - |bytes|);
        assert cut == bytes + tail[..k - |bytes|];
        hide Scan;
        ApplyCounts(st, log[0]);
        SoundLength(log[0], n);
        ScanChunk(log[0], tail[..k - |bytes|], first, st);
        ScanCut(log[1..], k - |bytes|, false, st1);
        assert log[..j + 1][1..] == log[1..][..j];
      }
    }
  }

  lemma EmptyFrame(first: bool)
    ensures NextFrame([], first) == End(false)
  {
  }

  // ---- Files ----

  function FileOf(h: Header.FileHeader, log: seq<LogChunk>): seq<byte>
    requires Header.Fits(h)
  {
    Header.HeaderBytes(h) + Layout(log, 1)
  }

  /** A journal that means something: its chunks are sound and replay. */
  predicate Good(log: seq<LogChunk>) {
    AllSound(log) && |log| < TWO_64 && Replay(NOTHING, log).Ok?
  }

  function SessionOf(h: Header.FileHeader, log: seq<LogChunk>, torn: bool): Session
    requires Good(log)
  {
    var st := Replay(NOTHING, log).value;
    Session(Header.AsRead(h), st.names, st.events, |log|, torn)
  }

  /** Opening a written header with any bytes behind it. */
  lemma OpenBehindHeader(h: Header.FileHeader, body: seq<byte>)
    requires Header.Fits(h)
    ensures Opened(Header.HeaderBytes(h) + body) ==
            match Scan(body, true, NOTHING)
            case Ok((st, torn)) => Ok(Session(Header.AsRead(h), st.names, st.events, st.chunks, torn))
            case Err(e) => Err(e)
  {
    hide Scan, Header.Decode, Header.HeaderBytes, Header.AsRead;
    var file := Header.HeaderBytes(h) + body;
    Header.HeaderRoundTrip(h);
    assert file[..128] == Header.HeaderBytes(h) && file[128..] == body;
  }

  lemma {:induction false} ReplayPrefix(st: Recovered, log: seq<LogChunk>, j: nat)
    requires j <= |log| && Replay(st, log).Ok?
    ensures Replay(st, log[..j]).Ok?
  {
    hide Replay;
    ReplayConcat(st, log[..j], log[j..]);
    assert log[..j] + log[j..] == log;
  }

  lemma GoodPrefix(log: seq<LogChunk>, j: nat)
    requires j <= |log| && Good(log)
    ensures Good(log[..j])
  {
    hide Sound, Replay;
    ReplayPrefix(NOTHING, log, j);
  }

  /**
   Opening a good journal cut anywhere behind its file header yields exactly the dictionary and events of the
   chunks wholly inside the cut, and reports a torn tail exactly when the cut is not at a chunk boundary.
   */
  lemma OpenTruncated(h: Header.FileHeader, log: seq<LogChunk>, n: nat)
    requires Header.Fits(h) && Good(log) && 128 <= n <= |FileOf(h, log)|
    ensures var j := WholeChunks(log, 1, n - 128);
            && Good(log[..j])
            && Opened(FileOf(h, log)[..n]) == Ok(SessionOf(h, log[..j], n != |FileOf(h, log[..j])|))
            && |FileOf(h, log[..j])| <= n
            && (j < |log| ==> n < |FileOf(h, log[..j + 1])|)
  {
    hide Sound, Scan, Layout, Replay, WholeChunks, Header.HeaderBytes, Header.AsRead, Opened;
    var body := Layout(log, 1)[..n - 128];
    var j := WholeChunks(log, 1, n - 128);
    assert FileOf(h, log)[..n] == Header.HeaderBytes(h) + body;
    OpenBehindHeader(h, body);
    ScanCut(log, n - 128, true, NOTHING);
    WholeChunksFit(log, 1, n - 128);
    GoodPrefix(log, j);
    ReplayCounts(NOTHING, log[..j]);
  }

  /** Opening a good journal yields its meaning, with no torn tail. */
  lemma OpenComplete(h: Header.FileHeader, log: seq<LogChunk>)
    requires Header.Fits(h) && Good(log)
    ensures Opened(FileOf(h, log)) == Ok(SessionOf(h, log, false))
  {
    hide Sound, Scan, Replay, Layout, Header.HeaderBytes, Header.AsRead, NextFrame, Opened;
    OpenBehindHeader(h, Layout(log, 1));
    assert Layout(log, 1) + [] == Layout(log, 1);
    ScanLog(log, [], true, NOTHING);
    ReplayCounts(NOTHING, log);
    ScanNothing(log == [], Replay(NOTHING, log).value);
  }

  lemma ScanNothing(first: bool, st: Recovered)
    ensures Scan([], first, st) == Ok((st, false))
  {
    EmptyFrame(first);
  }

  // ---- Corruption ----

  /** Where the payload of chunk `j` starts in the file. */
  function PayloadStart(log: seq<LogChunk>, j: nat): nat
    requires j < |log|
  {
    128 + |Layout(log[..j], 1)| + CHUNK_HEADER_SIZE
  }

  /** `s` and `t` differ, but only at positions from `at` up to `at + m`. */
  ghost predicate DifferWithin(s: seq<byte>, t: seq<byte>, at: nat, m: nat) {
    |s| == |t| && s != t && at + m <= |s| && s[..at] == t[..at] && s[at + m..] == t[at + m..]
  }

  lemma LayoutSplit(log: seq<LogChunk>, j: nat)
    requires j < |log|
    ensures Layout(log, 1) == Layout(log[..j], 1) + (SealedBytes(log[j], j + 1) + Layout(log[j + 1..], j + 2))
  {
    hide SealedBytes;
    var c := log[j];
    assert log == log[..j] + ([c] + log[j + 1..]);
    LayoutConcat(log[..j], [c] + log[j + 1..], 1);
    assert ([c] + log[j + 1..])[1..] == log[j + 1..];
  }

  /** A window that lies inside the middle part changes only the middle part. */
  lemma DamageInMiddle(s: seq<byte>, t: seq<byte>, at: nat, m: nat, front: seq<byte>, mid: seq<byte>, back: seq<byte>)
    returns (bad: seq<byte>)
    requires DifferWithin(s, t, at, m) && s == front + mid + back
    requires |front| <= at && at + m <= |front| + |mid|
    ensures t == front + bad + back && |bad| == |mid|
    ensures var off := at - |front|; bad != mid && bad[..off] == mid[..off] && bad[off + m..] == mid[off + m..]
  {
    var a, e := |front|, |front| + |mid|;
    bad := t[a..e];
    MiddleOf(front, mid, back);
    SameFront(s, t, at, a);
    SameBack(s, t, at + m, e);
    assert t == t[..a] + bad + t[e..];
    SliceOfSlice(s, a, e, 0, at - a);
    SliceOfSlice(t, a, e, 0, at - a);
    SliceOfSlice(s, a, e, at - a + m, e - a);
    SliceOfSlice(t, a, e, at - a + m, e - a);
    assert bad[..at - a] == bad[0..at - a] && mid[..at - a] == mid[0..at - a];
  }

  lemma MiddleOf(front: seq<byte>, mid: seq<byte>, back: seq<byte>)
    ensures var s, a, e := front + mid + back, |front|, |front| + |mid|;
            s[..a] == front && s[a..e] == mid && s[e..] == back
  {
  }

  lemma SameFront(s: seq<byte>, t: seq<byte>, at: nat, a: nat)
    requires a <= at <= |s| && at <= |t| && s[..at] == t[..at]
    ensures s[..a] == t[..a] && s[a..at] == t[a..at]
  {
    assert s[..at][..a] == s[..a] && t[..at][..a] == t[..a];
    assert s[..at][a..] == s[a..at] && t[..at][a..] == t[a..at];
  }

  lemma SameBack(s: seq<byte>, t: seq<byte>, k: nat, e: nat)
    requires k <= e <= |s| == |t| && s[k..] == t[k..]
    ensures s[e..] == t[e..] && s[k..e] == t[k..e]
  {
    assert s[k..][e - k..] == s[e..] && t[k..][e - k..] == t[e..];
    assert s[k..][..e - k] == s[k..e] && t[k..][..e - k] == t[k..e];
  }

  lemma PayloadDamageDetected(good: seq<byte>, bad: seq<byte>, off: nat, m: nat)
    requires |bad| == |good| && m <= 4 && off + m <= |good| && bad != good
    requires bad[..off] == good[..off] && bad[off + m..] == good[off + m..]
    ensures Crc32.Checksum(bad) != Crc32.Checksum(good)
  {
    hide Crc32.Checksum;
    var v, w := good[off..off + m], bad[off..off + m];
    assert good == good[..off] + v + good[off + m..];
    assert bad == good[..off] + w + good[off + m..];
    Crc32.BurstDetected(good[..off], v, w, good[off + m..]);
  }

  /** Any damage to the payload field of chunk `j` that its checksum shows makes opening fail, naming the chunk. */
  lemma OpenDamaged(h: Header.FileHeader, log: seq<LogChunk>, j: nat, bad: seq<byte>, back: seq<byte>)
    requires Header.Fits(h) && Good(log) && j < |log| && PayloadOf(log[j]).Ok?
    requires |bad| == |PayloadOf(log[j]).value| <= MAX_CHUNK_PAYLOAD
    requires Crc32.Checksum(bad) != Crc32.Checksum(PayloadOf(log[j]).value)
    ensures var ch := Chunk.ChunkHeader(ChunkType(log[j]), j + 1, |bad|);
            var sum := Crc32.Checksum(PayloadOf(log[j]).value);
            Opened(Header.HeaderBytes(h) + (Layout(log[..j], 1)
                   + (Chunk.HeaderBytes(ch) + bad + LE32(sum) + LE32(COMMITTED_MARKER) + back)))
            == Err(ChecksumMismatch(j + 1))
  {
    hide Sound, Layout, Replay, NextFrame, PayloadOf, Apply, Opened, Header.HeaderBytes, Chunk.HeaderBytes,
         Crc32.Checksum, Header.AsRead, LE32;
    var ch := Chunk.ChunkHeader(ChunkType(log[j]), j + 1, |bad|);
    var sum := Crc32.Checksum(PayloadOf(log[j]).value);
    var rest := Chunk.HeaderBytes(ch) + bad + LE32(sum) + LE32(COMMITTED_MARKER) + back;
    var first := true && log[..j] == [];
    GoodPrefix(log, j);
    var st := Replay(NOTHING, log[..j]).value;
    OpenBehindHeader(h, Layout(log[..j], 1) + rest);
    ScanLog(log[..j], rest, true, NOTHING);
    LaidOutFrame(ch, bad, sum, back, first);
    assert Scan(rest, first, st) == Err(ChecksumMismatch(j + 1));
  }

  lemma Regroup<T>(a: seq<T>, b: seq<T>, c: seq<T>, d: seq<T>, e: seq<T>, f: seq<T>, g: seq<T>)
    ensures a + (b + (c + d + e + f + g)) == a + b + c + d + (e + f + g)
  {
  }

  lemma Assemble<T>(a: seq<T>, b: seq<T>, c: seq<T>, d: seq<T>, e: seq<T>, f: seq<T>, g: seq<T>,
                    sealed: seq<T>, layout: seq<T>, file: seq<T>)
    requires sealed == c + d + e + f && layout == b + (sealed + g) && file == a + layout
    ensures file == a + b + c + d + (e + f + g)
  {
    Regroup(a, b, c, d, e, f, g);
  }

  lemma GoodChunk(log: seq<LogChunk>, j: nat)
    requires Good(log) && j < |log|
    ensures AllSound(log) && Sound(log[j])
    ensures j + 1 < 0x1_0000_0000_0000_0000 && (j + 1) % TWO_64 == j + 1
  {
  }

  lemma SoundPayload(c: LogChunk)
    requires Sound(c)
    ensures PayloadOf(c).Ok? && |PayloadOf(c).value| <= MAX_CHUNK_PAYLOAD
  {
  }

  lemma FileParts(h: Header.FileHeader, log: seq<LogChunk>)
    requires Header.Fits(h)
    ensures FileOf(h, log) == Header.HeaderBytes(h) + Layout(log, 1)
  {
  }

  lemma PayloadStartIs(log: seq<LogChunk>, j: nat)
    requires j < |log|
    ensures PayloadStart(log, j) == 128 + |Layout(log[..j], 1)| + CHUNK_HEADER_SIZE
  {
  }

  /** The file around the payload of chunk `j`. */
  lemma FileAround(h: Header.FileHeader, log: seq<LogChunk>, j: nat)
    returns (front: seq<byte>, payload: seq<byte>, ch: Chunk.ChunkHeader, back: seq<byte>)
    requires Header.Fits(h) && Good(log) && j < |log|
    ensures Sound(log[j]) && payload == PayloadOf(log[j]).value
    ensures ch == Chunk.ChunkHeader(ChunkType(log[j]), j + 1, |payload|)
    ensures front == Header.HeaderBytes(h) + Layout(log[..j], 1) + Chunk.HeaderBytes(ch)
    ensures |front| == PayloadStart(log, j)
    ensures FileOf(h, log) == front + payload + (LE32(Crc32.Checksum(payload)) + LE32(COMMITTED_MARKER) + back)
  {
    hide *;
    GoodChunk(log, j);
    var n: u64 := j + 1;
    SoundPayload(log[j]);
    payload := PayloadOf(log[j]).value;
    LayoutSplit(log, j);
    SoundBytes(log[j], j + 1);
    FileParts(h, log);
    ch := Chunk.ChunkHeader(ChunkType(log[j]), n, |payload|);
    back := Layout(log[j + 1..], j + 2);
    var a, b, c, s := Header.HeaderBytes(h), Layout(log[..j], 1), Chunk.HeaderBytes(ch), LE32(Crc32.Checksum(payload));
    front := a + b + c;
    assert |front| == 128 + |b| + CHUNK_HEADER_SIZE;
    PayloadStartIs(log, j);
    Assemble(a, b, c, payload, s, LE32(COMMITTED_MARKER), back, SealedBytes(log[j], j + 1), Layout(log, 1),
        FileOf(h, log));
  }

  lemma OpenDamagedAround(h: Header.FileHeader, log: seq<LogChunk>, j: nat, bad: seq<byte>, back: seq<byte>)
    requires Header.Fits(h) && Good(log) && j < |log| && PayloadOf(log[j]).Ok?
    requires |bad| == |PayloadOf(log[j]).value| <= MAX_CHUNK_PAYLOAD
    requires Crc32.Checksum(bad) != Crc32.Checksum(PayloadOf(log[j]).value)
    ensures var ch := Chunk.ChunkHeader(ChunkType(log[j]), j + 1, |bad|);
            var sum := Crc32.Checksum(PayloadOf(log[j]).value);
            Opened(Header.HeaderBytes(h) + Layout(log[..j], 1) + Chunk.HeaderBytes(ch) + bad
                   + (LE32(sum) + LE32(COMMITTED_MARKER) + back))
            == Err(ChecksumMismatch(j + 1))
  {
    OpenDamaged(h, log, j, bad, back);
    var ch := Chunk.ChunkHeader(ChunkType(log[j]), j + 1, |bad|);
    var sum := LE32(Crc32.Checksum(PayloadOf(log[j]).value));
    hide *;
    Regroup(Header.HeaderBytes(h), Layout(log[..j], 1), Chunk.HeaderBytes(ch), bad, sum, LE32(COMMITTED_MARKER), back);
  }

  /**
   Changing any bytes inside a window of at most four consecutive payload bytes of any chunk of a good journal
   makes opening it fail with that chunk's checksum mismatch.
   */
  lemma BurstRejected(h: Header.FileHeader, log: seq<LogChunk>, j: nat, file: seq<byte>, at: nat, m: nat, t: seq<byte>)
    requires Header.Fits(h) && Good(log) && file == FileOf(h, log)
    requires j < |log| && PayloadOf(log[j]).Ok?
    requires m <= 4 && PayloadStart(log, j) <= at && at + m <= PayloadStart(log, j) + |PayloadOf(log[j]).value|
    requires DifferWithin(file, t, at, m)
    ensures Opened(t) == Err(ChecksumMismatch(j + 1))
  {
    var bad, back := DamagedPayload(h, log, j, file, at, m, t);
    hide *;
    OpenDamagedAround(h, log, j, bad, back);
  }

  lemma DamagedPayload(h: Header.FileHeader, log: seq<LogChunk>, j: nat, file: seq<byte>, at: nat, m: nat, t: seq<byte>)
    returns (bad: seq<byte>, back: seq<byte>)
    requires Header.Fits(h) && Good(log) && file == FileOf(h, log)
    requires j < |log| && PayloadOf(log[j]).Ok?
    requires m <= 4 && PayloadStart(log, j) <= at && at + m <= PayloadStart(log, j) + |PayloadOf(log[j]).value|
    requires DifferWithin(file, t, at, m)
    ensures |bad| == |PayloadOf(log[j]).value| <= MAX_CHUNK_PAYLOAD
    ensures Crc32.Checksum(bad) != Crc32.Checksum(PayloadOf(log[j]).value)
    ensures j + 1 < TWO_64
    ensures t == Header.HeaderBytes(h) + Layout(log[..j], 1)
                 + Chunk.HeaderBytes(Chunk.ChunkHeader(ChunkType(log[j]), j + 1, |bad|)) + bad
                 + (LE32(Crc32.Checksum(PayloadOf(log[j]).value)) + LE32(COMMITTED_MARKER) + back)
  {
    assert j + 1 < TWO_64;
    var front, payload, ch, rest := FileAround(h, log, j);
    back := rest;
    SoundPayload(log[j]);
    hide *;
    bad := FindDamage(file, t, at, m, front, payload, LE32(Crc32.Checksum(payload)) + LE32(COMMITTED_MARKER) + rest);
  }

  lemma FindDamage(s: seq<byte>, t: seq<byte>, at: nat, m: nat, front: seq<byte>, mid: seq<byte>, back: seq<byte>)
    returns (bad: seq<byte>)
    requires DifferWithin(s, t, at, m) && s == front + mid + back
    requires |front| <= at && at + m <= |front| + |mid| && m <= 4
    ensures t == front + bad + back && |bad| == |mid|
    ensures Crc32.Checksum(bad) != Crc32.Checksum(mid)
  {
    hide *;
    bad := DamageInMiddle(s, t, at, m, front, mid, back);
    PayloadDamageDetected(mid, bad, at - |front|, m);
  }
}
