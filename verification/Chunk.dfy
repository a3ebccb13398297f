/** Committed chunks: header, payload, checksum, commit marker. */
module Chunk {
  import opened Wrappers
  import opened Bytes
  import opened Format
  import Crc32

  datatype ChunkHeader = ChunkHeader(chunkType: u16, sequence: u64, payloadLen: u32)

  const OVERHEAD: nat := CHUNK_HEADER_SIZE + CHUNK_TRAILER_SIZE

  function HeaderBytes(h: ChunkHeader): (b: seq<byte>)
    ensures |b| == CHUNK_HEADER_SIZE && b[..4] == CHUNK_MAGIC
  {
    CHUNK_MAGIC + LE16(h.chunkType) + LE16(0) + LE64(h.sequence) + LE32(h.payloadLen) + LE32(0)
  }

  function DecodeHeader(buf: seq<byte>): Result<ChunkHeader> {
    if |buf| < CHUNK_HEADER_SIZE then Err(MalformedRecord(ChunkHeaderTruncated))
    else if buf[0..4] != CHUNK_MAGIC then Err(InvalidChunkMagic)
    else Ok(ChunkHeader(U16(buf[4..6]), U64(buf[8..16]), U32(buf[16..20])))
  }

  /** Fills a 24-byte buffer field by field. */
  method EncodeHeader(h: ChunkHeader) returns (b: seq<byte>)
    ensures b == HeaderBytes(h)
  {
    hide LE16, LE32, LE64;
    var buf := new byte[CHUNK_HEADER_SIZE](i => 0);
    Store(buf, 0, CHUNK_MAGIC);
    Store(buf, 4, LE16(h.chunkType));
    Store(buf, 6, LE16(0));
    Store(buf, 8, LE64(h.sequence));
    Store(buf, 16, LE32(h.payloadLen));
    Store(buf, 20, LE32(0));
    b := buf[..];
    assert b[0..4] == CHUNK_MAGIC && b[4..6] == LE16(h.chunkType) && b[6..8] == LE16(0);
    assert b[8..16] == LE64(h.sequence) && b[16..20] == LE32(h.payloadLen) && b[20..24] == LE32(0);
    assert b == b[0..4] + b[4..6] + b[6..8] + b[8..16] + b[16..20] + b[20..24];
  }

  /** Copies `src` into `buf` at `at`; every other byte stays. */
  method Store(buf: array<byte>, at: nat, src: seq<byte>)
    requires at + |src| <= buf.Length
    modifies buf
    ensures buf[..] == old(buf[..at]) + src + old(buf[at + |src|..])
  {
    for i := 0 to |src|
      invariant buf[..at] == old(buf[..at]) && buf[at..at + i] == src[..i] && buf[at + i..] == old(buf[at + i..])
    {
      buf[at + i] := src[i];
    }
    assert buf[..] == buf[..at] + buf[at..at + |src|] + buf[at + |src|..];
  }

  /** The chunk's bytes, as the writer's 32-bit length check and length field make them. */
  function Committed(chunkType: u16, sequence: u64, payload: seq<byte>): Result<seq<byte>> {
    var len := |payload| % TWO_32;
    if len > MAX_CHUNK_PAYLOAD then Err(PayloadTooLarge(len, MAX_CHUNK_PAYLOAD))
    else Ok(HeaderBytes(ChunkHeader(chunkType, sequence, len)) + payload
            + LE32(Crc32.Checksum(payload)) + LE32(COMMITTED_MARKER))
  }

  method EncodeCommittedChunk(chunkType: u16, sequence: u64, payload: seq<byte>) returns (r: Result<seq<byte>>)
    ensures r == Committed(chunkType, sequence, payload)
  {
    hide HeaderBytes, Crc32.Checksum, LE32;
    if |payload| % TWO_32 > MAX_CHUNK_PAYLOAD {
      return Err(PayloadTooLarge(|payload| % TWO_32, MAX_CHUNK_PAYLOAD));
    }
    var header := EncodeHeader(ChunkHeader(chunkType, sequence, |payload| % TWO_32));
    var out := header;
    out := out + payload;
    var sum := Crc32.Crc32(payload);
    out := out + LE32(sum);
    out := out + LE32(COMMITTED_MARKER);
    return Ok(out);
  }

  lemma HeaderRoundTrip(h: ChunkHeader)
    ensures DecodeHeader(HeaderBytes(h)) == Ok(h)
  {
    hide LE16, LE32, LE64, U16, U32, U64;
    var b := HeaderBytes(h);
    assert b[4..6] == LE16(h.chunkType) && b[8..16] == LE64(h.sequence) && b[16..20] == LE32(h.payloadLen);
  }

  /** A chunk is refused unless its length modulo 2^32 is in range; its length field is right only below 2^32. */
  lemma LengthFieldHonestIff(chunkType: u16, sequence: u64, payload: seq<byte>)
    requires Committed(chunkType, sequence, payload).Ok?
    ensures |Committed(chunkType, sequence, payload).value| == OVERHEAD + |payload|
    ensures DecodeHeader(Committed(chunkType, sequence, payload).value[..CHUNK_HEADER_SIZE]).Ok?
    ensures var header := Committed(chunkType, sequence, payload).value[..CHUNK_HEADER_SIZE];
            var len := DecodeHeader(header).value.payloadLen;
            len == |payload| <==> |payload| < TWO_32
  {
    hide HeaderBytes, DecodeHeader, Crc32.Checksum, LE32;
    var h := ChunkHeader(chunkType, sequence, |payload| % TWO_32);
    HeaderRoundTrip(h);
    assert Committed(chunkType, sequence, payload).value[..CHUNK_HEADER_SIZE] == HeaderBytes(h);
  }
}
