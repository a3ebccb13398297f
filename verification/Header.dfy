/** The fixed 128-byte file header. */
module Header {
  import opened Wrappers
  import opened Bytes
  import opened Format
  import opened Utf8
  import Chunk

  datatype FileHeader = FileHeader(
    formatVersion: u16,
    flags: u32,
    sessionId: seq<byte>,
    startUtcUnixMs: i64,
    monoOriginNs: u64,
    producerName: Text,
    producerVersion: Text)

  /** Headers the encoder can lay out: the fields fit their slots. */
  predicate Fits(h: FileHeader) {
    |h.sessionId| == 16 && |h.producerName| <= 32 && |h.producerVersion| <= 16
  }

  /** A header whose fields fit their slots. */
  type Laid = h: FileHeader | Fits(h) witness FileHeader(1, 0, Zeros(16), 0, 0, [], [])

  function New(sessionId: seq<byte>, startUtcUnixMs: i64, monoOriginNs: u64, name: Text, version: Text)
    : (r: Result<FileHeader>)
    requires |sessionId| == 16
    ensures r.Ok? <==> |name| <= 32 && |version| <= 16
    ensures r.Ok? ==> Fits(r.value) && r.value.producerName == name && r.value.producerVersion == version
  {
    if |name| > 32 then Err(LimitExceeded(ProducerName))
    else if |version| > 16 then Err(LimitExceeded(ProducerVersion))
    else Ok(FileHeader(FORMAT_VERSION, 0, sessionId, startUtcUnixMs, monoOriginNs, name, version))
  }

  /** `s` in a slot of `n` bytes, padded with NUL. */
  function Padded(s: seq<byte>, n: nat): (p: seq<byte>)
    requires |s| <= n
    ensures |p| == n
  {
    s + Zeros(n - |s|)
  }

  function FixedPart(h: FileHeader): (b: seq<byte>)
    requires Fits(h)
    ensures |b| == 48
  {
    FILE_MAGIC + LE16(FORMAT_VERSION) + LE16(HEADER_SIZE) + LE32(ENDIAN_MAGIC) + LE32(h.flags)
    + h.sessionId + LE64(Unsigned64(h.startUtcUnixMs)) + LE64(h.monoOriginNs)
  }

  function HeaderBytes(h: FileHeader): (b: seq<byte>)
    requires Fits(h)
    ensures |b| == 128
  {
    FixedPart(h) + Padded(h.producerName, 32) + Padded(h.producerVersion, 16) + Zeros(32)
  }

  method Encode(h: FileHeader) returns (b: seq<byte>)
    requires Fits(h)
    ensures b == HeaderBytes(h)
  {
    hide FixedPart;
    var buf := new byte[128](i => 0);
    assert buf[..] == [] + Zeros(128);
    FillFixedPart(buf, h);
    ghost var done := Put(buf, 48, FixedPart(h), h.producerName);
    ghost var named := FixedPart(h) + Padded(h.producerName, 32);
    assert buf[..] == named + Zeros(48);
    done := Put(buf, 80, named, h.producerVersion);
    b := buf[..];
    assert b == named + Padded(h.producerVersion, 16) + Zeros(32);
  }

  method FillFixedPart(buf: array<byte>, h: FileHeader)
    requires Fits(h) && buf.Length == 128 && buf[..] == [] + Zeros(128)
    modifies buf
    ensures buf[..] == FixedPart(h) + Zeros(80)
  {
    hide LE16, LE32, LE64, Zeros;
    ghost var done := Put(buf, 0, [], FILE_MAGIC);
    assert done == FILE_MAGIC;
    done := Put(buf, 4, done, LE16(FORMAT_VERSION));
    done := Put(buf, 6, done, LE16(HEADER_SIZE));
    done := Put(buf, 8, done, LE32(ENDIAN_MAGIC));
    done := Put(buf, 12, done, LE32(h.flags));
    done := Put(buf, 16, done, h.sessionId);
    done := Put(buf, 32, done, LE64(Unsigned64(h.startUtcUnixMs)));
    done := Put(buf, 40, done, LE64(h.monoOriginNs));
  }

  /** Stores `src` behind the bytes already in place; what follows stays NUL. */
  method Put(buf: array<byte>, at: nat, ghost done: seq<byte>, src: seq<byte>) returns (ghost more: seq<byte>)
    requires buf.Length == 128 && at == |done| && at + |src| <= 128
    requires buf[..] == done + Zeros(128 - at)
    modifies buf
    ensures more == done + src
    ensures buf[..] == more + Zeros(128 - |more|)
  {
    Chunk.Store(buf, at, src);
    more := done + src;
  }

  /** Bytes up to the first NUL, or all of them. */
  function UpToNul(s: seq<byte>): (t: seq<byte>)
    ensures t <= s && 0 !in t
    ensures |t| < |s| ==> s[|t|] == 0
  {
    if s == [] || s[0] == 0 then [] else [s[0]] + UpToNul(s[1..])
  }

  function NulTerminated(s: seq<byte>): Text { Lossy(UpToNul(s)) }

  function Decode(buf: seq<byte>): Result<FileHeader> {
    if |buf| < 128 then Err(MalformedRecord(HeaderTruncated))
    else if buf[0..4] != FILE_MAGIC then Err(InvalidMagic)
    else if U16(buf[4..6]) != FORMAT_VERSION then Err(UnsupportedVersion(U16(buf[4..6])))
    else if U16(buf[6..8]) != HEADER_SIZE then Err(InvalidHeaderSize(U16(buf[6..8])))
    else if buf[8..12] != LE32(ENDIAN_MAGIC) then Err(InvalidEndian)
    else Ok(FileHeader(U16(buf[4..6]), U32(buf[12..16]), buf[16..32], Signed64(U64(buf[32..40])), U64(buf[40..48]),
                       NulTerminated(buf[48..80]), NulTerminated(buf[80..96])))
  }

  lemma NameReadsBack(name: Text, n: nat)
    requires |name| <= n
    ensures NulTerminated(Padded(name, n)) == UpToNul(name)
    ensures 0 !in name <==> UpToNul(name) == name
  {
    PadAfterNul(name, n);
    CutAtNul(name);
  }

  lemma {:induction false} PadAfterNul(s: seq<byte>, n: nat)
    requires |s| <= n
    ensures UpToNul(Padded(s, n)) == UpToNul(s)
  {
    if s != [] && s[0] != 0 {
      assert Padded(s, n)[1..] == Padded(s[1..], n - 1);
      PadAfterNul(s[1..], n - 1);
    }
  }

  lemma CutAtNul(name: Text)
    ensures Valid(UpToNul(name))
    ensures |UpToNul(name)| < |name| <==> 0 in name
  {
    var t := UpToNul(name);
    assert t == name[..|t|];
    if |t| < |name| {
      ValidBeforeAscii(name, |t|);
    } else {
      assert t == name;
    }
  }

  /** The header as the reader gives it back: names end at their first NUL. */
  function AsRead(h: FileHeader): FileHeader {
    CutAtNul(h.producerName);
    CutAtNul(h.producerVersion);
    h.(formatVersion := FORMAT_VERSION,
       producerName := UpToNul(h.producerName), producerVersion := UpToNul(h.producerVersion))
  }

  lemma HeaderRoundTrip(h: FileHeader)
    requires Fits(h)
    ensures Decode(HeaderBytes(h)) == Ok(AsRead(h))
  {
    hide LE16, LE32, LE64, U16, U32, U64, UpToNul, NulTerminated, Padded;
    var b := HeaderBytes(h);
    assert b[4..6] == LE16(FORMAT_VERSION) && b[6..8] == LE16(HEADER_SIZE) && b[8..12] == LE32(ENDIAN_MAGIC);
    assert b[12..16] == LE32(h.flags) && b[16..32] == h.sessionId;
    assert b[32..40] == LE64(Unsigned64(h.startUtcUnixMs)) && b[40..48] == LE64(h.monoOriginNs);
    assert b[48..80] == Padded(h.producerName, 32) && b[80..96] == Padded(h.producerVersion, 16);
    NameReadsBack(h.producerName, 32);
    NameReadsBack(h.producerVersion, 16);
  }

  /** A header made by `New` reads back unchanged exactly when neither name holds a NUL byte. */
  lemma HeaderUnchangedIff(h: FileHeader)
    requires Fits(h) && h.formatVersion == FORMAT_VERSION
    ensures Decode(HeaderBytes(h)) == Ok(h) <==> 0 !in h.producerName && 0 !in h.producerVersion
  {
    hide HeaderBytes, Decode;
    HeaderRoundTrip(h);
    CutAtNul(h.producerName);
    CutAtNul(h.producerVersion);
    if 0 !in h.producerName && 0 !in h.producerVersion {
      assert UpToNul(h.producerName) == h.producerName && UpToNul(h.producerVersion) == h.producerVersion;
    } else {
      assert AsRead(h).producerName != h.producerName || AsRead(h).producerVersion != h.producerVersion;
    }
  }
}
