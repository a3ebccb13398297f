/** Normative constants and structured errors of the DTJ v1 byte format. */
module Format {
  import opened Wrappers
  import opened Bytes

  const FILE_MAGIC: seq<byte> := [0x44, 0x54, 0x4A, 0x31]   // DTJ1
  const CHUNK_MAGIC: seq<byte> := [0x44, 0x54, 0x4A, 0x43]  // DTJC
  const FORMAT_VERSION: u16 := 1
  const HEADER_SIZE: u16 := 128
  const CHUNK_HEADER_SIZE: nat := 24
  const CHUNK_TRAILER_SIZE: nat := 8
  const ENDIAN_MAGIC: u32 := 0x0102_0304
  const COMMITTED_MARKER: u32 := 0xD7C0_FFEE

  const MAX_CHUNK_PAYLOAD: u32 := 16_777_216
  const MAX_DICT_NAME_LEN: u16 := 1_024
  const MAX_DICT_ENTRIES: u32 := 65_535
  const MAX_EVENTS_PER_CHUNK: u32 := 65_535
  const MAX_EVENT_PAYLOAD: u32 := 65_535
  const MAX_BYTES_VALUE: u16 := 4_096
  const MAX_FIELDS: u16 := 65_535

  const CHUNK_TYPE_DICTIONARY: u16 := 1
  const CHUNK_TYPE_EVENT: u16 := 2

  /** What a malformed record is malformed about. */
  datatype Malformed =
    | HeaderTruncated
    | ChunkHeaderTruncated
    | UnknownDictKind(kind: byte)
    | ZeroDictId
    | DictCountTruncated
    | DictEntryTruncated
    | DictNameLengthTruncated
    | DictNameTruncated
    | DictNameNotUtf8
    | EventCountTruncated
    | EventHeaderTruncated
    | EventPayloadTruncated
    | FieldCountTruncated
    | FieldHeaderTruncated
    | ValueTruncated(tag: byte)
    | TrailingBytes(count: nat)

  datatype Limit = NameLength | DictEntries | ChunkEvents | EventPayload | FieldCount | BytesLength
                 | ProducerName | ProducerVersion

  datatype Error =
    | Io
    | InvalidMagic
    | UnsupportedVersion(version: u16)
    | InvalidHeaderSize(size: u16)
    | InvalidEndian
    | InvalidChunkMagic
    | ChecksumMismatch(sequence: u64)
    | SequenceGap(expected: nat, found: u64)
    | PayloadTooLarge(len: u32, max: u32)
    | MalformedRecord(what: Malformed)
    | UnknownDictionaryId(kind: byte, id: u32)
    | DuplicateDictionaryId(dupKind: byte, dupId: u32)
    | UnknownTypeTag(tag: byte)
    | InvalidSeverity(severity: byte)
    | LimitExceeded(limit: Limit)
    | SessionClosed

  type Result<+T> = Fallible<T, Error>
}
