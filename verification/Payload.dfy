/** The typed payload codec. Floats are carried as their bit patterns. */
module Payload {
  import opened Wrappers
  import opened Bytes
  import opened Format

  datatype Value =
    | Bool(b: bool)
    | I32(i: i32)
    | I64(l: i64)
    | U32Value(u: u32)
    | U64Value(ul: u64)
    | F32(f: u32)
    | F64(d: u64)
    | Enum(e: u32)
    | Vec2F32(x2: u32, y2: u32)
    | Vec3F32(x3: u32, y3: u32, z3: u32)
    | InternedString(id: u32)
    | Blob(bytes: seq<byte>)

  datatype Field = Field(nameId: u32, value: Value)

  datatype TypedPayload = TypedPayload(fields: seq<Field>)

  const TYPE_BOOL: byte := 0x01
  const TYPE_I32: byte := 0x02
  const TYPE_I64: byte := 0x03
  const TYPE_U32: byte := 0x04
  const TYPE_U64: byte := 0x05
  const TYPE_F32: byte := 0x06
  const TYPE_F64: byte := 0x07
  const TYPE_ENUM: byte := 0x08
  const TYPE_VEC2_F32: byte := 0x09
  const TYPE_VEC3_F32: byte := 0x0A
  const TYPE_INTERNED: byte := 0x0B
  const TYPE_BYTES: byte := 0x0C

  function Tag(v: Value): byte {
    match v
    case Bool(_) => TYPE_BOOL
    case I32(_) => TYPE_I32
    case I64(_) => TYPE_I64
    case U32Value(_) => TYPE_U32
    case U64Value(_) => TYPE_U64
    case F32(_) => TYPE_F32
    case F64(_) => TYPE_F64
    case Enum(_) => TYPE_ENUM
    case Vec2F32(_, _) => TYPE_VEC2_F32
    case Vec3F32(_, _, _) => TYPE_VEC3_F32
    case InternedString(_) => TYPE_INTERNED
    case Blob(_) => TYPE_BYTES
  }

  predicate ValueFits(v: Value) {
    v.Blob? ==> |v.bytes| <= MAX_BYTES_VALUE
  }

  /** The value bytes after the field header. */
  function Body(v: Value): seq<byte>
    requires ValueFits(v)
  {
    match v
    case Bool(b) => [if b then 1 else 0]
    case I32(i) => LE32(Unsigned32(i))
    case I64(l) => LE64(Unsigned64(l))
    case U32Value(u) => LE32(u)
    case U64Value(ul) => LE64(ul)
    case F32(f) => LE32(f)
    case F64(d) => LE64(d)
    case Enum(e) => LE32(e)
    case Vec2F32(x, y) => LE32(x) + LE32(y)
    case Vec3F32(x, y, z) => LE32(x) + LE32(y) + LE32(z)
    case InternedString(id) => LE32(id)
    case Blob(bytes) => LE32(|bytes|) + bytes
  }

  function EncodeValue(v: Value): Result<(byte, seq<byte>)> {
    if !ValueFits(v) then Err(LimitExceeded(BytesLength)) else Ok((Tag(v), Body(v)))
  }

  /** Bytes a fixed-width value takes; 0 for the other tags. */
  function Width(tag: byte): nat {
    if tag == TYPE_BOOL then 1
    else if tag in {TYPE_I32, TYPE_U32, TYPE_F32, TYPE_ENUM, TYPE_INTERNED} then 4
    else if tag in {TYPE_I64, TYPE_U64, TYPE_F64, TYPE_VEC2_F32} then 8
    else if tag == TYPE_VEC3_F32 then 12
    else 0
  }

  /** Reads one value at the front of `buf`, and says how many bytes it took. */
  function DecodeValue(tag: byte, buf: seq<byte>): (r: Result<(Value, nat)>)
    ensures r.Ok? ==> r.value.1 <= |buf|
  {
    if tag == TYPE_BYTES then
      if |buf| < 4 then Err(MalformedRecord(ValueTruncated(tag)))
      else
        var len := U32(buf[..4]);
        if len > MAX_BYTES_VALUE then Err(LimitExceeded(BytesLength))
        else if |buf| < 4 + len then Err(MalformedRecord(ValueTruncated(tag)))
        else Ok((Blob(buf[4..4 + len]), 4 + len))
    else if Width(tag) == 0 then Err(UnknownTypeTag(tag))
    else if |buf| < Width(tag) then Err(MalformedRecord(ValueTruncated(tag)))
    else Ok((DecodeFixed(tag, buf[..Width(tag)]), Width(tag)))
  }

  function DecodeFixed(tag: byte, b: seq<byte>): Value
    requires 0 < Width(tag) == |b|
  {
    if tag == TYPE_BOOL then Bool(b[0] != 0)
    else if tag == TYPE_I32 then I32(Signed32(U32(b)))
    else if tag == TYPE_I64 then I64(Signed64(U64(b)))
    else if tag == TYPE_U32 then U32Value(U32(b))
    else if tag == TYPE_U64 then U64Value(U64(b))
    else if tag == TYPE_F32 then F32(U32(b))
    else if tag == TYPE_F64 then F64(U64(b))
    else if tag == TYPE_ENUM then Enum(U32(b))
    else if tag == TYPE_VEC2_F32 then Vec2F32(U32(b[..4]), U32(b[4..]))
    else if tag == TYPE_VEC3_F32 then Vec3F32(U32(b[..4]), U32(b[4..8]), U32(b[8..]))
    else InternedString(U32(b))
  }

  // ---- Specification of the field list ----

  function EncodeField(f: Field): Result<seq<byte>> {
    var v :- EncodeValue(f.value);
    Ok(LE32(f.nameId) + [v.0, 0] + v.1)
  }

  function EncodeFields(fs: seq<Field>): Result<seq<byte>> {
    if fs == [] then Ok([]) else
    var head :- EncodeField(fs[0]);
    Prepend(head, EncodeFields(fs[1..]))
  }

  function EncodePayload(p: TypedPayload): Result<seq<byte>> {
    if |p.fields| > MAX_FIELDS then Err(LimitExceeded(FieldCount))
    else Prepend(LE16(|p.fields|), EncodeFields(p.fields))
  }

  /** Reads one field at the front of `buf`. */
  function DecodeField(buf: seq<byte>): (r: Result<(Field, nat)>)
    ensures r.Ok? ==> 6 <= r.value.1 <= |buf|
  {
    if |buf| < 6 then Err(MalformedRecord(FieldHeaderTruncated)) else
    var v :- DecodeValue(buf[4], buf[6..]);
    Ok((Field(U32(buf[..4]), v.0), 6 + v.1))
  }

  /** Reads exactly `n` fields filling `buf`. */
  function DecodeFields(buf: seq<byte>, n: nat): Result<seq<Field>> {
    if n == 0 then if buf == [] then Ok([]) else Err(MalformedRecord(TrailingBytes(|buf|)))
    else
      var f :- DecodeField(buf);
      Prepend([f.0], DecodeFields(buf[f.1..], n - 1))
  }

  function DecodePayload(buf: seq<byte>): Result<TypedPayload> {
    if |buf| < 2 then Err(MalformedRecord(FieldCountTruncated)) else
    var fs :- DecodeFields(buf[2..], U16(buf[..2]));
    Ok(TypedPayload(fs))
  }

  // ---- The loops ----

  method Encode(p: TypedPayload) returns (r: Result<seq<byte>>)
    ensures r == EncodePayload(p)
  {
    hide EncodeValue, LE16, LE32;
    if |p.fields| > MAX_FIELDS {
      return Err(LimitExceeded(FieldCount));
    }
    var out := LE16(|p.fields|);
    for i := 0 to |p.fields|
      invariant Prepend(out, EncodeFields(p.fields[i..])) == EncodePayload(p)
    {
      assert p.fields[i..][1..] == p.fields[i + 1..];
      ghost var rest := EncodeFields(p.fields[i + 1..]);
      var v := EncodeValue(p.fields[i].value);
      if v.Err? {
        return Err(v.error);
      }
      ghost var before := out;
      out := out + LE32(p.fields[i].nameId);
      out := out + [v.value.0];
      out := out + [0];
      out := out + v.value.1;
      ghost var head := EncodeField(p.fields[i]).value;
      assert out == before + head;
      PrependTwice(before, head, rest);
    }
    assert out + [] == out;
    return Ok(out);
  }

  method ReadField(buf: seq<byte>, start: nat) returns (r: Result<(Field, nat)>)
    requires start <= |buf|
    ensures r == DecodeField(buf[start..])
  {
    hide DecodeValue, U32;
    var offset := start;
    if offset + 6 > |buf| {
      return Err(MalformedRecord(FieldHeaderTruncated));
    }
    var nameId := U32(buf[offset..offset + 4]);
    var tag := buf[offset + 4];
    assert buf[start..][..4] == buf[start..start + 4] && buf[start..][6..] == buf[start + 6..];
    offset := offset + 6;
    var v := DecodeValue(tag, buf[offset..]);
    if v.Err? {
      return Err(v.error);
    }
    return Ok((Field(nameId, v.value.0), 6 + v.value.1));
  }

  method Decode(buf: seq<byte>) returns (r: Result<TypedPayload>)
    ensures r == DecodePayload(buf)
  {
    hide DecodeField, U16;
    if |buf| < 2 {
      return Err(MalformedRecord(FieldCountTruncated));
    }
    var count := U16(buf[..2]);
    var offset := 2;
    var fields: seq<Field> := [];
    ghost var whole := DecodeFields(buf[2..], count);
    assert whole.Ok? ==> [] + whole.value == whole.value;
    for i := 0 to count
      invariant 2 <= offset <= |buf|
      invariant Prepend(fields, DecodeFields(buf[offset..], count - i)) == whole
    {
      var f := ReadField(buf, offset);
      if f.Err? {
        return Err(f.error);
      }
      assert buf[offset..][f.value.1..] == buf[offset + f.value.1..];
      offset := offset + f.value.1;
      PrependTwice(fields, [f.value.0], DecodeFields(buf[offset..], count - i - 1));
      fields := fields + [f.value.0];
    }
    if offset != |buf| {
      return Err(MalformedRecord(TrailingBytes(|buf| - offset)));
    }
    assert fields + [] == fields;
    return Ok(TypedPayload(fields));
  }

  // ---- Decoding undoes encoding ----

  lemma SignedBack(i: i32, l: i64)
    ensures Signed32(Unsigned32(i)) == i && Signed64(Unsigned64(l)) == l
  {
  }

  lemma FixedRoundTrip(v: Value)
    requires !v.Blob?
    ensures |Body(v)| == Width(Tag(v)) > 0
    ensures DecodeFixed(Tag(v), Body(v)) == v
  {
    match v
    case Vec2F32(x, y) =>
      assert Body(v)[..4] == LE32(x) && Body(v)[4..] == LE32(y);
    case Vec3F32(x, y, z) =>
      assert Body(v)[..4] == LE32(x) && Body(v)[4..8] == LE32(y) && Body(v)[8..] == LE32(z);
    case I32(i) => SignedBack(i, 0);
    case I64(l) => SignedBack(0, l);
    case _ =>
  }

  /** A value's encoding is self-delimiting: it reads back in front of any bytes. */
  lemma ValueRoundTrip(v: Value, rest: seq<byte>)
    requires ValueFits(v)
    ensures DecodeValue(Tag(v), Body(v) + rest) == Ok((v, |Body(v)|))
  {
    var all := Body(v) + rest;
    if v.Blob? {
      assert all[..4] == LE32(|v.bytes|);
      assert all[4..4 + |v.bytes|] == v.bytes;
    } else {
      FixedRoundTrip(v);
      assert all[..Width(Tag(v))] == Body(v);
    }
  }

  lemma FieldRoundTrip(f: Field, rest: seq<byte>)
    requires EncodeField(f).Ok?
    ensures var e := EncodeField(f).value;
            |e| >= 6 && DecodeField(e + rest) == Ok((f, |e|))
  {
    hide DecodeValue, Body;
    var body := Body(f.value);
    var all := EncodeField(f).value + rest;
    assert all[..4] == LE32(f.nameId) && all[4] == Tag(f.value);
    assert all[6..] == body + rest;
    ValueRoundTrip(f.value, rest);
  }

  lemma {:induction false} FieldsRoundTrip(fs: seq<Field>)
    requires EncodeFields(fs).Ok?
    ensures DecodeFields(EncodeFields(fs).value, |fs|) == Ok(fs)
  {
    hide EncodeField, DecodeField;
    if fs != [] {
      var e, rest := EncodeField(fs[0]).value, EncodeFields(fs[1..]).value;
      FieldRoundTrip(fs[0], rest);
      FieldsRoundTrip(fs[1..]);
      assert (e + rest)[|e|..] == rest;
      assert [fs[0]] + fs[1..] == fs;
    }
  }

  lemma PayloadRoundTrip(p: TypedPayload)
    requires EncodePayload(p).Ok?
    ensures DecodePayload(EncodePayload(p).value) == Ok(p)
  {
    var e := EncodePayload(p).value;
    assert e[..2] == LE16(|p.fields|) && e[2..] == EncodeFields(p.fields).value;
    FieldsRoundTrip(p.fields);
  }

  // ---- What decodes can be encoded again, at the same length ----

  lemma ValueReencodes(tag: byte, buf: seq<byte>)
    requires DecodeValue(tag, buf).Ok?
    ensures var (v, n) := DecodeValue(tag, buf).value;
            ValueFits(v) && Tag(v) == tag && |Body(v)| == n
  {
  }

  lemma {:induction false} FieldsReencode(buf: seq<byte>, n: nat)
    requires DecodeFields(buf, n).Ok?
    ensures var fs := DecodeFields(buf, n).value;
            |fs| == n && EncodeFields(fs).Ok? && |EncodeFields(fs).value| == |buf|
    decreases n
  {
    hide DecodeValue, Body;
    if n > 0 {
      var (f, k) := DecodeField(buf).value;
      ValueReencodes(buf[4], buf[6..]);
      FieldsReencode(buf[k..], n - 1);
      var fs := DecodeFields(buf, n).value;
      assert fs[0] == f && fs[1..] == DecodeFields(buf[k..], n - 1).value;
    }
  }

  lemma PayloadReencodes(buf: seq<byte>)
    requires DecodePayload(buf).Ok?
    ensures EncodePayload(DecodePayload(buf).value).Ok?
    ensures |EncodePayload(DecodePayload(buf).value).value| == |buf|
  {
    FieldsReencode(buf[2..], U16(buf[..2]));
  }

  // ---- Which payloads encode ----

  lemma {:induction false} FieldsEncodeIff(fs: seq<Field>)
    ensures EncodeFields(fs).Ok? <==> forall f <- fs :: ValueFits(f.value)
    ensures EncodeFields(fs).Ok? ==> |EncodeFields(fs).value| <= 4106 * |fs|
    ensures EncodeFields(fs).Err? ==> EncodeFields(fs).error == LimitExceeded(BytesLength)
  {
    if fs != [] {
      FieldsEncodeIff(fs[1..]);
      assert fs == [fs[0]] + fs[1..];
    }
  }

  /** A payload encodes exactly when it has at most 65,535 fields and no over-long blob. */
  lemma PayloadEncodesIff(p: TypedPayload)
    ensures EncodePayload(p).Ok? <==> |p.fields| <= MAX_FIELDS && forall f <- p.fields :: ValueFits(f.value)
    ensures EncodePayload(p).Ok? ==> 2 <= |EncodePayload(p).value| < TWO_32
  {
    FieldsEncodeIff(p.fields);
  }
}
