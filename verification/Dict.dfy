/** The interning dictionary and its chunk codec. */
module Dict {
  import opened Wrappers
  import opened Bytes
  import opened Format
  import opened Utf8

  datatype DictKind = Domain | Category | EventName | String

  function KindByte(k: DictKind): byte {
    match k
    case Domain => 1
    case Category => 2
    case EventName => 3
    case String => 4
  }

  function KindFromByte(v: byte): (r: Result<DictKind>)
    ensures if 1 <= v <= 4 then r.Ok? && KindByte(r.value) == v else r == Err(MalformedRecord(UnknownDictKind(v)))
  {
    if v == 1 then Ok(Domain)
    else if v == 2 then Ok(Category)
    else if v == 3 then Ok(EventName)
    else if v == 4 then Ok(String)
    else Err(MalformedRecord(UnknownDictKind(v)))
  }

  datatype DictEntry = DictEntry(kind: DictKind, id: u32, name: Text)

  /** The three maps of a dictionary. */
  datatype Names = Names(
    byKey: map<(DictKind, u32), Text>,
    byName: map<(DictKind, Text), u32>,
    nextId: map<DictKind, u32>)

  const NO_NAMES := Names(map[], map[], map[])

  function Require(d: Names, kind: DictKind, id: u32): Result<Text> {
    if (kind, id) in d.byKey then Ok(d.byKey[(kind, id)]) else Err(UnknownDictionaryId(KindByte(kind), id))
  }

  function Inserted(d: Names, e: DictEntry): Result<Names> {
    if e.id == 0 then Err(MalformedRecord(ZeroDictId))
    else if |e.name| > MAX_DICT_NAME_LEN then Err(LimitExceeded(NameLength))
    else if (e.kind, e.id) in d.byKey then Err(DuplicateDictionaryId(KindByte(e.kind), e.id))
    else Ok(d.(byKey := d.byKey[(e.kind, e.id) := e.name], byName := d.byName[(e.kind, e.name) := e.id]))
  }

  function AllInserted(d: Names, es: seq<DictEntry>): Result<Names>
    decreases |es|
  {
    if es == [] then Ok(d) else
    var d1 :- Inserted(d, es[0]);
    AllInserted(d1, es[1..])
  }

  /** The id the next new name of `kind` gets. */
  function NextId(d: Names, kind: DictKind): u32 {
    if kind in d.nextId then d.nextId[kind] else 1
  }

  /** Interning `name`: the dictionary afterwards, and `(id, newly created)`. */
  function Interned(d: Names, kind: DictKind, name: Text): (Names, Result<(u32, bool)>) {
    if |name| > MAX_DICT_NAME_LEN then (d, Err(LimitExceeded(NameLength)))
    else if (kind, name) in d.byName then (d, Ok((d.byName[(kind, name)], false)))
    else
      var id := NextId(d, kind);
      var d1 := d.(nextId := d.nextId[kind := (id + 1) % TWO_32]);
      match Inserted(d1, DictEntry(kind, id, name))
      case Ok(d2) => (d2, Ok((id, true)))
      case Err(e) => (d1, Err(e))
  }

  class Dictionary {
    var byKey: map<(DictKind, u32), Text>
    var byName: map<(DictKind, Text), u32>
    var nextId: map<DictKind, u32>

    function Value(): Names
      reads this
    {
      Names(byKey, byName, nextId)
    }

    constructor ()
      ensures Value() == NO_NAMES
    {
      byKey, byName, nextId := map[], map[], map[];
    }

    method Insert(entry: DictEntry) returns (r: Result<()>)
      modifies this
      ensures match Inserted(old(Value()), entry)
              case Ok(d) => r == Ok(()) && Value() == d
              case Err(e) => r == Err(e) && Value() == old(Value())
    {
      if entry.id == 0 {
        return Err(MalformedRecord(ZeroDictId));
      }
      if |entry.name| > MAX_DICT_NAME_LEN {
        return Err(LimitExceeded(NameLength));
      }
      if (entry.kind, entry.id) in byKey {
        return Err(DuplicateDictionaryId(KindByte(entry.kind), entry.id));
      }
      byKey := byKey[(entry.kind, entry.id) := entry.name];
      byName := byName[(entry.kind, entry.name) := entry.id];
      return Ok(());
    }

    method Intern(kind: DictKind, name: Text) returns (r: Result<(u32, bool)>)
      modifies this
      ensures (Value(), r) == Interned(old(Value()), kind, name)
    {
      if |name| > MAX_DICT_NAME_LEN {
        return Err(LimitExceeded(NameLength));
      }
      if (kind, name) in byName {
        return Ok((byName[(kind, name)], false));
      }
      if kind !in nextId {
        nextId := nextId[kind := 1];
      }
      var id := nextId[kind];
      nextId := nextId[kind := (id + 1) % TWO_32];
      assert nextId == old(nextId)[kind := (id + 1) % TWO_32];
      var inserted := Insert(DictEntry(kind, id, name));
      if inserted.Err? {
        return Err(inserted.error);
      }
      return Ok((id, true));
    }
  }

  // ---- Interning hands out 1, 2, 3, ... per kind and never takes an id back ----

  /** How many entries of `kind` are in the list. */
  function Count(es: seq<DictEntry>, kind: DictKind): nat {
    if es == [] then 0
    else Count(es[..|es| - 1], kind) + if es[|es| - 1].kind == kind then 1 else 0
  }

  /** The two maps are inverse to each other, kind by kind. */
  ghost predicate MutuallyInverse(d: Names) {
    && NamesBacked(d)
    && (forall k, id :: (k, id) in d.byKey ==>
          (k, d.byKey[(k, id)]) in d.byName && d.byName[(k, d.byKey[(k, id)])] == id)
  }

  /** The ids of every kind are 1 up to the number of its entries, and the counter stands behind them. */
  ghost predicate Numbered(d: Names, es: seq<DictEntry>) {
    forall k :: NumberedUpTo(d, k, Count(es, k))
  }

  ghost predicate NumberedUpTo(d: Names, k: DictKind, n: nat) {
    && n < TWO_32
    && (forall id :: (k, id) in d.byKey <==> 1 <= id <= n)
    && (NextId(d, k) == n + 1 || n == TWO_32 - 1)
  }

  /** `d` is what inserting `es` one by one into an empty dictionary gives. */
  ghost predicate Holds(d: Names, es: seq<DictEntry>) {
    AllInserted(NO_NAMES, es).Ok? && SameNames(AllInserted(NO_NAMES, es).value, d)
  }

  /** `d` holds exactly the entries `es`, which interning created in that order. */
  ghost predicate HoldsInterned(d: Names, es: seq<DictEntry>) {
    MutuallyInverse(d) && Numbered(d, es) && Holds(d, es)
  }

  /** Equal as far as lookups go: the id counters may differ. */
  predicate SameNames(d: Names, e: Names) {
    d.byKey == e.byKey && d.byName == e.byName
  }

  lemma {:induction false} InsertedAppend(d: Names, es: seq<DictEntry>, e: DictEntry)
    ensures AllInserted(d, es + [e]) ==
            match AllInserted(d, es) { case Ok(d1) => Inserted(d1, e) case Err(x) => Err(x) }
    decreases |es|
  {
    hide Inserted;
    if es == [] {
      assert [e][1..] == [];
      assert es + [e] == [e];
    } else {
      assert (es + [e])[1..] == es[1..] + [e];
      if Inserted(d, es[0]).Ok? {
        InsertedAppend(Inserted(d, es[0]).value, es[1..], e);
      }
    }
  }

  lemma {:induction false} InsertedConcat(d: Names, es: seq<DictEntry>, fs: seq<DictEntry>)
    ensures AllInserted(d, es + fs) ==
            match AllInserted(d, es) { case Ok(d1) => AllInserted(d1, fs) case Err(x) => Err(x) }
    decreases |es|
  {
    hide Inserted;
    if es == [] {
      assert es + fs == fs;
    } else {
      assert (es + fs)[1..] == es[1..] + fs;
      if Inserted(d, es[0]).Ok? {
        InsertedConcat(Inserted(d, es[0]).value, es[1..], fs);
      }
    }
  }

  lemma InsertedSameNames(d: Names, d': Names, e: DictEntry)
    requires SameNames(d, d')
    ensures match Inserted(d, e)
            case Ok(x) => Inserted(d', e).Ok? && SameNames(x, Inserted(d', e).value)
            case Err(x) => Inserted(d', e) == Err(x)
  {
  }

  /** The entry interning creates, if it creates one. */
  function NewEntries(d: Names, kind: DictKind, name: Text): seq<DictEntry> {
    match Interned(d, kind, name).1
    case Ok((id, true)) => [DictEntry(kind, id, name)]
    case _ => []
  }

  lemma CountAppend(es: seq<DictEntry>, e: DictEntry, kind: DictKind)
    ensures Count(es + [e], kind) == Count(es, kind) + if e.kind == kind then 1 else 0
  {
    assert (es + [e])[..|es|] == es;
  }

  lemma InternOtherKind(d: Names, kind: DictKind, name: Text, k: DictKind, n: nat)
    requires k != kind && NumberedUpTo(d, k, n)
    ensures NumberedUpTo(Interned(d, kind, name).0, k, n)
  {
  }

  lemma InternNewNumber(d: Names, kind: DictKind, name: Text, n: nat)
    requires NumberedUpTo(d, kind, n) && NewEntries(d, kind, name) != []
    ensures NumberedUpTo(Interned(d, kind, name).0, kind, n + 1)
  {
    var d' := Interned(d, kind, name).0;
    assert (kind, NextId(d, kind)) !in d.byKey && NextId(d, kind) == n + 1;
    assert d'.byKey == d.byKey[(kind, NextId(d, kind)) := name];
  }

  lemma InternNoNumber(d: Names, kind: DictKind, name: Text, n: nat)
    requires NumberedUpTo(d, kind, n) && NewEntries(d, kind, name) == []
    ensures NumberedUpTo(Interned(d, kind, name).0, kind, n)
  {
    var d' := Interned(d, kind, name).0;
    assert d'.byKey == d.byKey;
    if d' != d {
      assert NextId(d, kind) == 0 || (kind, NextId(d, kind)) in d.byKey;
    }
  }

  lemma InternNumbersOne(d: Names, n: nat, kind: DictKind, name: Text, k: DictKind)
    requires NumberedUpTo(d, k, n)
    ensures NumberedUpTo(Interned(d, kind, name).0, k, n + if k == kind then |NewEntries(d, kind, name)| else 0)
  {
    InternEffect(d, kind, name);
    hide Interned, NewEntries, NumberedUpTo;
    if k != kind {
      InternOtherKind(d, kind, name, k, n);
    } else if NewEntries(d, kind, name) == [] {
      InternNoNumber(d, kind, name, n);
    } else {
      InternNewNumber(d, kind, name, n);
    }
  }

  lemma InternKeepsNumbers(d: Names, es: seq<DictEntry>, kind: DictKind, name: Text)
    requires Numbered(d, es)
    ensures Numbered(Interned(d, kind, name).0, es + NewEntries(d, kind, name))
  {
    var added := NewEntries(d, kind, name);
    assert |added| <= 1 && forall e <- added :: e.kind == kind;
    hide Interned, NewEntries, NumberedUpTo, Count;
    forall k
      ensures NumberedUpTo(Interned(d, kind, name).0, k, Count(es + added, k))
    {
      assert NumberedUpTo(d, k, Count(es, k));
      InternNumbersOne(d, Count(es, k), kind, name, k);
      CountGrows(es, added, kind, k);
    }
  }

  lemma CountGrows(es: seq<DictEntry>, added: seq<DictEntry>, kind: DictKind, k: DictKind)
    requires |added| <= 1 && forall e <- added :: e.kind == kind
    ensures Count(es + added, k) == Count(es, k) + if k == kind then |added| else 0
  {
    if added == [] {
      assert es + added == es;
    } else {
      assert added == [added[0]];
      CountAppend(es, added[0], k);
    }
  }

  /** What interning does to the lookups: nothing, or one insertion of a name that was not there. */
  lemma InternEffect(d: Names, kind: DictKind, name: Text)
    ensures var d' := Interned(d, kind, name).0;
            var added := NewEntries(d, kind, name);
            if added == [] then SameNames(d, d')
            else (|added| == 1 && added[0].kind == kind && added[0].name == name && (kind, name) !in d.byName
                  && Inserted(d, added[0]).Ok? && SameNames(Inserted(d, added[0]).value, d'))
  {
  }

  lemma InsertKeepsInverse(d: Names, e: DictEntry)
    requires MutuallyInverse(d) && (e.kind, e.name) !in d.byName && Inserted(d, e).Ok?
    ensures MutuallyInverse(Inserted(d, e).value)
  {
  }

  lemma InternKeepsHolding(d: Names, es: seq<DictEntry>, kind: DictKind, name: Text)
    requires Holds(d, es)
    ensures Holds(Interned(d, kind, name).0, es + NewEntries(d, kind, name))
  {
    InternEffect(d, kind, name);
    hide AllInserted, Interned, NewEntries;
    var added := NewEntries(d, kind, name);
    if added == [] {
      assert es + added == es;
    } else {
      assert added == [added[0]];
      InsertedAppend(NO_NAMES, es, added[0]);
      InsertedSameNames(d, AllInserted(NO_NAMES, es).value, added[0]);
    }
  }

  /** One step of an intern-only run: the maps stay mutual inverses and ids stay 1..m for every kind. */
  lemma InternKeepsOrder(d: Names, es: seq<DictEntry>, kind: DictKind, name: Text)
    requires HoldsInterned(d, es)
    ensures HoldsInterned(Interned(d, kind, name).0, es + NewEntries(d, kind, name))
  {
    InternKeepsNumbers(d, es, kind, name);
    InternKeepsHolding(d, es, kind, name);
    InternEffect(d, kind, name);
    hide Interned, NewEntries, Numbered, Holds;
    var added := NewEntries(d, kind, name);
    if added != [] {
      InsertKeepsInverse(d, added[0]);
    }
  }

  /** An id, once issued, keeps its name, and a name its id. */
  lemma InternStable(d: Names, kind: DictKind, name: Text)
    ensures var d' := Interned(d, kind, name).0;
            && (forall key <- d.byKey :: key in d'.byKey && d'.byKey[key] == d.byKey[key])
            && (forall key <- d.byName :: key in d'.byName && d'.byName[key] == d.byName[key])
  {
    InternEffect(d, kind, name);
    hide Interned, NewEntries;
  }

  /** The id interning returns stands for the name, and asking again gives the same id and changes nothing. */
  lemma InternAgain(d: Names, kind: DictKind, name: Text)
    requires MutuallyInverse(d)
    ensures var (d', r) := Interned(d, kind, name);
            r.Ok? ==>
              Require(d', kind, r.value.0) == Ok(name) && Interned(d', kind, name) == (d', Ok((r.value.0, false)))
  {
  }

  /** Interning fails exactly on an over-long name, or on a new name once all 2^32 - 1 ids of its kind are used. */
  lemma InternFailsIff(d: Names, es: seq<DictEntry>, kind: DictKind, name: Text)
    requires HoldsInterned(d, es)
    ensures Interned(d, kind, name).1.Err? <==>
            |name| > MAX_DICT_NAME_LEN || ((kind, name) !in d.byName && Count(es, kind) == TWO_32 - 1)
  {
    assert NumberedUpTo(d, kind, Count(es, kind));
  }

  /** An intern-only run on a new dictionary: what it holds afterwards, and the entries it created, in order. */
  function InternRun(asked: seq<(DictKind, Text)>): (Names, seq<DictEntry>) {
    if asked == [] then (NO_NAMES, [])
    else
      var (d, es) := InternRun(asked[..|asked| - 1]);
      var (kind, name) := asked[|asked| - 1];
      (Interned(d, kind, name).0, es + NewEntries(d, kind, name))
  }

  /** After any run the maps are mutual inverses per kind, and the ids of every kind are exactly 1..m. */
  lemma {:induction false} InternRunHolds(asked: seq<(DictKind, Text)>)
    ensures HoldsInterned(InternRun(asked).0, InternRun(asked).1)
    decreases |asked|
  {
    if asked != [] {
      hide Interned, NewEntries, HoldsInterned;
      var front := asked[..|asked| - 1];
      InternRunHolds(front);
      InternKeepsOrder(InternRun(front).0, InternRun(front).1, asked[|asked| - 1].0, asked[|asked| - 1].1);
    }
  }

  /** An id issued anywhere in a run still stands for its name at the end. */
  lemma {:induction false} InternRunStable(asked: seq<(DictKind, Text)>, i: nat)
    requires i <= |asked|
    ensures forall key <- InternRun(asked[..i]).0.byKey ::
              key in InternRun(asked).0.byKey && InternRun(asked).0.byKey[key] == InternRun(asked[..i]).0.byKey[key]
    decreases |asked|
  {
    if i == |asked| {
      assert asked[..i] == asked;
    } else {
      hide Interned, NewEntries;
      var front := asked[..|asked| - 1];
      assert front[..i] == asked[..i];
      InternRunStable(front, i);
      InternStable(InternRun(front).0, asked[|asked| - 1].0, asked[|asked| - 1].1);
    }
  }

  // ---- Arbitrary inserts keep the weaker half ----

  /** Every name found by name is found by key under the id it was given. */
  ghost predicate NamesBacked(d: Names) {
    forall k, n :: (k, n) in d.byName ==> (k, d.byName[(k, n)]) in d.byKey && d.byKey[(k, d.byName[(k, n)])] == n
  }

  lemma {:induction false} InsertsKeepBacked(d: Names, es: seq<DictEntry>)
    requires NamesBacked(d) && AllInserted(d, es).Ok?
    ensures NamesBacked(AllInserted(d, es).value)
    ensures forall key <- d.byKey :: key in AllInserted(d, es).value.byKey
              && AllInserted(d, es).value.byKey[key] == d.byKey[key]
    decreases |es|
  {
    if es != [] {
      InsertsKeepBacked(Inserted(d, es[0]).value, es[1..]);
    }
  }

  // ---- The dictionary chunk codec: specification ----

  function EncodeEntry(e: DictEntry): Result<seq<byte>> {
    if |e.name| > MAX_DICT_NAME_LEN then Err(LimitExceeded(NameLength))
    else Ok([KindByte(e.kind)] + LE32(e.id) + LE16(|e.name|) + e.name)
  }

  function EncodeAll(es: seq<DictEntry>): Result<seq<byte>> {
    if es == [] then Ok([]) else
    var head :- EncodeEntry(es[0]);
    Prepend(head, EncodeAll(es[1..]))
  }

  function EncodedEntries(es: seq<DictEntry>): Result<seq<byte>> {
    if |es| % TWO_32 > MAX_DICT_ENTRIES then Err(LimitExceeded(DictEntries))
    else Prepend(LE32(|es| % TWO_32), EncodeAll(es))
  }

  /** Reads one entry at the front of `buf`, and says how many bytes it took. */
  function DecodeEntry(buf: seq<byte>): (r: Result<(DictEntry, nat)>)
    ensures r.Ok? ==> 7 <= r.value.1 <= |buf|
  {
    if |buf| < 6 then Err(MalformedRecord(DictEntryTruncated)) else
    var kind :- KindFromByte(buf[0]);
    if |buf| < 7 then Err(MalformedRecord(DictNameLengthTruncated)) else
    var len := U16(buf[5..7]);
    if |buf| < 7 + len then Err(MalformedRecord(DictNameTruncated))
    else if !Valid(buf[7..7 + len]) then Err(MalformedRecord(DictNameNotUtf8))
    else Ok((DictEntry(kind, U32(buf[1..5]), buf[7..7 + len]), 7 + len))
  }

  /** Reads exactly `n` entries filling `buf`. */
  function DecodeAll(buf: seq<byte>, n: nat): Result<seq<DictEntry>> {
    if n == 0 then if buf == [] then Ok([]) else Err(MalformedRecord(TrailingBytes(|buf|)))
    else
      var e :- DecodeEntry(buf);
      Prepend([e.0], DecodeAll(buf[e.1..], n - 1))
  }

  function DecodedEntries(buf: seq<byte>): Result<seq<DictEntry>> {
    if |buf| < 4 then Err(MalformedRecord(DictCountTruncated))
    else if U32(buf[..4]) > MAX_DICT_ENTRIES then Err(LimitExceeded(DictEntries))
    else DecodeAll(buf[4..], U32(buf[..4]))
  }

  // ---- The loops ----

  method EncodeEntries(entries: seq<DictEntry>) returns (r: Result<seq<byte>>)
    ensures r == EncodedEntries(entries)
  {
    hide LE32, LE16;
    if |entries| % TWO_32 > MAX_DICT_ENTRIES {
      return Err(LimitExceeded(DictEntries));
    }
    var out := LE32(|entries| % TWO_32);
    for i := 0 to |entries|
      invariant Prepend(out, EncodeAll(entries[i..])) == EncodedEntries(entries)
    {
      var e := entries[i];
      assert entries[i..][1..] == entries[i + 1..];
      if |e.name| > MAX_DICT_NAME_LEN {
        return Err(LimitExceeded(NameLength));
      }
      ghost var before := out;
      out := out + [KindByte(e.kind)];
      out := out + LE32(e.id);
      out := out + LE16(|e.name|);
      out := out + e.name;
      assert out == before + EncodeEntry(e).value;
      PrependTwice(before, EncodeEntry(e).value, EncodeAll(entries[i + 1..]));
    }
    assert out + [] == out;
    return Ok(out);
  }

  method ReadEntry(buf: seq<byte>, start: nat) returns (r: Result<(DictEntry, nat)>)
    requires start <= |buf|
    ensures r == DecodeEntry(buf[start..])
  {
    hide U16, U32, Valid;
    var offset := start;
    if offset + 6 > |buf| {
      return Err(MalformedRecord(DictEntryTruncated));
    }
    ghost var rest := buf[start..];
    var kind := KindFromByte(buf[offset]);
    if kind.Err? {
      return Err(kind.error);
    }
    assert rest[1..5] == buf[offset + 1..offset + 5];
    var id := U32(buf[offset + 1..offset + 5]);
    offset := offset + 5;
    if offset + 2 > |buf| {
      return Err(MalformedRecord(DictNameLengthTruncated));
    }
    assert rest[5..7] == buf[offset..offset + 2];
    var len: nat := U16(buf[offset..offset + 2]);
    offset := offset + 2;
    if offset + len > |buf| {
      return Err(MalformedRecord(DictNameTruncated));
    }
    assert rest[7..7 + len] == buf[offset..offset + len];
    if !Valid(buf[offset..offset + len]) {
      return Err(MalformedRecord(DictNameNotUtf8));
    }
    return Ok((DictEntry(kind.value, id, buf[offset..offset + len]), 7 + len));
  }

  method DecodeEntries(buf: seq<byte>) returns (r: Result<seq<DictEntry>>)
    ensures r == DecodedEntries(buf)
  {
    hide DecodeEntry, U32;
    if |buf| < 4 {
      return Err(MalformedRecord(DictCountTruncated));
    }
    var count := U32(buf[..4]);
    if count > MAX_DICT_ENTRIES {
      return Err(LimitExceeded(DictEntries));
    }
    var offset := 4;
    var entries: seq<DictEntry> := [];
    ghost var whole := DecodeAll(buf[4..], count);
    assert whole.Ok? ==> [] + whole.value == whole.value;
    for i := 0 to count
      invariant 4 <= offset <= |buf|
      invariant Prepend(entries, DecodeAll(buf[offset..], count - i)) == whole
    {
      var e := ReadEntry(buf, offset);
      if e.Err? {
        return Err(e.error);
      }
      assert buf[offset..][e.value.1..] == buf[offset + e.value.1..];
      offset := offset + e.value.1;
      PrependTwice(entries, [e.value.0], DecodeAll(buf[offset..], count - i - 1));
      entries := entries + [e.value.0];
    }
    if offset != |buf| {
      return Err(MalformedRecord(TrailingBytes(|buf| - offset)));
    }
    assert entries + [] == entries;
    return Ok(entries);
  }

  // ---- Decoding undoes encoding ----

  lemma EntryRoundTrip(e: DictEntry, rest: seq<byte>)
    requires EncodeEntry(e).Ok?
    ensures var b := EncodeEntry(e).value;
            |b| >= 7 && DecodeEntry(b + rest) == Ok((e, |b|))
  {
    hide LE32, LE16, U32, U16;
    var all := EncodeEntry(e).value + rest;
    assert all[1..5] == LE32(e.id) && all[5..7] == LE16(|e.name|);
    assert all[7..7 + |e.name|] == e.name;
  }

  lemma {:induction false} AllRoundTrip(es: seq<DictEntry>)
    requires EncodeAll(es).Ok?
    ensures DecodeAll(EncodeAll(es).value, |es|) == Ok(es)
  {
    hide EncodeEntry, DecodeEntry;
    if es != [] {
      var b, rest := EncodeEntry(es[0]).value, EncodeAll(es[1..]).value;
      EntryRoundTrip(es[0], rest);
      AllRoundTrip(es[1..]);
      assert (b + rest)[|b|..] == rest;
      assert [es[0]] + es[1..] == es;
    }
  }

  /** Encoded entries decode to themselves, unless their number does not fit the 32-bit count. */
  lemma EntriesRoundTrip(es: seq<DictEntry>)
    requires EncodedEntries(es).Ok? && |es| < TWO_32
    ensures DecodedEntries(EncodedEntries(es).value) == Ok(es)
  {
    hide EncodeAll, DecodeAll;
    var b := EncodedEntries(es).value;
    assert b[..4] == LE32(|es|) && b[4..] == EncodeAll(es).value;
    AllRoundTrip(es);
  }
}
