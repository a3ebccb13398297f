/** The TraceQL subset's parser. */
module TraceqlParser {
  import opened Wrappers
  import opened TraceqlLexer

  const FILTER_MAX_CHARS: nat := 256
  const EVENTS_PAGE_MAX: nat := 256

  const DOMAIN: Str := [100, 111, 109, 97, 105, 110]
  const CATEGORY: Str := [99, 97, 116, 101, 103, 111, 114, 121]
  const EVENT_NAME: Str := [101, 118, 101, 110, 116, 95, 110, 97, 109, 101]
  const SEVERITY: Str := [115, 101, 118, 101, 114, 105, 116, 121]
  const CORRELATION: Str := [99, 111, 114, 114, 101, 108, 97, 116, 105, 111, 110]
  const PAYLOAD: Str := [112, 97, 121, 108, 111, 97, 100]
  const EVENT_SEQUENCE: Str := [101, 118, 101, 110, 116, 95, 115, 101, 113, 117, 101, 110, 99, 101]
  const MONOTONIC_NS: Str := [109, 111, 110, 111, 116, 111, 110, 105, 99, 95, 110, 115]
  const TRACE: Str := [116, 114, 97, 99, 101]
  const DEBUG: Str := [100, 101, 98, 117, 103]
  const INFO: Str := [105, 110, 102, 111]
  const WARN: Str := [119, 97, 114, 110]
  const ERROR: Str := [101, 114, 114, 111, 114]
  const FATAL: Str := [102, 97, 116, 97, 108]

  // "constructor" and "__proto__"
  const CONSTRUCTOR: Str := [99, 111, 110, 115, 116, 114, 117, 99, 116, 111, 114]
  const PROTO: Str := [95, 95, 112, 114, 111, 116, 111, 95, 95]

  /**
   The filters of an events query, and what the field table answers for the two names every object inherits and an
   identifier can spell: keys of their own, which no filter is read from.
   */
  datatype FilterKey = Domain | Category | EventName | Severity | Correlation | Constructor | Proto

  predicate Inherited(k: FilterKey) { k.Constructor? || k.Proto? }

  type Filters = map<FilterKey, Str>

  function Spelling(k: FilterKey): Str {
    match k
    case Domain => DOMAIN
    case Category => CATEGORY
    case EventName => EVENT_NAME
    case Severity => SEVERITY
    case Correlation => CORRELATION
    case Constructor => CONSTRUCTOR
    case Proto => PROTO
  }

  /** The filter a field name selects. */
  function KeyOf(name: Str): (k: Option<FilterKey>)
    ensures forall key :: k == Some(key) <==> name == Spelling(key)
  {
    if name == DOMAIN then Some(Domain)
    else if name == CATEGORY then Some(Category)
    else if name == EVENT_NAME then Some(EventName)
    else if name == SEVERITY then Some(Severity)
    else if name == CORRELATION then Some(Correlation)
    else if name == CONSTRUCTOR then Some(Constructor)
    else if name == PROTO then Some(Proto)
    else None
  }

  predicate IsSeverity(v: Str) {
    v == TRACE || v == DEBUG || v == INFO || v == WARN || v == ERROR || v == FATAL
  }

  predicate IsColumn(v: Str) {
    v == EVENT_SEQUENCE || v == SEVERITY || v == DOMAIN || v == CATEGORY || v == EVENT_NAME || v == CORRELATION
    || v == MONOTONIC_NS
  }

  predicate IsAggregate(w: Str) { w == COUNT || w == MIN || w == MAX || w == P50 || w == P95 }

  // ---- Specification ----

  function Head(ts: seq<Tok>): Tok { if ts == [] then Eof else ts[0] }
  function Tail(ts: seq<Tok>): seq<Tok> { if ts == [] then [] else ts[1..] }

  /** `field = value` at the front, with the tokens behind it. */
  function OnePred(ts: seq<Tok>): Result<(FilterKey, Str)> {
    var f, op, v := Head(ts), Head(Tail(ts)), Head(Tail(Tail(ts)));
    if f == Kw(OR) then Err(NotSupported(OR))
    else if f == Kw(NOT) then Err(NotSupported(NOT))
    else if !f.Ident? then Err(FieldExpected)
    else if f.name == PAYLOAD then Err(PayloadField)
    else if KeyOf(f.name).None? then Err(UnknownField)
    else if op == Kw(IN) then Err(NotSupported(IN))
    else if op == Kw(BETWEEN) then Err(NotSupported(BETWEEN))
    else if op != Eq then Err(OnlyEquals)
    else if !(v.Quoted? || (v.Ident? && IsSeverity(v.name))) then Err(ValueExpected)
    else
      var value := if v.Quoted? then v.value else v.name;
      if |value| > FILTER_MAX_CHARS then Err(ValueTooLong)
      else if KeyOf(f.name).value == Severity && !IsSeverity(value) then Err(UnknownSeverity)
      else Ok((KeyOf(f.name).value, value))
  }

  /** Predicates joined by AND: the filters with them added, and the tokens behind. */
  function Preds(ts: seq<Tok>, filters: Filters): Result<(Filters, seq<Tok>)>
    decreases |ts|
  {
    var p :- OnePred(ts);
    if p.0 in filters then Err(DuplicateField)
    else
      var more := filters[p.0 := p.1];
      var rest := Tail(Tail(Tail(ts)));
      if Head(rest) == Kw(AND) then Preds(Tail(rest), more) else Ok((more, rest))
  }

  function Columns(ts: seq<Tok>): Result<seq<Tok>>
    decreases |ts|
  {
    if Head(ts) != Comma then Ok(ts)
    else
      var col := Head(Tail(ts));
      if !col.Ident? || !IsColumn(col.name) then Err(BadSelect) else Columns(Tail(Tail(ts)))
  }

  function SelectPart(ts: seq<Tok>): Result<seq<Tok>> {
    if Head(ts) != Kw(SELECT) then Ok(ts)
    else
      var first := Head(Tail(ts));
      if first.Kw? && IsAggregate(first.word) then Err(Aggregate)
      else if first == Star then Ok(Tail(Tail(ts)))
      else if first.Ident? && IsColumn(first.name) then Columns(Tail(Tail(ts)))
      else Err(BadSelect)
  }

  function LimitPart(ts: seq<Tok>): Result<nat> {
    if Head(ts) != Kw(LIMIT) then Err(LimitRequired)
    else
      var n := Head(Tail(ts));
      if !n.Number? then Err(LimitNotInteger)
      else if n.n < 1 || n.n > EVENTS_PAGE_MAX then Err(LimitOutOfRange)
      else if Head(Tail(Tail(ts))) != Eof then Err(TrailingTokens)
      else Ok(n.n)
  }

  function BehindSource(ts: seq<Tok>): Result<(Filters, nat)> {
    var w :- if Head(ts) == Kw(WHERE) then Preds(Tail(ts), map[]) else Ok((map[], ts));
    if Head(w.1) == Kw(GROUP) then Err(NotSupported(GROUP))
    else if Head(w.1) == Kw(ORDER) then Err(NotSupported(ORDER))
    else
      var rest :- SelectPart(w.1);
      var n :- LimitPart(rest);
      Ok((w.0, n))
  }

  function Parsed(ts: seq<Tok>): Result<(Filters, nat)> {
    if Head(ts) != Kw(FROM) then Err(Expected(FROM))
    else if Head(Tail(ts)) == Kw(GRAPH) then Err(GraphSource)
    else if Head(Tail(ts)) != Kw(EVENTS) then Err(Expected(EVENTS))
    else BehindSource(Tail(Tail(ts)))
  }

  function ParsedText(input: Str): Result<(Filters, nat)> {
    var ts :- Tokens(input);
    Parsed(ts)
  }

  // ---- The parser with its position ----

  /** The token at `pos`, or the end. */
  function Peek(ts: seq<Tok>, pos: nat): Tok { if pos < |ts| then ts[pos] else Eof }

  function From(ts: seq<Tok>, pos: nat): seq<Tok> { if pos <= |ts| then ts[pos..] else [] }

  lemma FromNext(ts: seq<Tok>, pos: nat)
    ensures Head(From(ts, pos)) == Peek(ts, pos) && Tail(From(ts, pos)) == From(ts, pos + 1)
  {
  }

  method ParseOnePred(ts: seq<Tok>, start: nat) returns (r: Result<(FilterKey, Str)>)
    ensures r == OnePred(From(ts, start))
  {
    hide KeyOf, IsSeverity, Spelling;
    FromNext(ts, start);
    FromNext(ts, start + 1);
    FromNext(ts, start + 2);
    if Peek(ts, start) == Kw(OR) {
      return Err(NotSupported(OR));
    }
    if Peek(ts, start) == Kw(NOT) {
      return Err(NotSupported(NOT));
    }
    var pos := start;
    var fieldTok := Peek(ts, pos);
    pos := pos + 1;
    if !fieldTok.Ident? {
      return Err(FieldExpected);
    }
    if fieldTok.name == PAYLOAD {
      return Err(PayloadField);
    }
    var key := KeyOf(fieldTok.name);
    if key.None? {
      return Err(UnknownField);
    }
    var op := Peek(ts, pos);
    pos := pos + 1;
    if op == Kw(IN) || op == Kw(BETWEEN) {
      return Err(NotSupported(op.word));
    }
    if op != Eq {
      return Err(OnlyEquals);
    }
    var valueTok := Peek(ts, pos);
    pos := pos + 1;
    var value: Str;
    if valueTok.Quoted? {
      value := valueTok.value;
    } else if valueTok.Ident? && IsSeverity(valueTok.name) {
      value := valueTok.name;
    } else {
      return Err(ValueExpected);
    }
    if |value| > FILTER_MAX_CHARS {
      return Err(ValueTooLong);
    }
    if key.value == Severity && !IsSeverity(value) {
      return Err(UnknownSeverity);
    }
    return Ok((key.value, value));
  }

  method ParseWhere(ts: seq<Tok>, start: nat) returns (r: Result<(Filters, nat)>)
    requires start <= |ts|
    ensures match Preds(From(ts, start), map[])
            case Ok(w) => r.Ok? && r.value.0 == w.0 && w.1 == From(ts, r.value.1)
            case Err(why) => r == Err(why)
  {
    hide OnePred, From;
    var pos := start;
    var filters: Filters := map[];
    var seen: set<FilterKey> := {};
    while true
      invariant seen == filters.Keys
      invariant Preds(From(ts, pos), filters) == Preds(From(ts, start), map[])
      decreases |ts| + 4 - pos
    {
      var p := ParseOnePred(ts, pos);
      if p.Err? {
        return Err(p.error);
      }
      FromNext(ts, pos);
      FromNext(ts, pos + 1);
      FromNext(ts, pos + 2);
      FromNext(ts, pos + 3);
      if p.value.0 in seen {
        return Err(DuplicateField);
      }
      seen := seen + {p.value.0};
      filters := filters[p.value.0 := p.value.1];
      pos := pos + 3;
      if Peek(ts, pos) == Kw(AND) {
        pos := pos + 1;
        continue;
      }
      break;
    }
    return Ok((filters, pos));
  }

  method ParseSelect(ts: seq<Tok>, start: nat) returns (r: Result<nat>)
    ensures match SelectPart(From(ts, start))
            case Ok(rest) => r.Ok? && rest == From(ts, r.value)
            case Err(why) => r == Err(why)
  {
    hide IsColumn, IsAggregate, From;
    FromNext(ts, start);
    FromNext(ts, start + 1);
    if Peek(ts, start) != Kw(SELECT) {
      return Ok(start);
    }
    var pos := start + 1;
    var first := Peek(ts, pos);
    pos := pos + 1;
    if first.Kw? && IsAggregate(first.word) {
      return Err(Aggregate);
    }
    if first == Star {
      return Ok(pos);
    }
    if !(first.Ident? && IsColumn(first.name)) {
      return Err(BadSelect);
    }
    while Peek(ts, pos) == Comma
      invariant Columns(From(ts, pos)) == Columns(From(ts, start + 2))
      decreases |ts| + 2 - pos
    {
      FromNext(ts, pos);
      FromNext(ts, pos + 1);
      pos := pos + 1;
      var col := Peek(ts, pos);
      pos := pos + 1;
      if !col.Ident? || !IsColumn(col.name) {
        return Err(BadSelect);
      }
    }
    FromNext(ts, pos);
    return Ok(pos);
  }

  method ParseTokens(ts: seq<Tok>) returns (r: Result<(Filters, nat)>)
    ensures r == Parsed(ts)
  {
    hide Preds, SelectPart, From;
    assert ts == From(ts, 0) by { FromStart(ts); }
    FromNext(ts, 0);
    FromNext(ts, 1);
    FromNext(ts, 2);
    var pos := 0;
    if Peek(ts, pos) != Kw(FROM) {
      return Err(Expected(FROM));
    }
    pos := pos + 1;
    var source := Peek(ts, pos);
    pos := pos + 1;
    if source == Kw(GRAPH) {
      return Err(GraphSource);
    }
    if source != Kw(EVENTS) {
      return Err(Expected(EVENTS));
    }
    var filters: Filters := map[];
    if Peek(ts, pos) == Kw(WHERE) {
      var w := ParseWhere(ts, pos + 1);
      if w.Err? {
        return Err(w.error);
      }
      filters, pos := w.value.0, w.value.1;
    }
    FromNext(ts, pos);
    if Peek(ts, pos) == Kw(GROUP) {
      return Err(NotSupported(GROUP));
    }
    if Peek(ts, pos) == Kw(ORDER) {
      return Err(NotSupported(ORDER));
    }
    var selected := ParseSelect(ts, pos);
    if selected.Err? {
      return Err(selected.error);
    }
    pos := selected.value;
    FromNext(ts, pos);
    FromNext(ts, pos + 1);
    FromNext(ts, pos + 2);
    if Peek(ts, pos) != Kw(LIMIT) {
      return Err(LimitRequired);
    }
    var limit := Peek(ts, pos + 1);
    if !limit.Number? {
      return Err(LimitNotInteger);
    }
    if limit.n < 1 || limit.n > EVENTS_PAGE_MAX {
      return Err(LimitOutOfRange);
    }
    if Peek(ts, pos + 2) != Eof {
      return Err(TrailingTokens);
    }
    return Ok((filters, limit.n));
  }

  lemma FromStart(ts: seq<Tok>)
    ensures From(ts, 0) == ts
  {
  }

  method Parse(input: Str) returns (r: Result<(Filters, nat)>)
    ensures r == ParsedText(input)
  {
    hide Tokens, Parsed;
    var ts := Tokenize(input);
    if ts.Err? {
      return Err(ts.error);
    }
    r := ParseTokens(ts.value);
  }
}
