/** The Go client: intern caches over the agent's dictionary, and emitting one event. */
module Client {
  import opened Wrappers
  import opened Bytes
  import opened Dict
  import opened Payload
  import opened Protocol
  import opened Agent

  /** A value as the client's caller passes it; floats are their 64-bit patterns. */
  datatype GoValue =
    | GoBool(b: bool)
    | GoInt(i: i64)
    | GoUint(u: u64)
    | GoFloat(bits: u64)
    | GoString(text: seq<byte>)
    | GoBytes(bytes: seq<byte>)
    | GoOther

  datatype GoEvent = GoEvent(
    domain: seq<byte>,
    category: seq<byte>,
    name: seq<byte>,
    severity: byte,
    fieldName: seq<byte>,
    value: GoValue,
    correlation: seq<byte>)

  const SEVERITY_FATAL: byte := 4

  datatype Fault = ValueFault | ProtocolFault

  datatype Outcome<+T> = Got(value: T) | Lost(fault: Fault)

  /** The four name-to-id caches. */
  datatype Caches = Caches(
    domains: map<seq<byte>, u32>,
    categories: map<seq<byte>, u32>,
    eventNames: map<seq<byte>, u32>,
    strings: map<seq<byte>, u32>)

  const NO_CACHES := Caches(map[], map[], map[], map[])

  function CacheOf(c: Caches, kind: DictKind): map<seq<byte>, u32> {
    match kind
    case Domain => c.domains
    case Category => c.categories
    case EventName => c.eventNames
    case String => c.strings
  }

  function Remember(c: Caches, kind: DictKind, name: seq<byte>, id: u32): Caches {
    match kind
    case Domain => c.(domains := c.domains[name := id])
    case Category => c.(categories := c.categories[name := id])
    case EventName => c.(eventNames := c.eventNames[name := id])
    case String => c.(strings := c.strings[name := id])
  }

  /** A client and the agent at the other end of its connection. */
  datatype Link = Link(caches: Caches, agent: AgentState)

  // ---- Specification ----

  /** One frame sent, one frame answered. */
  function Exchange(a: AgentState, sent: seq<byte>): (AgentState, seq<byte>) {
    match ReadFrame(sent)
    case Frame(content, _) =>
      var h := Handling(a, content);
      (h.0, FrameBytes(ReplyOpcode(h.1), ReplyBody(h.1)))
    case _ => (a, [])
  }

  /** The body of an answer with the opcode and length the client insists on. */
  function Expect(answer: seq<byte>, opcode: byte, size: nat): Outcome<seq<byte>> {
    match DecodeFrame(answer)
    case None => Lost(ProtocolFault)
    case Some(m) => if m.opcode != opcode || |m.body| != size then Lost(ProtocolFault) else Got(m.body)
  }

  /** The id of a name: from the cache, or from the agent and then cached. */
  function Named(s: Link, kind: DictKind, name: seq<byte>): (Link, Outcome<u32>) {
    if name in CacheOf(s.caches, kind) then (s, Got(CacheOf(s.caches, kind)[name])) else
    match EncodeIntern(KindByte(kind), name)
    case None => (s, Lost(ValueFault))
    case Some(sent) =>
      var x := Exchange(s.agent, sent);
      match Expect(x.1, 0x86, 4)
      case Lost(f) => (s.(agent := x.0), Lost(f))
      case Got(body) => if |body| != 4 then (s, Lost(ProtocolFault)) else
                        (Link(Remember(s.caches, kind, name, U32(body)), x.0), Got(U32(body)))
  }

  datatype Ids = Ids(domain: u32, category: u32, name: u32, correlation: u32, field: u32)

  /** The ids of an event's names; no correlation is id 0. */
  function NamedAll(s: Link, e: GoEvent): (Link, Outcome<Ids>) {
    var d := Named(s, Domain, e.domain);
    if d.1.Lost? then (d.0, Lost(d.1.fault)) else
    var c := Named(d.0, Category, e.category);
    if c.1.Lost? then (c.0, Lost(c.1.fault)) else
    var n := Named(c.0, EventName, e.name);
    if n.1.Lost? then (n.0, Lost(n.1.fault)) else
    var k := if e.correlation == [] then (n.0, Got(0)) else Named(n.0, String, e.correlation);
    if k.1.Lost? then (k.0, Lost(k.1.fault)) else
    var f := Named(k.0, String, e.fieldName);
    if f.1.Lost? then (f.0, Lost(f.1.fault)) else
    (f.0, Got(Ids(d.1.value, c.1.value, n.1.value, k.1.value, f.1.value)))
  }

  /** The journal value a value that is not a string is sent as. */
  function Plain(v: GoValue): (r: Outcome<Value>)
    ensures r.Got? && r.value.Blob? ==> |r.value.bytes| < TWO_32
  {
    match v
    case GoBool(b) => Got(Bool(b))
    case GoInt(i) => Got(I64(i))
    case GoUint(u) => Got(U64Value(u))
    case GoFloat(bits) => Got(F64(bits))
    case GoBytes(bytes) => if |bytes| >= TWO_32 then Lost(ValueFault) else Got(Blob(bytes))
    case _ => Lost(ValueFault)
  }

  /** The tag and body bytes of a value; strings are interned. */
  function ValueBytes(s: Link, v: GoValue): (Link, Outcome<(byte, seq<byte>)>) {
    if v.GoString? then
      var n := Named(s, String, v.text);
      (n.0, if n.1.Lost? then Lost(n.1.fault) else Got((TYPE_INTERNED, LE32(n.1.value))))
    else
      match Plain(v)
      case Lost(f) => (s, Lost(f))
      case Got(w) => (s, Got((Tag(w), WireValue(w))))
  }

  function SendAppend(s: Link, ids: Ids, severity: byte, ns: u64, tag: byte, value: seq<byte>): (Link, Outcome<()>) {
    match EncodeFrame(OP_APPEND_EVENT,
                      AppendBody(ns, ids.domain, ids.category, ids.name, ids.correlation, severity, ids.field, tag,
                          value))
    case None => (s, Lost(ProtocolFault))
    case Some(sent) =>
      var x := Exchange(s.agent, sent);
      (s.(agent := x.0), match Expect(x.1, 0x83, 8) case Lost(f) => Lost(f) case Got(_) => Got(()))
  }

  /** Emitting one event on an open session. */
  function Emitting(s: Link, e: GoEvent, ns: u64): (Link, Outcome<()>) {
    if e.severity > SEVERITY_FATAL then (s, Lost(ValueFault)) else
    var n := NamedAll(s, e);
    if n.1.Lost? then (n.0, Lost(n.1.fault)) else
    var v := ValueBytes(n.0, e.value);
    if v.1.Lost? then (v.0, Lost(v.1.fault)) else
    SendAppend(v.0, n.1.value, e.severity, ns, v.1.value.0, v.1.value.1)
  }

  // ---- The class ----

  /** A connection, with the process at its other end taken by its contents. */
  class Connection {
    var agent: AgentState

    constructor (a: AgentState)
      ensures agent == a
    {
      agent := a;
    }

    /** Writes a frame and reads the answer. */
    method Transact(frame: seq<byte>) returns (answer: seq<byte>)
      modifies this
      ensures (agent, answer) == Exchange(old(agent), frame)
    {
      hide Handling, ReadFrame;
      var x := Exchange(agent, frame);
      agent := x.0;
      answer := x.1;
    }
  }

  class Session {
    var domainCache: map<seq<byte>, u32>
    var categoryCache: map<seq<byte>, u32>
    var eventNameCache: map<seq<byte>, u32>
    var stringCache: map<seq<byte>, u32>
    var closed: bool
    const conn: Connection

    function State(): Link
      reads this, conn
    {
      Link(Caches(domainCache, categoryCache, eventNameCache, stringCache), conn.agent)
    }

    /** A session over a connection whose agent has answered Hello and OpenSession. */
    constructor (connection: Connection)
      ensures conn == connection && !closed && State() == Link(NO_CACHES, connection.agent)
    {
      conn := connection;
      domainCache, categoryCache, eventNameCache, stringCache := map[], map[], map[], map[];
      closed := false;
    }

    method GetOrIntern(kind: DictKind, name: seq<byte>) returns (r: Outcome<u32>)
      modifies this, conn
      ensures closed == old(closed)
      ensures (State(), r) == Named(old(State()), kind, name)
    {
      hide Exchange, EncodeIntern, Expect;
      var caches := Caches(domainCache, categoryCache, eventNameCache, stringCache);
      if name in CacheOf(caches, kind) {
        return Got(CacheOf(caches, kind)[name]);
      }
      var frame := EncodeIntern(KindByte(kind), name);
      if frame.None? {
        return Lost(ValueFault);
      }
      var answer := conn.Transact(frame.value);
      var body := Expect(answer, 0x86, 4);
      if body.Lost? {
        return Lost(body.fault);
      }
      ExpectSize(answer, 0x86, 4);
      var id := U32(body.value);
      match kind {
        case Domain => domainCache := domainCache[name := id];
        case Category => categoryCache := categoryCache[name := id];
        case EventName => eventNameCache := eventNameCache[name := id];
        case String => stringCache := stringCache[name := id];
      }
      return Got(id);
    }

    /** Emits a single event with one field; a closed session ignores it. */
    method Emit(e: GoEvent, ns: u64) returns (r: Outcome<()>)
      modifies this, conn
      ensures closed == old(closed)
      ensures if closed then State() == old(State()) && r == Got(()) else (State(), r) == Emitting(old(State()), e, ns)
    {
      hide Named, Exchange, EncodeFrame, Expect, AppendBody, NamedAll, ValueBytes;
      if closed {
        return Got(());
      }
      if e.severity > SEVERITY_FATAL {
        return Lost(ValueFault);
      }
      var ids := InternNames(e);
      if ids.Lost? {
        return Lost(ids.fault);
      }
      var value := EncodeValue(e.value);
      if value.Lost? {
        return Lost(value.fault);
      }
      var n := ids.value;
      var frame := EncodeFrame(OP_APPEND_EVENT,
                               AppendBody(ns, n.domain, n.category, n.name, n.correlation, e.severity, n.field,
                                          value.value.0, value.value.1));
      if frame.None? {
        return Lost(ProtocolFault);
      }
      var answer := conn.Transact(frame.value);
      var body := Expect(answer, 0x83, 8);
      return if body.Lost? then Lost(body.fault) else Got(());
    }

    method InternNames(e: GoEvent) returns (r: Outcome<Ids>)
      modifies this, conn
      ensures closed == old(closed)
      ensures (State(), r) == NamedAll(old(State()), e)
    {
      hide Named;
      var domain := GetOrIntern(Domain, e.domain);
      if domain.Lost? {
        return Lost(domain.fault);
      }
      var category := GetOrIntern(Category, e.category);
      if category.Lost? {
        return Lost(category.fault);
      }
      var name := GetOrIntern(EventName, e.name);
      if name.Lost? {
        return Lost(name.fault);
      }
      var correlation: Outcome<u32> := Got(0);
      if e.correlation != [] {
        correlation := GetOrIntern(String, e.correlation);
        if correlation.Lost? {
          return Lost(correlation.fault);
        }
      }
      var field := GetOrIntern(String, e.fieldName);
      if field.Lost? {
        return Lost(field.fault);
      }
      return Got(Ids(domain.value, category.value, name.value, correlation.value, field.value));
    }

    method EncodeValue(v: GoValue) returns (r: Outcome<(byte, seq<byte>)>)
      modifies this, conn
      ensures closed == old(closed)
      ensures (State(), r) == ValueBytes(old(State()), v)
    {
      hide Named;
      match v {
        case GoString(text) =>
          var id := GetOrIntern(String, text);
          return if id.Lost? then Lost(id.fault) else Got((TYPE_INTERNED, LE32(id.value)));
        case GoBool(b) => return Got((TYPE_BOOL, [if b then 1 else 0]));
        case GoInt(i) => return Got((TYPE_I64, LE64(Unsigned64(i))));
        case GoUint(u) => return Got((TYPE_U64, LE64(u)));
        case GoFloat(bits) => return Got((TYPE_F64, LE64(bits)));
        case GoBytes(bytes) =>
          return if |bytes| >= TWO_32 then Lost(ValueFault) else Got((TYPE_BYTES, LE32(|bytes|) + bytes));
        case GoOther => return Lost(ValueFault);
      }
    }

    /** Asks the agent to finish, whatever it answers, and never sends again. */
    method Close()
      modifies this, conn
      ensures closed
      ensures conn.agent == if old(closed) then old(conn.agent) else Handling(old(conn.agent), [OP_FINISH_SESSION]).0
    {
      hide Handling;
      if closed {
        return;
      }
      closed := true;
      FrameReadsBack(OP_FINISH_SESSION, [], []);
      var frame := FrameBytes(OP_FINISH_SESSION, []);
      assert frame + [] == frame && [OP_FINISH_SESSION] + [] == [OP_FINISH_SESSION];
      var answer := conn.Transact(frame);
    }
  }

  lemma ExpectSize(answer: seq<byte>, opcode: byte, size: nat)
    ensures Expect(answer, opcode, size).Got? ==> |Expect(answer, opcode, size).value| == size
  {
  }
}
