/** The agent: a request/reply state machine around one session writer. */
module Agent {
  import opened Wrappers
  import opened Bytes
  import opened Utf8
  import opened Protocol
  import opened Writer
  import Dict
  import Header
  import Journal
  import Event
  import Payload

  /**
   An agent by its contents. `disk` holds the journals of ended sessions by file name; the journal of the
   session being written is in its writer.
   */
  datatype AgentState = AgentState(
    writer: Option<WriterState>,
    fileName: Text,
    helloDone: bool,
    sessionOpened: bool,
    flushEveryEvent: bool,
    disk: map<Text, seq<byte>>)

  function Started(flushEveryEvent: bool): AgentState {
    AgentState(None, [], false, false, flushEveryEvent, map[])
  }

  // ---- Specification of one request ----

  function OnHello(a: AgentState, body: seq<byte>): (AgentState, Reply) {
    if |body| < 4 then (a, Refused(HelloTooShort))
    else if U32(body[..4]) != PROTOCOL_VERSION then (a, Refused(Refusal.UnsupportedVersion(U32(body[..4]))))
    else (a.(helloDone := true), HelloOk)
  }

  function OnIntern(a: AgentState, body: seq<byte>): (AgentState, Reply) {
    if !a.helloDone || !a.sessionOpened then (a, Refused(SessionRequired)) else
    match ParseIntern(body)
    case Bad(why) => (a, Refused(why))
    case Fine((kind, name)) =>
      if a.writer.None? then (a, Refused(NoOpenSession))
      else if Dict.KindFromByte(kind).Err? then (a, Refused(UnknownKind))
      else
        var (w, r) := Interning(a.writer.value, Dict.KindFromByte(kind).value, name);
        (a.(writer := Some(w)), match r case Ok(id) => InternOk(id) case Err(e) => Refused(Failed(e)))
  }

  function HeaderOf(q: OpenRequest): (h: Header.FileHeader)
    requires |q.sessionId| == 16 && |q.producerName| <= 32 && |q.producerVersion| <= 16
    requires Valid(q.producerName) && Valid(q.producerVersion)
    ensures Header.Fits(h)
  {
    Header.New(q.sessionId, q.startUtcUnixMs, q.monoOriginNs, q.producerName, q.producerVersion).value
  }

  lemma OpenRequestFits(body: seq<byte>)
    requires ParseOpen(body).Fine?
    ensures var q := ParseOpen(body).value;
            && |q.sessionId| == 16 && |q.producerName| <= 32 && |q.producerVersion| <= 16
            && Valid(q.producerName) && Valid(q.producerVersion) && Valid(q.fileName)
  {
    hide Valid;
  }

  /** The disk once the writer held is dropped: what it has written stays under its name. */
  function Dropped(a: AgentState): map<Text, seq<byte>> {
    if a.writer.None? then a.disk
    else a.disk[a.fileName := Journal.FileOf(a.writer.value.header, a.writer.value.log)]
  }

  /** A new writer takes the place of the one held, if any. */
  function OnOpen(a: AgentState, body: seq<byte>): (AgentState, Reply) {
    if !a.helloDone then (a, Refused(HelloRequired)) else
    match ParseOpen(body)
    case Bad(why) => (a, Refused(why))
    case Fine(q) =>
      OpenRequestFits(body);
      (a.(writer := Some(Fresh(HeaderOf(q))), fileName := q.fileName, sessionOpened := true,
          disk := Dropped(a) - {q.fileName}), OpenSessionOk)
  }

  function OnAppend(a: AgentState, body: seq<byte>): (AgentState, Reply) {
    if !a.helloDone || !a.sessionOpened then (a, Refused(SessionRequired)) else
    match ParseAppend(body)
    case Bad(why) => (a, Refused(why))
    case Fine(ev) =>
      if a.writer.None? then (a, Refused(NoOpenSession)) else
      var (w, r) := Appending(a.writer.value, ev);
      match r
      case Err(e) => (a.(writer := Some(w)), Refused(Failed(e)))
      case Ok(sequence) =>
        (a.(writer := Some(if a.flushEveryEvent then Flushing(w).0 else w)), AppendEventOk(sequence))
  }

  /** The writer is given up whether or not finishing succeeds; what it wrote stays on disk. */
  function OnFinish(a: AgentState): (AgentState, Reply) {
    if a.writer.None? then (a, Refused(NoOpenSession)) else
    var (w, r) := Finishing(a.writer.value);
    (a.(writer := None, disk := a.disk[a.fileName := Journal.FileOf(w.header, w.log)]),
     match r case Ok(_) => FinishSessionOk case Err(e) => Refused(Failed(e)))
  }

  function OnFlush(a: AgentState): (AgentState, Reply) {
    if a.writer.None? then (a, Refused(NoOpenSession)) else
    var (w, r) := Flushing(a.writer.value);
    (a.(writer := Some(w)), match r case Ok(_) => FlushOk case Err(e) => Refused(Failed(e)))
  }

  /** The agent's answer to one frame: its state afterwards and the one reply. */
  function Handling(a: AgentState, frame: seq<byte>): (AgentState, Reply) {
    if frame == [] then (a, Refused(EmptyFrame)) else
    var op, body := frame[0], frame[1..];
    if op == OP_HELLO then OnHello(a, body)
    else if op == OP_INTERN then OnIntern(a, body)
    else if op == OP_OPEN_SESSION then OnOpen(a, body)
    else if op == OP_APPEND_EVENT then OnAppend(a, body)
    else if op == OP_FINISH_SESSION then OnFinish(a)
    else if op == OP_PING then (a, Pong)
    else if op == OP_FLUSH then OnFlush(a)
    else (a, Refused(UnknownCommand))
  }

  /** The replies to a list of frames, in order. */
  function Serving(a: AgentState, frames: seq<seq<byte>>): (AgentState, seq<Reply>)
    decreases |frames|
  {
    if frames == [] then (a, []) else
    var (b, r) := Handling(a, frames[0]);
    var (c, rs) := Serving(b, frames[1..]);
    (c, [r] + rs)
  }

  // ---- The class ----

  class Server {
    var writer: SessionWriter?
    var fileName: Text
    var helloDone: bool
    var sessionOpened: bool
    var flushEveryEvent: bool
    var disk: map<Text, seq<byte>>

    ghost function Repr(): set<object>
      reads this
    {
      {this} + if writer == null then {} else {writer, writer.dictionary}
    }

    ghost predicate Valid()
      reads this, writer
    {
      writer != null ==> writer.Valid()
    }

    ghost function State(): AgentState
      reads this, writer, if writer == null then {} else {writer.dictionary}
    {
      AgentState(if writer == null then None else Some(writer.State()),
                 fileName, helloDone, sessionOpened, flushEveryEvent, disk)
    }

    constructor (flushEveryEvent: bool)
      ensures Valid() && fresh(Repr()) && State() == Started(flushEveryEvent)
    {
      this.flushEveryEvent := flushEveryEvent;
      writer, fileName, helloDone, sessionOpened, disk := null, [], false, false, map[];
    }

    method Hello(body: seq<byte>) returns (reply: Reply)
      requires Valid()
      modifies this
      ensures Valid() && writer == old(writer) && (State(), reply) == OnHello(old(State()), body)
    {
      hide U32;
      if |body| < 4 {
        return Refused(HelloTooShort);
      }
      var version := U32(body[..4]);
      if version != PROTOCOL_VERSION {
        return Refused(Refusal.UnsupportedVersion(version));
      }
      helloDone := true;
      return HelloOk;
    }

    method Intern(body: seq<byte>) returns (reply: Reply)
      requires Valid()
      modifies Repr()
      ensures Valid() && writer == old(writer) && (State(), reply) == OnIntern(old(State()), body)
    {
      hide Interning, ParseIntern;
      if !helloDone || !sessionOpened {
        return Refused(SessionRequired);
      }
      var request := ParseIntern(body);
      if request.Bad? {
        return Refused(request.why);
      }
      var (kind, name) := request.value;
      if writer == null {
        return Refused(NoOpenSession);
      }
      var known := Dict.KindFromByte(kind);
      if known.Err? {
        return Refused(UnknownKind);
      }
      var id := writer.Intern(known.value, name);
      match id {
        case Ok(n) => return InternOk(n);
        case Err(e) => return Refused(Failed(e));
      }
    }

    method OpenSession(body: seq<byte>) returns (reply: Reply)
      requires Valid()
      modifies this
      ensures Valid() && (State(), reply) == OnOpen(old(State()), body)
      ensures writer == old(writer) || (writer != null && fresh(writer) && fresh(writer.dictionary))
    {
      hide ParseOpen, Journal.FileOf;
      if !helloDone {
        return Refused(HelloRequired);
      }
      var request := ReadOpenRequest(body);
      if request.Bad? {
        return Refused(request.why);
      }
      var q := request.value;
      OpenRequestFits(body);
      var header := Header.New(q.sessionId, q.startUtcUnixMs, q.monoOriginNs, q.producerName, q.producerVersion);
      var created := new SessionWriter.OpenNew(header.value);
      if writer != null {
        disk := disk[fileName := writer.file];
      }
      assert disk == Dropped(old(State()));
      writer, fileName, sessionOpened := created, q.fileName, true;
      disk := disk - {q.fileName};
      return OpenSessionOk;
    }

    method AppendEvent(body: seq<byte>) returns (reply: Reply)
      requires Valid()
      modifies Repr()
      ensures Valid() && writer == old(writer) && (State(), reply) == OnAppend(old(State()), body)
    {
      hide ParseAppend, Appending, Flushing;
      if !helloDone || !sessionOpened {
        return Refused(SessionRequired);
      }
      var request := ReadAppendRequest(body);
      if request.Bad? {
        return Refused(request.why);
      }
      if writer == null {
        return Refused(NoOpenSession);
      }
      var appended := writer.AppendEvent(request.value);
      if appended.Err? {
        return Refused(Failed(appended.error));
      }
      if flushEveryEvent {
        var flushed := writer.FlushChunk();
      }
      return AppendEventOk(appended.value);
    }

    method FinishSession() returns (reply: Reply)
      requires Valid()
      modifies Repr()
      ensures Valid() && writer == null && (State(), reply) == OnFinish(old(State()))
    {
      hide Finishing, Journal.FileOf;
      if writer == null {
        return Refused(NoOpenSession);
      }
      var w := writer;
      writer := null;
      var finished := w.Finish();
      disk := disk[fileName := w.file];
      match finished {
        case Ok(_) => return FinishSessionOk;
        case Err(e) => return Refused(Failed(e));
      }
    }

    method Flush() returns (reply: Reply)
      requires Valid()
      modifies Repr()
      ensures Valid() && writer == old(writer) && (State(), reply) == OnFlush(old(State()))
    {
      hide Flushing;
      if writer == null {
        return Refused(NoOpenSession);
      }
      var flushed := writer.FlushChunk();
      match flushed {
        case Ok(_) => return FlushOk;
        case Err(e) => return Refused(Failed(e));
      }
    }

    method Handle(frame: seq<byte>) returns (reply: Reply)
      requires Valid()
      modifies Repr()
      ensures Valid() && fresh(Repr() - old(Repr()))
      ensures (State(), reply) == Handling(old(State()), frame)
    {
      hide OnHello, OnIntern, OnOpen, OnAppend, OnFinish, OnFlush;
      if |frame| == 0 {
        return Refused(EmptyFrame);
      }
      var opcode, body := frame[0], frame[1..];
      if opcode == OP_HELLO {
        reply := Hello(body);
      } else if opcode == OP_INTERN {
        reply := Intern(body);
      } else if opcode == OP_OPEN_SESSION {
        reply := OpenSession(body);
      } else if opcode == OP_APPEND_EVENT {
        reply := AppendEvent(body);
      } else if opcode == OP_FINISH_SESSION {
        reply := FinishSession();
      } else if opcode == OP_PING {
        reply := Pong;
      } else if opcode == OP_FLUSH {
        reply := Flush();
      } else {
        reply := Refused(UnknownCommand);
      }
    }

    /** Answers every frame of the input, in order, until it ends or a frame is unreadable. */
    method HandleClient(input: seq<byte>) returns (replies: seq<Reply>)
      requires Valid()
      modifies Repr()
      ensures Valid() && fresh(Repr() - old(Repr()))
      ensures (State(), replies) == Serving(old(State()), Incomings(input))
    {
      hide Handling, ReadFrame, Serving, Incomings;
      replies := [];
      var stream := input;
      ServingBehind(State(), [], Incomings(input));
      while true
        invariant Valid() && fresh(Repr() - old(Repr()))
        invariant Behind(replies, Serving(State(), Incomings(stream))) == Serving(old(State()), Incomings(input))
        decreases |stream|
      {
        var incoming := ReadFrame(stream);
        ServingOne(State(), stream, replies);
        if !incoming.Frame? {
          return;
        }
        var reply := Handle(incoming.content);
        replies := replies + [reply];
        stream := incoming.rest;
      }
    }
  }

  /** Replies already sent in front of those still to come. */
  function Behind(sent: seq<Reply>, r: (AgentState, seq<Reply>)): (AgentState, seq<Reply>) {
    (r.0, sent + r.1)
  }

  lemma ServingBehind(a: AgentState, sent: seq<Reply>, frames: seq<seq<byte>>)
    requires sent == []
    ensures Behind(sent, Serving(a, frames)) == Serving(a, frames)
  {
    hide Serving;
    assert [] + Serving(a, frames).1 == Serving(a, frames).1;
  }

  lemma ServingOne(a: AgentState, stream: seq<byte>, sent: seq<Reply>)
    ensures Behind(sent, Serving(a, Incomings(stream))) ==
            var incoming := ReadFrame(stream);
            if !incoming.Frame? then (a, sent)
            else
              var h := Handling(a, incoming.content);
              Behind(sent + [h.1], Serving(h.0, Incomings(incoming.rest)))
  {
    hide Handling, ReadFrame;
    var incoming := ReadFrame(stream);
    if incoming.Frame? {
      assert Incomings(stream)[1..] == Incomings(incoming.rest);
      var (b, reply) := Handling(a, incoming.content);
      assert sent + ([reply] + Serving(b, Incomings(incoming.rest)).1)
          == sent + [reply] + Serving(b, Incomings(incoming.rest)).1;
    } else {
      assert sent + [] == sent;
    }
  }

  // ---- The request bodies, read with a running offset ----

  method ReadText(body: seq<byte>, start: nat, what: OpenText) returns (r: Parsed<(Text, nat)>)
    requires start <= |body|
    ensures r == TakeText(body[start..], what)
  {
    hide U16, Valid;
    var off := start;
    if |body| < off + 2 {
      return Bad(TextLengthMissing(what));
    }
    assert body[start..][..2] == body[off..off + 2];
    var len: nat := U16(body[off..off + 2]);
    off := off + 2;
    if |body| < off + len {
      return Bad(TextTruncated(what));
    }
    assert body[start..][2..2 + len] == body[off..off + len];
    if !Valid(body[off..off + len]) {
      return Bad(TextNotUtf8(what));
    }
    return Fine((body[off..off + len], 2 + len));
  }

  method ReadOpenRequest(body: seq<byte>) returns (r: Parsed<OpenRequest>)
    ensures r == ParseOpen(body)
  {
    hide U64, TakeText, SafeFileName;
    var off := 0;
    assert body[0..] == body;
    var file := ReadText(body, off, FileName);
    if file.Bad? {
      return Bad(file.why);
    }
    off := off + file.value.1;
    if !SafeFileName(file.value.0) {
      return Bad(InvalidFileName);
    }
    ghost var b := body[file.value.1..];
    if |body| < off + 16 {
      return Bad(SessionIdTruncated);
    }
    var sessionId := body[off..off + 16];
    assert b[..16] == sessionId;
    off := off + 16;
    if |body| < off + 8 + 8 {
      return Bad(TimestampsTruncated);
    }
    assert b[16..24] == body[off..off + 8];
    var startUtcUnixMs := Signed64(U64(body[off..off + 8]));
    off := off + 8;
    assert b[24..32] == body[off..off + 8];
    var monoOriginNs := U64(body[off..off + 8]);
    off := off + 8;
    assert b[32..] == body[off..];
    var name := ReadText(body, off, ProducerName);
    if name.Bad? {
      return Bad(name.why);
    }
    assert b[32 + name.value.1..] == body[off + name.value.1..];
    off := off + name.value.1;
    var version := ReadText(body, off, ProducerVersion);
    if version.Bad? {
      return Bad(version.why);
    }
    if |name.value.0| > 32 {
      return Bad(ProducerNameTooLong);
    }
    if |version.value.0| > 16 {
      return Bad(ProducerVersionTooLong);
    }
    return Fine(OpenRequest(file.value.0, sessionId, startUtcUnixMs, monoOriginNs, name.value.0, version.value.0));
  }

  method ReadAppendRequest(body: seq<byte>) returns (r: Parsed<Writer.AppendEvent>)
    ensures r == ParseAppend(body)
  {
    hide U16, U32, U64, ParseValue;
    if |body| < 8 + 4 + 4 + 4 + 4 + 1 + 2 {
      return Bad(BodyTooShort);
    }
    var off := 0;
    var monotonicNs := U64(body[off..off + 8]);
    off := off + 8;
    var domainId := U32(body[off..off + 4]);
    off := off + 4;
    var categoryId := U32(body[off..off + 4]);
    off := off + 4;
    var eventNameId := U32(body[off..off + 4]);
    off := off + 4;
    var correlationId := U32(body[off..off + 4]);
    off := off + 4;
    var severity := Event.SeverityFromByte(body[off]);
    if severity.Err? {
      return Bad(BadSeverity);
    }
    off := off + 1;
    var fieldCount := U16(body[off..off + 2]);
    off := off + 2;
    if fieldCount != 1 {
      return Bad(OneFieldOnly);
    }
    if off + 4 + 1 + 3 > |body| {
      return Bad(FieldHeaderTruncated);
    }
    var nameId := U32(body[off..off + 4]);
    off := off + 4;
    var typeTag := body[off];
    off := off + 1;
    off := off + 3;
    var value := ParseValue(typeTag, body[off..]);
    if value.Bad? {
      return Bad(value.why);
    }
    var payload := Payload.TypedPayload([Payload.Field(nameId, value.value)]);
    return Fine(Writer.AppendEvent(monotonicNs, domainId, categoryId, eventNameId, correlationId, severity.value,
        payload));
  }
}
