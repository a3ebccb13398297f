/** An acknowledged event that never reaches its file. */
module AgentLoss {
  import opened Wrappers
  import opened Bytes
  import opened Utf8
  import opened Dict
  import opened Payload
  import opened Event
  import opened Protocol
  import opened Writer
  import opened WriterTheorems
  import opened WriterLimits
  import opened Agent
  import opened AgentTheorems
  import opened AgentDurability
  import opened EndToEnd
  import Reader
  import Recovery
  import Header

  /** The requests that intern one name of every kind, and a flush. */
  function SetUpRequests(): seq<seq<byte>> {
    [[OP_INTERN] + InternBody(1, NAME_D), [OP_INTERN] + InternBody(2, NAME_C), [OP_INTERN] + InternBody(3, NAME_E),
     [OP_INTERN] + InternBody(4, NAME_S), [OP_FLUSH]]
  }

  /** An append whose one field is a blob of 4,097 bytes, one more than an event can carry. */
  function LongBlob(): Value { Blob(Zeros(4097)) }

  function LongAppend(): seq<byte> { AppendBody(0, 1, 1, 1, 0, 0, 1, TYPE_BYTES, WireValue(LongBlob())) }

  function LongEvent(): AppendEvent { AppendEvent(0, 1, 1, 1, 0, Trace, TypedPayload([Field(1, LongBlob())])) }

  /** An open session with nothing pending, whose agent flushes every event and knows the names. */
  predicate Ready(a: AgentState) {
    && a.helloDone && a.sessionOpened && a.flushEveryEvent && a.writer.Some?
    && Knows(a.writer.value) && a.writer.value.pendingDict == [] && a.writer.value.pendingEvents == []
    && FiledEvents(a.writer.value.log) == []
  }

  lemma LongReadsBack()
    ensures ParseAppend(LongAppend()) == Fine(LongEvent())
  {
    hide AppendBody, ParseAppend, WireValue, Zeros;
    AppendReadsBack(0, 1, 1, 1, 0, 0, 1, LongBlob());
  }

  lemma LongNotEncoded(n: u64)
    ensures !SealsEvents([Record(LongEvent(), n)])
  {
    var rec := Record(LongEvent(), n);
    var fs := rec.payload.fields;
    assert fs[0] in fs && !ValueFits(fs[0].value);
    PayloadEncodesIff(rec.payload);
    hide Zeros, EncodePayload;
    assert EncodeRecord(rec).Err?;
    assert EncodeRecords([rec]).Err?;
  }

  lemma LongTaken(w: WriterState)
    requires Knows(w) && !w.finished && w.pendingEvents == []
    ensures Appending(w, LongEvent()) == (Buffered(w, LongEvent()), Ok(w.nextEvent))
  {
    hide Zeros, Flushing, Reader.CheckRefs;
    Recovery.CheckRefsIff(w.names, Record(LongEvent(), w.nextEvent));
  }

  /** With no names pending, a failed flush writes nothing. */
  lemma FailedFlushWritesNothing(s: WriterState)
    requires s.pendingDict == [] && Flushing(s).1.Err?
    ensures Flushing(s).0 == s
  {
  }

  lemma LongShort()
    ensures Short(LongEvent().payload)
  {
    OneFieldShort(LongEvent().payload);
    hide Short, LongBlob;
  }

  /** Flushing behind the append fails and leaves the file without events. */
  lemma LongUnwritten(w: WriterState)
    requires Held(w) && Counted(w, AppendOp(LongEvent())) && Knows(w)
    requires w.pendingDict == [] && w.pendingEvents == [] && FiledEvents(w.log) == []
    ensures var t := Flushing(Buffered(w, LongEvent())).0;
            Reader.Opened(File(t)).Ok? && Reader.Opened(File(t)).value.events == []
  {
    var u := Buffered(w, LongEvent());
    LongTaken(w);
    LongNotEncoded(w.nextEvent);
    assert u.pendingEvents == [Record(LongEvent(), w.nextEvent)];
    LongShort();
    hide LongEvent, Appending, Flushing, Inv, Reader.Opened, Knows, SealsEvents, SealsEntries, FiledEvents, File,
         Short, ShortPending, MeetsWrap, Reader.CheckRefs;
    HeldKeeps(w, AppendOp(LongEvent()));
    HeldFails(u);
    FailedFlushWritesNothing(u);
    FileReadsBack(u);
  }

  /** The append is acknowledged, and the session's file opens without any event. */
  predicate AcknowledgedWithout(b: AgentState, r: Reply) {
    && r.AppendEventOk? && b.writer.Some?
    && Reader.Opened(File(b.writer.value)).Ok? && Reader.Opened(File(b.writer.value)).value.events == []
  }

  lemma LongAcknowledged(a: AgentState)
    requires AgentInv(a) && RequestRoom(a) && Ready(a)
    ensures var (b, r) := OnAppend(a, LongAppend()); AcknowledgedWithout(b, r)
  {
    ReadyFacts(a);
    hide *;
    var w := a.writer.value;
    LongReadsBack();
    LongTaken(w);
    LongUnwritten(w);
    OnAppendIs(a, LongAppend(), LongEvent());
    WithoutIs(a, LongEvent());
  }

  lemma ReadyFacts(a: AgentState)
    requires AgentInv(a) && RequestRoom(a) && Ready(a)
    ensures a.helloDone && a.sessionOpened && a.flushEveryEvent && a.writer.Some?
    ensures var w := a.writer.value;
            && Held(w) && !w.finished && Counted(w, AppendOp(LongEvent())) && Knows(w)
            && w.pendingDict == [] && w.pendingEvents == [] && FiledEvents(w.log) == []
  {
    hide Inv, ShortPending, LongEvent, Knows, FiledEvents;
  }

  lemma WithoutIs(a: AgentState, ev: AppendEvent)
    requires a.writer.Some? && Appending(a.writer.value, ev).1.Ok?
    requires var t := Flushing(Appending(a.writer.value, ev).0).0;
             Reader.Opened(File(t)).Ok? && Reader.Opened(File(t)).value.events == []
    ensures var (u, r) := Appending(a.writer.value, ev);
            AcknowledgedWithout(a.(writer := Some(Flushing(u).0)), AppendEventOk(r.value))
  {
    hide Appending, Flushing, Reader.Opened, File;
  }

  lemma OnAppendIs(a: AgentState, body: seq<byte>, ev: AppendEvent)
    requires a.helloDone && a.sessionOpened && a.flushEveryEvent && a.writer.Some? && ParseAppend(body) == Fine(ev)
    requires Appending(a.writer.value, ev).1.Ok?
    ensures var (u, r) := Appending(a.writer.value, ev);
            OnAppend(a, body) == (a.(writer := Some(Flushing(u).0)), AppendEventOk(r.value))
  {
    hide ParseAppend, Appending, Flushing;
  }

  // ---- A new connection gets there ----

  lemma InternRequest(a: AgentState, kind: DictKind, name: seq<byte>)
    requires AgentInv(a) && a.writer.Some? && name != [] && |name| <= 1024 && Valid(name)
    ensures Handling(a, [OP_INTERN] + InternBody(KindByte(kind), name)).0
            == a.(writer := Some(Step(a.writer.value, InternOp(kind, name))))
  {
    hide Interning, InternBody, AgentInv, Valid;
    InternHandled(a, kind, name);
  }

  lemma FlushRequest(a: AgentState)
    requires a.writer.Some?
    ensures Handling(a, [OP_FLUSH]).0 == a.(writer := Some(Flushing(a.writer.value).0))
  {
    hide Flushing, OnHello, OnIntern, OnOpen, OnAppend, OnFinish;
  }

  /** One more request on a young connection. */
  lemma Onwards(a: AgentState, frame: seq<byte>, n: nat)
    requires AgentInv(a) && AgentWithin(a, n) && n < 100
    ensures AgentInv(Handling(a, frame).0) && AgentWithin(Handling(a, frame).0, n + 1)
  {
    hide AgentInv, Handling;
    assert RequestRoom(a);
    HandlingKeeps(a, frame);
    HandlingWithin(a, frame, n);
  }

  /** The agent's writer has done the operations, on a connection that is still young. */
  ghost predicate Did(a: AgentState, b: AgentState, w: WriterState, n: nat) {
    b == a.(writer := Some(w)) && AgentInv(b) && AgentWithin(b, n) && n < 100
  }

  lemma InternDid(a: AgentState, b: AgentState, w: WriterState, n: nat, kind: DictKind, name: Text)
    requires Did(a, b, w, n) && n < 99 && name != [] && |name| <= 1024
    ensures Did(a, Handling(b, [OP_INTERN] + InternBody(KindByte(kind), name)).0, Step(w, InternOp(kind, name)), n + 1)
  {
    hide AgentInv, AgentWithin, Handling, InternBody, Step, Valid;
    InternRequest(b, kind, name);
    Onwards(b, [OP_INTERN] + InternBody(KindByte(kind), name), n);
  }

  lemma FlushDid(a: AgentState, b: AgentState, w: WriterState, n: nat)
    requires Did(a, b, w, n) && n < 99
    ensures Did(a, Handling(b, [OP_FLUSH]).0, Step(w, FlushOp), n + 1)
  {
    hide AgentInv, AgentWithin, Handling, Flushing;
    FlushRequest(b);
    Onwards(b, [OP_FLUSH], n);
  }

  /** What the set-up requests leave of an agent, and the set-up operations of its writer. */
  lemma FiveServed(a: AgentState, f: seq<seq<byte>>)
    requires |f| == 5
    ensures Serving(a, f).0 ==
            Handling(Handling(Handling(Handling(Handling(a, f[0]).0, f[1]).0, f[2]).0, f[3]).0, f[4]).0
  {
    hide Serving, Handling;
    var a1 := Handling(a, f[0]).0;
    var a2 := Handling(a1, f[1]).0;
    var a3 := Handling(a2, f[2]).0;
    var a4 := Handling(a3, f[3]).0;
    ServingFirst(a, f);
    ServingFirst(a1, f[1..]);
    ServingFirst(a2, f[2..]);
    ServingFirst(a3, f[3..]);
    ServingFirst(a4, f[4..]);
    ServingFirst(Handling(a4, f[4]).0, []);
    assert f[1..][1..] == f[2..] && f[2..][1..] == f[3..] && f[3..][1..] == f[4..] && f[4..][1..] == [];
  }

  lemma ServingFirst(a: AgentState, frames: seq<seq<byte>>)
    ensures Serving(a, frames).0 == if frames == [] then a else Serving(Handling(a, frames[0]).0, frames[1..]).0
  {
    hide Handling;
  }

  lemma SetUpSteps(h: Header.Laid)
    ensures After(Fresh(h), SetUp()) ==
            var s := Step(Step(Fresh(h), InternOp(Domain, NAME_D)), InternOp(Category, NAME_C));
            Step(Step(Step(s, InternOp(EventName, NAME_E)), InternOp(String, NAME_S)), FlushOp)
  {
    SetUpSplit(h);
    hide After, Step, Flushing;
    FourSteps(Fresh(h), SetUp()[..4]);
    FlushStep(After(Fresh(h), SetUp()[..4]));
  }

  lemma RequestsAre()
    ensures var f := SetUpRequests();
            && |f| == 5 && f[4] == [OP_FLUSH]
            && f[0] == [OP_INTERN] + InternBody(KindByte(Domain), NAME_D)
            && f[1] == [OP_INTERN] + InternBody(KindByte(Category), NAME_C)
            && f[2] == [OP_INTERN] + InternBody(KindByte(EventName), NAME_E)
            && f[3] == [OP_INTERN] + InternBody(KindByte(String), NAME_S)
    ensures |NAME_D| == |NAME_C| == |NAME_E| == |NAME_S| == 1
  {
    hide InternBody;
  }

  lemma YoungWriter(h: Header.Laid)
    ensures Within(Fresh(h), 0)
  {
  }

  lemma DidNothing(a: AgentState, w: WriterState)
    requires AgentInv(a) && a.writer == Some(w) && Within(w, 0)
    ensures Did(a, a, w, 0)
  {
    hide AgentInv;
  }

  /** The set-up requests do to the agent's writer what the set-up operations do. */
  lemma SetUpServed(a: AgentState, h: Header.Laid)
    requires AgentInv(a) && a.writer == Some(Fresh(h))
    ensures Did(a, Serving(a, SetUpRequests()).0, After(Fresh(h), SetUp()), 5)
  {
    hide *;
    var f := SetUpRequests();
    RequestsAre();
    assert Within(Fresh(h), 0) by { YoungWriter(h); }
    DidNothing(a, Fresh(h));
    FiveServed(a, f);
    SetUpSteps(h);
    var w1 := Step(Fresh(h), InternOp(Domain, NAME_D));
    var w2 := Step(w1, InternOp(Category, NAME_C));
    var w3 := Step(w2, InternOp(EventName, NAME_E));
    var w4 := Step(w3, InternOp(String, NAME_S));
    var a1 := Handling(a, f[0]).0;
    var a2 := Handling(a1, f[1]).0;
    var a3 := Handling(a2, f[2]).0;
    InternDid(a, a, Fresh(h), 0, Domain, NAME_D);
    InternDid(a, a1, w1, 1, Category, NAME_C);
    InternDid(a, a2, w2, 2, EventName, NAME_E);
    InternDid(a, a3, w3, 3, String, NAME_S);
    FlushDid(a, Handling(a3, f[3]).0, w4, 4);
  }

  lemma RoomEarly(a: AgentState)
    requires AgentWithin(a, 5)
    ensures RequestRoom(a)
  {
  }

  /**
   On a new connection to an agent that flushes every event: after OpenSession, four names and a flush, the append of a
   blob of 4,097 bytes is acknowledged, and the session's file holds no event.
   */
  lemma AcknowledgedLost(q: OpenRequest)
    requires Acceptable(q)
    ensures var a := Serving(Begun(true, q), SetUpRequests()).0;
            var (b, r) := OnAppend(a, LongAppend()); AcknowledgedWithout(b, r)
  {
    var h := HeaderOf(q);
    BegunIs(true, q);
    FreshInv(h);
    SetUpServed(Begun(true, q), h);
    RoomEarly(Serving(Begun(true, q), SetUpRequests()).0);
    SetUpIs(h);
    hide *;
    LongAcknowledged(Serving(Begun(true, q), SetUpRequests()).0);
  }
}
