/** What the agent keeps over every sequence of requests. */
module AgentTheorems {
  import opened Wrappers
  import opened Bytes
  import opened Protocol
  import opened Writer
  import opened WriterTheorems
  import opened Agent
  import Dict
  import Utf8
  import Reader
  import Journal

  /** A writer the agent can hold: its own invariant, not finished, and only short events pending. */
  ghost predicate Held(w: WriterState) { Inv(w) && !w.finished && ShortPending(w) }

  /** A held writer implies that Hello and OpenSession were answered, and its own invariant. */
  ghost predicate AgentInv(a: AgentState) {
    && (a.sessionOpened ==> a.helloDone)
    && (a.writer.Some? ==> a.sessionOpened && Held(a.writer.value))
  }

  /** Room for one more request: the counters and the counts of what is pending have not run out. */
  predicate RequestRoom(a: AgentState) {
    a.writer.Some? ==>
      var w := a.writer.value;
      && w.nextChunk < TWO_64 - 4 && w.nextEvent < TWO_64 - 2
      && |w.pendingDict| < TWO_32 - 1 && |w.pendingEvents| < TWO_32 - 1
  }

  predicate RoomForFrames(a: AgentState, frames: seq<seq<byte>>)
    decreases |frames|
  {
    frames != [] ==> RequestRoom(a) && RoomForFrames(Handling(a, frames[0]).0, frames[1..])
  }

  /** A request carries one field, so the event it appends is short. */
  lemma ParsedShort(body: seq<byte>)
    requires ParseAppend(body).Fine?
    ensures Short(ParseAppend(body).value.payload)
  {
    var p := ParseAppend(body).value.payload;
    assert |p.fields| == 1 by { hide ParseValue; }
    OneFieldShort(p);
  }

  /** A held writer has room for short events as long as nothing has run out, and stays one that can be held. */
  lemma HeldKeeps(w: WriterState, op: Op)
    requires Held(w) && Counted(w, op) && ShortOp(op)
    ensures Room(w, op) && Held(Step(w, op))
  {
    ShortRoom(w, op);
    hide Inv, Step, Counted, MeetsWrap, ShortPending;
    StepKeeps(w, op);
  }

  /** A flush of a held writer fails exactly when it is stuck, and keeps it stuck. */
  lemma HeldFails(w: WriterState)
    requires Held(w)
    ensures Flushing(w).1.Err? <==> Stuck(w)
    ensures Stuck(w) ==> Stuck(Flushing(w).0)
  {
    FlushFailsIff(w);
    ShortNeverWraps(w);
    hide Stuck, Flushing, FlushWraps;
  }

  lemma FlushAddsTwo(s: WriterState)
    ensures |Flushing(s).0.log| <= |s.log| + 2 && Flushing(s).0.nextEvent == s.nextEvent
  {
    hide Journal.Sealed;
  }

  lemma StepAddsTwo(s: WriterState, op: Op)
    ensures |Step(s, op).log| <= |s.log| + 2
    ensures Step(s, op).nextEvent == s.nextEvent || Step(s, op).nextEvent == Next64(s.nextEvent)
  {
    hide Flushing, Dict.Interned, Reader.CheckRefs;
    match op
    case InternOp(_, _) =>
    case AppendOp(ev) => FlushAddsTwo(Buffered(s, ev));
    case FlushOp => FlushAddsTwo(s);
  }

  lemma ParseInternBounds(body: seq<byte>)
    requires ParseIntern(body).Fine?
    ensures 1 <= |ParseIntern(body).value.1| <= 1024
  {
  }

  lemma InternKeepsAgent(a: AgentState, body: seq<byte>)
    requires AgentInv(a) && RequestRoom(a)
    ensures AgentInv(OnIntern(a, body).0)
  {
    hide ParseIntern, ParseAppend, Interning, Held;
    if ParseIntern(body).Fine? && a.writer.Some? && Dict.KindFromByte(ParseIntern(body).value.0).Ok? {
      var (kind, name) := ParseIntern(body).value;
      ParseInternBounds(body);
      HeldKeeps(a.writer.value, InternOp(Dict.KindFromByte(kind).value, name));
    }
  }

  lemma AppendKeepsAgent(a: AgentState, body: seq<byte>)
    requires AgentInv(a) && RequestRoom(a)
    ensures AgentInv(OnAppend(a, body).0)
  {
    hide ParseAppend, Appending, Flushing, Held, Short;
    if ParseAppend(body).Fine? && a.writer.Some? {
      ParsedShort(body);
      var w, ev := a.writer.value, ParseAppend(body).value;
      HeldKeeps(w, AppendOp(ev));
      StepAddsTwo(w, AppendOp(ev));
      var u := Appending(w, ev).0;
      NextChunkIs(w);
      NextChunkIs(u);
      HeldKeeps(u, FlushOp);
    }
  }

  lemma NextChunkIs(s: WriterState)
    requires Held(s)
    ensures s.nextChunk == |s.log| + 1
  {
  }

  lemma OpenKeepsAgent(a: AgentState, body: seq<byte>)
    requires AgentInv(a)
    ensures AgentInv(OnOpen(a, body).0)
  {
    hide ParseOpen, Inv;
    if ParseOpen(body).Fine? {
      OpenRequestFits(body);
      FreshInv(HeaderOf(ParseOpen(body).value));
    }
  }

  lemma FlushKeepsAgent(a: AgentState, frame: seq<byte>)
    requires AgentInv(a) && RequestRoom(a)
    ensures AgentInv(OnFlush(a).0)
  {
    hide Flushing, Held, ParseAppend;
    if a.writer.Some? {
      HeldKeeps(a.writer.value, FlushOp);
    }
  }

  /** Every request keeps the agent's invariant. */
  lemma HandlingKeeps(a: AgentState, frame: seq<byte>)
    requires AgentInv(a) && RequestRoom(a)
    ensures AgentInv(Handling(a, frame).0)
  {
    hide Held, OnIntern, OnOpen, OnAppend, OnFlush, Finishing, ParseAppend;
    if frame != [] {
      var op, body := frame[0], frame[1..];
      assert frame == [op] + body;
      if op == OP_INTERN {
        InternKeepsAgent(a, body);
      } else if op == OP_OPEN_SESSION {
        OpenKeepsAgent(a, body);
      } else if op == OP_APPEND_EVENT {
        AppendKeepsAgent(a, body);
      } else if op == OP_FLUSH {
        FlushKeepsAgent(a, frame);
      }
    }
  }

  // ---- Acknowledged sequence numbers ----

  /**
   The writer counts the acknowledged events, or it has failed to flush a full buffer and can take no event any more.
   */
  ghost predicate CountsAcks(a: AgentState, acks: nat) {
    a.writer.Some? ==> Counting(a.writer.value, acks)
  }

  ghost predicate Counting(w: WriterState, acks: nat) {
    w.nextEvent == acks + 1 || (Stuck(w) && MAX_BUFFERED <= |w.pendingEvents|)
  }

  const MAX_BUFFERED: nat := 65_535

  function AcksAfter(acks: nat, r: Reply): nat {
    if r.OpenSessionOk? then 0 else if r.AppendEventOk? then acks + 1 else acks
  }

  lemma FailedFlushKeepsEvents(s: WriterState)
    ensures Flushing(s).1.Err? ==> Flushing(s).0.pendingEvents == s.pendingEvents
  {
    hide Journal.Sealed;
  }

  /** A full buffer that fails to flush, or flushes, leaves the count as it should be. */
  lemma FullBufferCounts(t: WriterState, acks: nat)
    requires Held(t) && BufferFull(t)
    requires Flushing(t).1.Ok? ==> t.nextEvent == acks + 2
    ensures Counting(Flushing(t).0, if Flushing(t).1.Ok? then acks + 1 else acks)
  {
    HeldFails(t);
    FlushAddsTwo(t);
    FailedFlushKeepsEvents(t);
    hide Held, Stuck, Flushing;
  }

  /** Buffering one more event behind one that cannot be flushed. */
  lemma BufferStaysStuck(w: WriterState, ev: AppendEvent)
    requires Stuck(w)
    ensures Stuck(Buffered(w, ev))
  {
    hide SealsEntries, SealsEvents;
    GrowingNeverHelps([], Dict.DictEntry(Dict.Domain, 1, []), w.pendingEvents, Record(ev, w.nextEvent));
  }

  /** An append is acknowledged with the next number; once a full buffer cannot be flushed no append is acknowledged. */
  lemma AppendCounts(w: WriterState, ev: AppendEvent, acks: nat)
    requires Held(w) && Counted(w, AppendOp(ev)) && Short(ev.payload) && Counting(w, acks)
    ensures var (u, r) := Appending(w, ev);
            if r.Ok? then r.value == acks + 1 && Counting(u, acks + 1) else Counting(u, acks)
  {
    if Numbered(w, AppendOp(ev)) != [] {
      var t := Buffered(w, ev);
      HeldBuffers(w, ev);
      if Stuck(w) {
        BufferStaysStuck(w, ev);
      }
      hide Held, Stuck, Flushing, Reader.CheckRefs, Short;
      if BufferFull(t) {
        HeldFails(t);
        FullBufferCounts(t, acks);
      }
    }
  }

  lemma HeldBuffers(w: WriterState, ev: AppendEvent)
    requires Held(w) && Counted(w, AppendOp(ev)) && Short(ev.payload) && Numbered(w, AppendOp(ev)) != []
    ensures Held(Buffered(w, ev))
  {
    BufferKeeps(w, ev);
    BufferedShort(w, ev);
    hide Inv, ShortPending, Short, Reader.CheckRefs;
  }

  lemma FlushCounts(w: WriterState, acks: nat)
    requires Held(w) && Counting(w, acks)
    ensures Counting(Flushing(w).0, acks)
  {
    FlushAddsTwo(w);
    FailedFlushKeepsEvents(w);
    HeldFails(w);
    hide Held, Stuck, Flushing;
  }

  lemma InternCounts(w: WriterState, kind: Dict.DictKind, name: seq<byte>, acks: nat)
    requires Utf8.Valid(name)
    requires Held(w) && Counted(w, InternOp(kind, name)) && Counting(w, acks)
    ensures Counting(Interning(w, kind, name).0, acks)
  {
    ShortRoom(w, InternOp(kind, name));
    hide Inv, Dict.Interned, MeetsWrap, ShortPending;
    if Stuck(w) {
      StepKeepsStuck(w, InternOp(kind, name));
    }
  }

  lemma InternKeepsCount(a: AgentState, body: seq<byte>, acks: nat)
    requires AgentInv(a) && RequestRoom(a) && CountsAcks(a, acks)
    ensures CountsAcks(OnIntern(a, body).0, acks)
    ensures !OnIntern(a, body).1.AppendEventOk? && !OnIntern(a, body).1.OpenSessionOk?
  {
    hide ParseIntern, ParseAppend, Interning, Held, Counting;
    if ParseIntern(body).Fine? && a.writer.Some? && Dict.KindFromByte(ParseIntern(body).value.0).Ok? {
      var (kind, name) := ParseIntern(body).value;
      ParseInternBounds(body);
      InternCounts(a.writer.value, Dict.KindFromByte(kind).value, name, acks);
    }
  }

  lemma AppendKeepsCount(a: AgentState, body: seq<byte>, acks: nat)
    requires AgentInv(a) && RequestRoom(a) && CountsAcks(a, acks)
    ensures var (b, r) := OnAppend(a, body);
            && !r.OpenSessionOk? && (r.AppendEventOk? ==> r.sequence == acks + 1)
            && CountsAcks(b, AcksAfter(acks, r))
  {
    hide ParseAppend, Appending, Flushing, Held, Counting, Short;
    if ParseAppend(body).Fine? && a.writer.Some? {
      ParsedShort(body);
      var w, ev := a.writer.value, ParseAppend(body).value;
      AppendCounts(w, ev, acks);
      HeldKeeps(w, AppendOp(ev));
      FlushCounts(Appending(w, ev).0, AcksAfter(acks, OnAppend(a, body).1));
    }
  }

  lemma OpenStartsCount(a: AgentState, body: seq<byte>, acks: nat)
    requires CountsAcks(a, acks)
    ensures var (b, r) := OnOpen(a, body); !r.AppendEventOk? && CountsAcks(b, AcksAfter(acks, r))
  {
    hide ParseOpen;
  }

  lemma FlushKeepsCount(a: AgentState, acks: nat)
    requires AgentInv(a) && CountsAcks(a, acks)
    ensures CountsAcks(OnFlush(a).0, acks) && !OnFlush(a).1.AppendEventOk? && !OnFlush(a).1.OpenSessionOk?
  {
    hide Flushing, Held, Counting;
    if a.writer.Some? {
      FlushCounts(a.writer.value, acks);
    }
  }

  /** One request: an acknowledged append carries the next number, and the count goes on. */
  lemma HandlingCounts(a: AgentState, frame: seq<byte>, acks: nat)
    requires AgentInv(a) && RequestRoom(a) && CountsAcks(a, acks)
    ensures var (b, r) := Handling(a, frame);
            (r.AppendEventOk? ==> r.sequence == acks + 1) && CountsAcks(b, AcksAfter(acks, r))
  {
    hide Counting, AgentInv, RequestRoom, OnIntern, OnOpen, OnAppend, OnFlush, Finishing;
    if frame != [] {
      var op, body := frame[0], frame[1..];
      assert frame == [op] + body;
      if op == OP_INTERN {
        InternKeepsCount(a, body, acks);
      } else if op == OP_OPEN_SESSION {
        OpenStartsCount(a, body, acks);
      } else if op == OP_APPEND_EVENT {
        AppendKeepsCount(a, body, acks);
      } else if op == OP_FLUSH {
        FlushKeepsCount(a, acks);
      }
    }
  }

  /** Appends acknowledged since the latest OpenSessionOk. */
  function Acks(replies: seq<Reply>): nat {
    if replies == [] then 0 else AcksAfter(Acks(replies[..|replies| - 1]), replies[|replies| - 1])
  }

  lemma AcksOne(before: seq<Reply>, r: Reply)
    ensures Acks(before + [r]) == AcksAfter(Acks(before), r)
  {
    assert (before + [r])[..|before|] == before;
  }

  /**
   Every frame gets exactly one reply, the invariant holds throughout, and the k-th AppendEventOk since the
   latest OpenSessionOk carries k.
   */
  lemma {:induction false} ServingCounts(a: AgentState, frames: seq<seq<byte>>, before: seq<Reply>)
    requires AgentInv(a) && RoomForFrames(a, frames) && CountsAcks(a, Acks(before))
    ensures var (b, replies) := Serving(a, frames);
            && AgentInv(b) && |replies| == |frames|
            && (forall i | 0 <= i < |replies| && replies[i].AppendEventOk? ::
                replies[i].sequence == Acks(before + replies[..i]) + 1)
    decreases |frames|
  {
    hide Handling, AgentInv, RequestRoom, CountsAcks;
    if frames != [] {
      var (b, r) := Handling(a, frames[0]);
      HandlingKeeps(a, frames[0]);
      HandlingCounts(a, frames[0], Acks(before));
      AcksOne(before, r);
      hide Acks;
      ServingCounts(b, frames[1..], before + [r]);
      var rest := Serving(b, frames[1..]).1;
      var replies := [r] + rest;
      assert Serving(a, frames).1 == replies;
      forall i | 0 <= i < |replies| && replies[i].AppendEventOk?
        ensures replies[i].sequence == Acks(before + replies[..i]) + 1
      {
        if i == 0 {
          assert before + replies[..0] == before;
        } else {
          assert before + replies[..i] == before + [r] + rest[..i - 1];
        }
      }
    }
  }

  // ---- Room is a matter of counting ----

  /** What a writer held after `n` requests can have used up at most. */
  predicate AgentWithin(a: AgentState, n: nat) {
    a.writer.Some? ==> Within(a.writer.value, 2 * n)
  }

  lemma WithinMore(w: WriterState, m: nat, n: nat)
    requires Within(w, m) && m <= n
    ensures Within(w, n)
  {
  }

  lemma InternWithin(a: AgentState, body: seq<byte>, n: nat)
    requires AgentWithin(a, n)
    ensures AgentWithin(OnIntern(a, body).0, n + 1)
  {
    hide ParseIntern, Interning, Within;
    if a.writer.Some? {
      WithinMore(a.writer.value, 2 * n, 2 * n + 2);
      if ParseIntern(body).Fine? && Dict.KindFromByte(ParseIntern(body).value.0).Ok? {
        var op := InternOp(Dict.KindFromByte(ParseIntern(body).value.0).value, ParseIntern(body).value.1);
        StepWithin(a.writer.value, op, 2 * n);
        WithinMore(Step(a.writer.value, op), 2 * n + 1, 2 * n + 2);
      }
    }
  }

  lemma AppendWithin(a: AgentState, body: seq<byte>, n: nat)
    requires AgentWithin(a, n)
    ensures AgentWithin(OnAppend(a, body).0, n + 1)
  {
    hide ParseAppend, Appending, Flushing, Within;
    if a.writer.Some? {
      WithinMore(a.writer.value, 2 * n, 2 * n + 2);
      if ParseAppend(body).Fine? {
        var op := AppendOp(ParseAppend(body).value);
        StepWithin(a.writer.value, op, 2 * n);
        var u := Step(a.writer.value, op);
        WithinMore(u, 2 * n + 1, 2 * n + 2);
        StepWithin(u, FlushOp, 2 * n + 1);
      }
    }
  }

  lemma FlushOrOpenWithin(a: AgentState, body: seq<byte>, n: nat)
    requires AgentWithin(a, n)
    ensures AgentWithin(OnFlush(a).0, n + 1) && AgentWithin(OnOpen(a, body).0, n + 1) && AgentWithin(a, n + 1)
  {
    if a.writer.Some? {
      StepWithin(a.writer.value, FlushOp, 2 * n);
    }
    hide ParseOpen, Flushing, Dropped;
  }

  lemma HandlingWithin(a: AgentState, frame: seq<byte>, n: nat)
    requires AgentWithin(a, n)
    ensures AgentWithin(Handling(a, frame).0, n + 1)
  {
    hide OnIntern, OnOpen, OnAppend, OnFlush, Finishing, Within;
    var body := if frame == [] then [] else frame[1..];
    InternWithin(a, body, n);
    AppendWithin(a, body, n);
    FlushOrOpenWithin(a, body, n);
  }

  const MANY_FRAMES: nat := 0x7FFF_FFF0

  /** Up to 2^31 - 16 requests always have room. */
  lemma {:induction false} FewFramesSuffice(a: AgentState, frames: seq<seq<byte>>, n: nat)
    requires AgentWithin(a, n) && n + |frames| <= MANY_FRAMES
    ensures RoomForFrames(a, frames)
    decreases |frames|
  {
    hide Handling;
    if frames != [] {
      HandlingWithin(a, frames[0], n);
      FewFramesSuffice(Handling(a, frames[0]).0, frames[1..], n + 1);
    }
  }

  lemma StartedInv(flushEveryEvent: bool)
    ensures AgentInv(Started(flushEveryEvent)) && CountsAcks(Started(flushEveryEvent), Acks([]))
  {
  }

  /** On a new connection with room all along. */
  lemma NewConnectionCounts(flushEveryEvent: bool, frames: seq<seq<byte>>)
    requires RoomForFrames(Started(flushEveryEvent), frames)
    ensures var (b, replies) := Serving(Started(flushEveryEvent), frames);
            AgentInv(b) && |replies| == |frames| && NumbersAcks(replies)
  {
    var a := Started(flushEveryEvent);
    StartedInv(flushEveryEvent);
    hide *;
    ServingCounts(a, frames, []);
    OwnAcks(Serving(a, frames).1);
  }

  /** The k-th acknowledged append since the latest OpenSessionOk carries k. */
  predicate NumbersAcks(replies: seq<Reply>) {
    forall i | 0 <= i < |replies| && replies[i].AppendEventOk? :: replies[i].sequence == Acks(replies[..i]) + 1
  }

  lemma OwnAcks(replies: seq<Reply>)
    requires forall i | 0 <= i < |replies| && replies[i].AppendEventOk? ::
               replies[i].sequence == Acks([] + replies[..i]) + 1
    ensures NumbersAcks(replies)
  {
    hide Acks;
    forall i | 0 <= i < |replies| && replies[i].AppendEventOk?
      ensures replies[i].sequence == Acks(replies[..i]) + 1
    {
      assert [] + replies[..i] == replies[..i];
    }
  }

  /** The same from the bytes a client sent: whatever has been flushed on the way, only what is pending counts. */
  lemma ConnectionCounts(flushEveryEvent: bool, ms: seq<Message>, torn: seq<byte>)
    requires forall m <- ms :: 1 + |m.body| <= MAX_FRAME_SIZE
    requires !ReadFrame(torn).Frame?
    requires RoomForFrames(Started(flushEveryEvent), Incomings(Stream(ms) + torn))
    ensures var (b, replies) := Serving(Started(flushEveryEvent), Incomings(Stream(ms) + torn));
            AgentInv(b) && |replies| == |ms| && NumbersAcks(replies)
  {
    hide *;
    StreamReadsBack(ms, torn);
    NewConnectionCounts(flushEveryEvent, Incomings(Stream(ms) + torn));
  }

  /** No more than 2^31 - 16 requests are never too many. */
  lemma FewMessagesCount(flushEveryEvent: bool, ms: seq<Message>, torn: seq<byte>)
    requires forall m <- ms :: 1 + |m.body| <= MAX_FRAME_SIZE
    requires !ReadFrame(torn).Frame? && |ms| <= MANY_FRAMES
    ensures RoomForFrames(Started(flushEveryEvent), Incomings(Stream(ms) + torn))
    ensures NumbersAcks(Serving(Started(flushEveryEvent), Incomings(Stream(ms) + torn)).1)
  {
    StreamReadsBack(ms, torn);
    hide Stream, Incomings, ReadFrame, Serving, RoomForFrames, NumbersAcks, AgentInv;
    FewFramesSuffice(Started(flushEveryEvent), Incomings(Stream(ms) + torn), 0);
    ConnectionCounts(flushEveryEvent, ms, torn);
  }
}
