/** The TypeScript client's frame reader: one frame out of however many chunks the socket delivers it in. */
module FrameReader {
  import opened Wrappers
  import opened Bytes
  import Protocol

  const FRAME_LIMIT: nat := 1_048_576

  datatype SocketEvent = Data(chunk: seq<byte>) | SocketError | SocketClose

  /** What became of the promise. */
  datatype Outcome = Pending | Resolved(frame: seq<byte>) | TooLarge(length: u32) | Errored | Closed

  function Concat(chunks: seq<seq<byte>>): seq<byte> {
    if chunks == [] then [] else Concat(chunks[..|chunks| - 1]) + chunks[|chunks| - 1]
  }

  /** What the bytes received so far decide. */
  function Decided(b: seq<byte>): Outcome {
    if |b| < 4 then Pending
    else if U32(b[..4]) > FRAME_LIMIT then TooLarge(U32(b[..4]))
    else if |b| < 4 + U32(b[..4]) then Pending
    else Resolved(b[..4 + U32(b[..4])])
  }

  /** The outcome after a list of socket events, when `before` has been received. */
  function Settled(events: seq<SocketEvent>, before: seq<byte>): Outcome {
    if events == [] then Pending
    else
      match events[0]
      case SocketError => Errored
      case SocketClose => Closed
      case Data(chunk) =>
        if Decided(before + chunk).Pending? then Settled(events[1..], before + chunk) else Decided(before + chunk)
  }

  /** How many of the events are listened to. */
  function Heard(events: seq<SocketEvent>, before: seq<byte>): (n: nat)
    ensures n <= |events|
  {
    if events == [] then 0
    else if events[0].Data? && Decided(before + events[0].chunk).Pending? then
      1 + Heard(events[1..], before + events[0].chunk)
    else 1
  }

  /** Copies the first `n` bytes of the chunks into one buffer. */
  method Combined(chunks: seq<seq<byte>>, n: nat) returns (combined: array<byte>)
    requires n <= |Concat(chunks)|
    ensures combined[..] == Concat(chunks)[..n]
  {
    combined := new byte[n];
    var offset := 0;
    var i := 0;
    assert chunks[..|chunks|] == chunks;
    while i < |chunks| && offset < n
      invariant 0 <= i <= |chunks|
      invariant offset == if |Concat(chunks[..i])| < n then |Concat(chunks[..i])| else n
      invariant combined[..offset] == Concat(chunks[..i])[..offset]
    {
      var c := chunks[i];
      var toCopy := if |c| < n - offset then |c| else n - offset;
      assert chunks[..i + 1][..i] == chunks[..i];
      ghost var done := Concat(chunks[..i]);
      assert Concat(chunks[..i + 1]) == done + c;
      forall k | 0 <= k < toCopy {
        combined[offset + k] := c[k];
      }
      assert combined[..offset + toCopy] == (done + c)[..offset + toCopy];
      offset := offset + toCopy;
      i := i + 1;
    }
    ConcatPrefix(chunks, i);
    assert combined[..n] == combined[..];
  }

  lemma {:induction false} ConcatPrefix(chunks: seq<seq<byte>>, i: nat)
    requires i <= |chunks|
    ensures Concat(chunks[..i]) <= Concat(chunks)
    decreases |chunks|
  {
    if i < |chunks| {
      var front := chunks[..|chunks| - 1];
      ConcatPrefix(front, i);
      assert front[..i] == chunks[..i];
    } else {
      assert chunks[..i] == chunks;
    }
  }

  class Reader {
    var chunks: seq<seq<byte>>
    var totalLength: nat
    var expectedLength: Option<u32>
    var outcome: Outcome

    ghost function Received(): seq<byte>
      reads this
    {
      Concat(chunks)
    }

    /** While the promise is pending, the fields describe the bytes received and these decide nothing. */
    ghost predicate Listening()
      reads this
    {
      && outcome.Pending?
      && Decided(Received()).Pending?
      && totalLength == |Received()|
      && expectedLength == if totalLength < 4 then None else Some(U32(Received()[..4]))
    }

    constructor ()
      ensures Listening() && Received() == []
    {
      chunks, totalLength, expectedLength, outcome := [], 0, None, Pending;
    }

    method OnData(chunk: seq<byte>)
      requires Listening()
      modifies this
      ensures Received() == old(Received()) + chunk
      ensures outcome == Decided(Received())
      ensures outcome.Pending? ==> Listening()
    {
      chunks := chunks + [chunk];
      assert chunks[..|chunks| - 1] == old(chunks);
      totalLength := totalLength + |chunk|;
      if expectedLength == None && totalLength >= 4 {
        var combined := Combined(chunks, totalLength);
        assert combined[..] == Received();
        expectedLength := Some(U32(combined[..4]));
        if expectedLength.value > FRAME_LIMIT {
          outcome := TooLarge(expectedLength.value);
          return;
        }
      }
      assert |old(Received())| >= 4 ==> Received()[..4] == old(Received())[..4];
      assert totalLength >= 4 ==> expectedLength == Some(U32(Received()[..4]));
      if expectedLength != None && totalLength >= 4 + expectedLength.value {
        var combined := Combined(chunks, 4 + expectedLength.value);
        outcome := Resolved(combined[..]);
      }
    }

    /** Feeds socket events until the promise is settled. */
    method Listen(events: seq<SocketEvent>) returns (heard: nat)
      requires Listening()
      modifies this
      ensures outcome == Settled(events, old(Received()))
      ensures heard == Heard(events, old(Received()))
    {
      heard := 0;
      assert events[0..] == events;
      while heard < |events| && outcome.Pending?
        invariant 0 <= heard <= |events|
        invariant outcome.Pending? ==>
                    && Listening()
                    && Settled(events[heard..], Received()) == Settled(events, old(Received()))
                    && heard + Heard(events[heard..], Received()) == Heard(events, old(Received()))
        invariant !outcome.Pending? ==>
                    outcome == Settled(events, old(Received())) && heard == Heard(events, old(Received()))
      {
        assert events[heard..][1..] == events[heard + 1..];
        match events[heard] {
          case Data(chunk) => OnData(chunk);
          case SocketError => outcome := Errored;
          case SocketClose => outcome := Closed;
        }
        heard := heard + 1;
      }
    }
  }

  // ---- However the stream is split ----

  /** The bytes the socket delivers before an error or the end. */
  function Delivered(events: seq<SocketEvent>): seq<byte> {
    if events == [] || !events[0].Data? then [] else events[0].chunk + Delivered(events[1..])
  }

  /** How the socket ends, if it does. */
  function Ending(events: seq<SocketEvent>): Outcome {
    if events == [] then Pending
    else if events[0].SocketError? then Errored
    else if events[0].SocketClose? then Closed
    else Ending(events[1..])
  }

  /** More bytes do not change what was decided. */
  lemma DecidedStays(b: seq<byte>, more: seq<byte>)
    requires !Decided(b).Pending?
    ensures Decided(b + more) == Decided(b)
  {
    assert (b + more)[..4] == b[..4];
    if Decided(b).Resolved? {
      assert (b + more)[..4 + U32(b[..4])] == b[..4 + U32(b[..4])];
    }
  }

  /** The outcome depends on the bytes delivered and on how the socket ends, not on the chunks. */
  lemma {:induction false} SplitIndependent(events: seq<SocketEvent>, before: seq<byte>)
    requires Decided(before).Pending?
    ensures Settled(events, before) ==
            if Decided(before + Delivered(events)).Pending? then Ending(events) else Decided(before + Delivered(events))
    decreases |events|
  {
    if events == [] || !events[0].Data? {
      assert before + Delivered(events) == before;
    } else {
      var b := before + events[0].chunk;
      assert before + Delivered(events) == b + Delivered(events[1..]);
      if Decided(b).Pending? {
        SplitIndependent(events[1..], b);
      } else {
        DecidedStays(b, Delivered(events[1..]));
      }
    }
  }

  /** A frame the agent can send is read exactly, however it is split and whatever follows it. */
  lemma FrameRead(events: seq<SocketEvent>, opcode: byte, body: seq<byte>, rest: seq<byte>)
    requires 1 + |body| <= FRAME_LIMIT
    requires Delivered(events) == Protocol.FrameBytes(opcode, body) + rest
    ensures Settled(events, []) == Resolved(Protocol.FrameBytes(opcode, body))
  {
    var frame := Protocol.FrameBytes(opcode, body);
    assert frame[..4] == LE32(1 + |body|);
    assert (frame + rest)[..4] == frame[..4] && (frame + rest)[..|frame|] == frame;
    assert [] + Delivered(events) == Delivered(events);
    SplitIndependent(events, []);
  }

  /** A frame cut short is never delivered: the reader waits, or reports how the socket ended. */
  lemma CutFrameNotRead(events: seq<SocketEvent>, opcode: byte, body: seq<byte>)
    requires 1 + |body| <= FRAME_LIMIT
    requires Delivered(events) < Protocol.FrameBytes(opcode, body)
    ensures Settled(events, []) == Ending(events)
  {
    var frame := Protocol.FrameBytes(opcode, body);
    var b := Delivered(events);
    assert frame[..4] == LE32(1 + |body|);
    assert |b| >= 4 ==> b[..4] == frame[..4];
    assert [] + b == b;
    SplitIndependent(events, []);
  }

  // ---- What is lost behind the frame ----

  lemma DeliveredNext(events: seq<SocketEvent>, j: nat, before: seq<byte>)
    requires 0 < j <= |events| && events[0].Data?
    ensures before + Delivered(events[..j]) == before + events[0].chunk + Delivered(events[1..][..j - 1])
  {
    assert events[..j][1..] == events[1..][..j - 1];
  }

  /** The reader stops at the first chunk that completes the frame. */
  lemma {:induction false} StopsAtFirst(events: seq<SocketEvent>, before: seq<byte>, j: nat)
    requires Decided(before).Pending? && Settled(events, before).Resolved? && j <= |events|
    ensures j < Heard(events, before) ==> Decided(before + Delivered(events[..j])).Pending?
    ensures j == Heard(events, before) ==> Decided(before + Delivered(events[..j])) == Settled(events, before)
    decreases |events|
  {
    if j == 0 {
      assert before + Delivered(events[..0]) == before;
    } else {
      DeliveredNext(events, j, before);
      var b := before + events[0].chunk;
      if Decided(b).Pending? {
        StopsAtFirst(events[1..], b, j - 1);
      } else if j == 1 {
        assert b + Delivered(events[1..][..0]) == b;
      }
    }
  }

  lemma {:induction false} HeardData(events: seq<SocketEvent>, before: seq<byte>)
    requires Settled(events, before).Resolved?
    ensures forall i | 0 <= i < Heard(events, before) :: events[i].Data?
    decreases |events|
  {
    if Decided(before + events[0].chunk).Pending? {
      HeardData(events[1..], before + events[0].chunk);
    }
  }

  lemma {:induction false} DeliveredJoined(a: seq<SocketEvent>, b: seq<SocketEvent>)
    requires forall i | 0 <= i < |a| :: a[i].Data?
    ensures Delivered(a + b) == Delivered(a) + Delivered(b)
    decreases |a|
  {
    if a == [] {
      assert a + b == b;
    } else {
      assert (a + b)[1..] == a[1..] + b;
      DeliveredJoined(a[1..], b);
    }
  }

  lemma {:induction false} DeliveredGrows(events: seq<SocketEvent>, i: nat, j: nat)
    requires i <= j <= |events|
    ensures Delivered(events[..i]) <= Delivered(events[..j])
    decreases i
  {
    if i > 0 && events[0].Data? {
      DeliveredGrows(events[1..], i - 1, j - 1);
      assert events[..i][1..] == events[1..][..i - 1] && events[..j][1..] == events[1..][..j - 1];
    }
  }

  lemma FrameOf(b: seq<byte>)
    requires Decided(b).Resolved?
    ensures var frame := Decided(b).frame; frame <= b && Decided(frame) == Resolved(frame)
  {
    var frame := Decided(b).frame;
    assert frame[..4] == b[..4] && frame[..|frame|] == frame;
  }

  lemma Cancel(frame: seq<byte>, consumed: seq<byte>, rest: seq<byte>)
    requires frame <= consumed
    ensures frame + rest == consumed + rest <==> frame == consumed
  {
    if frame + rest == consumed + rest {
      assert |frame + rest| == |frame| + |rest|;
    }
  }

  /** The frame is a whole number of chunks exactly when the chunks heard hold nothing else. */
  lemma WholeChunksIff(events: seq<SocketEvent>)
    requires Settled(events, []).Resolved?
    ensures var frame := Settled(events, []).frame;
            && frame <= Delivered(events[..Heard(events, [])])
            && (frame == Delivered(events[..Heard(events, [])]) <==>
                exists k :: 0 <= k <= |events| && Delivered(events[..k]) == frame)
  {
    var k, frame := Heard(events, []), Settled(events, []).frame;
    var consumed := Delivered(events[..k]);
    hide Settled, Heard, Delivered, Decided;
    StopsAtFirst(events, [], k);
    assert [] + consumed == consumed;
    FrameOf(consumed);
    if j :| 0 <= j <= |events| && Delivered(events[..j]) == frame {
      StopsAtFirst(events, [], j);
      assert [] + frame == frame;
      DeliveredGrows(events, k, j);
    }
  }

  /**
   The bytes behind the frame all reach the next reader exactly when a chunk ends where the frame ends: what the last
   chunk holds beyond the frame is dropped.
   */
  lemma RestReachedIff(events: seq<SocketEvent>)
    requires Settled(events, []).Resolved?
    ensures var frame := Settled(events, []).frame;
            frame + Delivered(events[Heard(events, [])..]) == Delivered(events) <==>
            exists k :: 0 <= k <= |events| && Delivered(events[..k]) == frame
  {
    var k, frame := Heard(events, []), Settled(events, []).frame;
    hide Settled, Heard, Delivered, Decided;
    WholeChunksIff(events);
    DeliveredSplits(events);
    Cancel(frame, Delivered(events[..k]), Delivered(events[k..]));
  }

  lemma DeliveredSplits(events: seq<SocketEvent>)
    requires Settled(events, []).Resolved?
    ensures Delivered(events) == Delivered(events[..Heard(events, [])]) + Delivered(events[Heard(events, [])..])
  {
    hide Settled, Heard, Delivered;
    var k := Heard(events, []);
    HeardData(events, []);
    DeliveredJoined(events[..k], events[k..]);
    assert events[..k] + events[k..] == events;
  }

  /** Two frames in one chunk: the first is read, and the next reader waits for a second that will not come. */
  lemma SecondFrameLost(opcode: byte, body: seq<byte>, opcode2: byte, body2: seq<byte>)
    requires 1 + |body| <= FRAME_LIMIT && 1 + |body2| <= FRAME_LIMIT
    ensures var events := [Data(Protocol.FrameBytes(opcode, body) + Protocol.FrameBytes(opcode2, body2))];
            && Settled(events, []) == Resolved(Protocol.FrameBytes(opcode, body))
            && Settled(events[Heard(events, [])..], []) == Pending
  {
    var rest := Protocol.FrameBytes(opcode2, body2);
    var events := [Data(Protocol.FrameBytes(opcode, body) + rest)];
    assert Delivered(events) == Protocol.FrameBytes(opcode, body) + rest by {
      assert Delivered(events[1..]) == [];
    }
    FrameRead(events, opcode, body, rest);
    StopsAtFirst(events, [], 0);
    assert Heard(events, []) == 1 && events[1..] == [];
  }
}
