/** What the agent's replies promise: gates, refusals that change nothing, and what is in the file after an Ok. */
module AgentDurability {
  import opened Wrappers
  import opened Bytes
  import opened Event
  import opened Protocol
  import opened Writer
  import opened WriterTheorems
  import opened Agent
  import opened AgentTheorems
  import Dict
  import Journal
  import Reader

  /** Every positive reply needs what the protocol asks for first. */
  lemma RepliesGated(a: AgentState, frame: seq<byte>)
    ensures var r := Handling(a, frame).1;
            && (r.OpenSessionOk? ==> a.helloDone)
            && (r.InternOk? || r.AppendEventOk? ==> a.helloDone && a.sessionOpened && a.writer.Some?)
            && (r.FlushOk? || r.FinishSessionOk? ==> a.writer.Some?)
  {
    hide ParseOpen, ParseIntern, ParseAppend, Interning, Appending, Flushing, Finishing;
    if frame != [] {
      var op, body := frame[0], frame[1..];
      if op == OP_INTERN {
        assert Handling(a, frame) == OnIntern(a, body);
      } else if op == OP_APPEND_EVENT {
        assert Handling(a, frame) == OnAppend(a, body);
      }
    }
  }

  /** A request refused for its form or its time changes nothing; only a failing writer may have changed. */
  lemma RefusedUnchanged(a: AgentState, frame: seq<byte>)
    ensures var (b, r) := Handling(a, frame); r.Refused? && !r.why.Failed? ==> b == a
  {
    hide ParseOpen, ParseIntern, ParseAppend, Interning, Appending, Flushing, Finishing;
    if frame != [] {
      var op, body := frame[0], frame[1..];
      if op == OP_INTERN {
        assert Handling(a, frame) == OnIntern(a, body);
      } else if op == OP_APPEND_EVENT {
        assert Handling(a, frame) == OnAppend(a, body);
      }
    }
  }

  /** After FlushOk the file holds every event the writer has taken, and all names. */
  lemma FlushOkDurable(a: AgentState)
    requires AgentInv(a) && RequestRoom(a) && OnFlush(a).1.FlushOk?
    ensures OnFlush(a).0.writer.Some?
    ensures var w := OnFlush(a).0.writer.value;
            && w.synced == |w.log| && Reader.Opened(File(w)).Ok?
            && Reader.Opened(File(w)).value.events == Taken(a.writer.value)
            && Dict.SameNames(Reader.Opened(File(w)).value.names, a.writer.value.names)
  {
    HeldKeeps(a.writer.value, FlushOp);
    hide Flushing, Reader.Opened, Taken, File, Inv, MeetsWrap;
    FlushedReadsBack(a.writer.value);
  }

  /** The event an append request carries, under the number it would get. */
  function Offered(w: WriterState, body: seq<byte>): EventRecord
    requires ParseAppend(body).Fine?
  {
    Record(ParseAppend(body).value, w.nextEvent)
  }

  /**
   An append that succeeds has taken its event; it is stuck exactly when what was pending and the event do not seal.
   */
  lemma TakenAndStuckIff(w: WriterState, ev: AppendEvent)
    requires Held(w) && Counted(w, AppendOp(ev)) && Short(ev.payload) && Appending(w, ev).1.Ok?
    ensures var u := Appending(w, ev).0;
            && Held(u) && Taken(u) == Taken(w) + [Record(ev, w.nextEvent)]
            && (Stuck(u) <==>
                !(SealsEntries(w.pendingDict) && SealsEvents(w.pendingEvents + [Record(ev, w.nextEvent)])))
            && (Stuck(u) ==> u.pendingEvents != [])
  {
    HeldKeeps(w, AppendOp(ev));
    StepTakes(w, AppendOp(ev));
    var t := Buffered(w, ev);
    HeldBuffers(w, ev);
    HeldFails(t);
    EmptySeals();
    FlushedPending(t);
    hide Held, Taken, Flushing, Reader.CheckRefs, SealsEntries, SealsEvents, Short;
  }

  lemma StepTakes(w: WriterState, op: Op)
    requires Held(w) && Room(w, op)
    ensures Taken(Step(w, op)) == Taken(w) + WriterTheorems.Numbered(w, op)
  {
    hide Inv, Step, Room, Taken, WriterTheorems.Numbered, ShortPending;
    StepKeeps(w, op);
  }

  lemma FlushedPending(s: WriterState)
    ensures Flushing(s).1.Ok? ==> Flushing(s).0.pendingDict == [] && Flushing(s).0.pendingEvents == []
    ensures Flushing(s).1.Err? && s.pendingEvents != [] ==> Flushing(s).0.pendingEvents == s.pendingEvents
  {
    hide Journal.Sealed;
  }

  /** What a flush leaves in the file is a part of what was taken: the rest is pending. */
  lemma FlushFiles(u: WriterState)
    requires Held(u) && Counted(u, FlushOp)
    ensures var x := Flushing(u).0;
            && Reader.Opened(File(x)).Ok? && Reader.Opened(File(x)).value.events == FiledEvents(x.log)
            && FiledEvents(x.log) + x.pendingEvents == Taken(u)
  {
    HeldKeeps(u, FlushOp);
    StepTakes(u, FlushOp);
    hide Inv, Flushing, Reader.Opened, File, FiledEvents, ShortPending, Counted, Room;
    assert Taken(u) + [] == Taken(u);
    FileReadsBack(Flushing(u).0);
  }

  /** Flushing files everything taken exactly when nothing is stuck. */
  lemma FlushFilesIff(u: WriterState)
    requires Held(u) && Counted(u, FlushOp)
    requires Stuck(u) ==> u.pendingEvents != []
    ensures Reader.Opened(File(Flushing(u).0)).Ok?
    ensures Reader.Opened(File(Flushing(u).0)).value.events == Taken(u) <==> !Stuck(u)
  {
    hide *;
    FlushFiles(u);
    HeldFails(u);
    FlushedPending(u);
    var x := Flushing(u).0;
    if Stuck(u) {
      assert |FiledEvents(x.log)| < |FiledEvents(x.log) + x.pendingEvents|;
    } else {
      assert FiledEvents(x.log) + [] == FiledEvents(x.log);
    }
  }

  /**
   When the agent flushes every event it ignores a failing flush, so an acknowledged event is in the file exactly when
   what was pending seals together with it.
   */
  lemma AppendOkDurableIff(a: AgentState, body: seq<byte>)
    requires AgentInv(a) && RequestRoom(a) && a.flushEveryEvent
    requires OnAppend(a, body).1.AppendEventOk?
    ensures a.writer.Some? && ParseAppend(body).Fine? && OnAppend(a, body).0.writer.Some?
    ensures var w, rec := a.writer.value, Offered(a.writer.value, body);
            var file := File(OnAppend(a, body).0.writer.value);
            && Reader.Opened(file).Ok?
            && (Reader.Opened(file).value.events == Taken(w) + [rec] <==>
                SealsEntries(w.pendingDict) && SealsEvents(w.pendingEvents + [rec]))
  {
    hide ParseAppend, Appending, Flushing, Held, Reader.Opened, File, Taken, SealsEntries, SealsEvents, Stuck, Short;
    ParsedShort(body);
    var w, ev := a.writer.value, ParseAppend(body).value;
    TakenAndStuckIff(w, ev);
    StepAddsTwo(w, AppendOp(ev));
    var u := Appending(w, ev).0;
    NextChunkIs(w);
    NextChunkIs(u);
    FlushFilesIff(u);
  }

  // ---- Journals of sessions that have ended ----

  /**
   Opening another session drops the writer held: its journal opens to its filed events, and pending ones are lost.
   */
  lemma ReplacedSurvives(a: AgentState, body: seq<byte>)
    requires AgentInv(a) && a.writer.Some? && OnOpen(a, body).1.OpenSessionOk?
    requires OnOpen(a, body).0.fileName != a.fileName
    ensures var w, disk := a.writer.value, OnOpen(a, body).0.disk;
            && a.fileName in disk && Reader.Opened(disk[a.fileName]).Ok?
            && Reader.Opened(disk[a.fileName]).value.events == FiledEvents(w.log)
            && !Reader.Opened(disk[a.fileName]).value.tornTail
  {
    hide ParseOpen, Reader.Opened, Inv, FiledEvents;
    FileReadsBack(a.writer.value);
  }

  /** Every journal on disk opens, and so will the one being written if its writer is dropped. */
  ghost predicate Readable(a: AgentState) {
    && (forall name <- a.disk :: Reader.Opened(a.disk[name]).Ok?)
    && (forall name <- Dropped(a) :: Reader.Opened(Dropped(a)[name]).Ok?)
  }

  lemma HeldReadable(a: AgentState)
    requires AgentInv(a) && forall name <- a.disk :: Reader.Opened(a.disk[name]).Ok?
    ensures Readable(a)
  {
    hide Reader.Opened, Inv, ShortPending;
    if a.writer.Some? {
      FileReadsBack(a.writer.value);
    }
  }

  /** Every request, whatever it replaces or fails at, leaves every journal readable. */
  lemma HandlingKeepsReadable(a: AgentState, frame: seq<byte>)
    requires AgentInv(a) && RequestRoom(a) && Readable(a)
    ensures Readable(Handling(a, frame).0)
  {
    HandlingKeeps(a, frame);
    var b := Handling(a, frame).0;
    DiskFrom(a, frame);
    if frame != [] && frame[0] == OP_FINISH_SESSION && a.writer.Some? {
      FinishReadable(a);
    }
    hide Handling, AgentInv, RequestRoom, Reader.Opened, OnFinish, Dropped;
    HeldReadable(b);
  }

  /** Over every request sequence with room, on every connection, every journal stays readable. */
  lemma {:induction false} ServingKeepsReadable(a: AgentState, frames: seq<seq<byte>>)
    requires AgentInv(a) && RoomForFrames(a, frames) && Readable(a)
    ensures AgentInv(Serving(a, frames).0) && Readable(Serving(a, frames).0)
    decreases |frames|
  {
    hide Handling, AgentInv, RequestRoom, Readable;
    if frames != [] {
      HandlingKeeps(a, frames[0]);
      HandlingKeepsReadable(a, frames[0]);
      ServingKeepsReadable(Handling(a, frames[0]).0, frames[1..]);
    }
  }

  /** From a new connection on. */
  lemma ConnectionReadable(flushEveryEvent: bool, frames: seq<seq<byte>>)
    requires RoomForFrames(Started(flushEveryEvent), frames)
    ensures Readable(Serving(Started(flushEveryEvent), frames).0)
  {
    StartedInv(flushEveryEvent);
    hide Serving, RoomForFrames;
    ServingKeepsReadable(Started(flushEveryEvent), frames);
  }

  lemma DiskUntouched(a: AgentState, body: seq<byte>)
    ensures OnHello(a, body).0.disk == a.disk && OnFlush(a).0.disk == a.disk
    ensures OnIntern(a, body).0.disk == a.disk && OnAppend(a, body).0.disk == a.disk
  {
    hide ParseIntern, ParseAppend, Interning, Appending, Flushing, U32;
  }

  lemma DiskOfOpen(a: AgentState, body: seq<byte>)
    ensures var disk := OnOpen(a, body).0.disk;
            disk == a.disk || forall name <- disk :: name in Dropped(a) && disk[name] == Dropped(a)[name]
  {
    hide ParseOpen, Dropped;
  }

  /** What a request can put on disk. */
  lemma DiskFrom(a: AgentState, frame: seq<byte>)
    ensures var b := Handling(a, frame).0;
            || b.disk == a.disk
            || (forall name <- b.disk :: name in Dropped(a) && b.disk[name] == Dropped(a)[name])
            || (frame != [] && frame[0] == OP_FINISH_SESSION && b == OnFinish(a).0)
  {
    hide OnHello, OnIntern, OnOpen, OnAppend, OnFlush, OnFinish, Dropped;
    if frame != [] {
      DiskUntouched(a, frame[1..]);
      DiskOfOpen(a, frame[1..]);
    }
  }

  lemma FinishReadable(a: AgentState)
    requires AgentInv(a) && a.writer.Some? && RequestRoom(a)
    requires forall name <- a.disk :: Reader.Opened(a.disk[name]).Ok?
    ensures forall name <- OnFinish(a).0.disk :: Reader.Opened(OnFinish(a).0.disk[name]).Ok?
  {
    hide Reader.Opened, Flushing, Inv, ParseAppend, ShortPending, MeetsWrap;
    var w := a.writer.value;
    HeldKeeps(w, FlushOp);
    FileReadsBack(Flushing(w).0);
  }
}
