# DTJ journal: a verified model

DTJ is an append-only binary log of trace events. A writer interns names, buffers events and seals the buffers into
committed chunks; a reader replays any byte string, stops at a torn tail and fails closed on corruption. An agent puts
the writer behind a framed request/reply protocol, and clients keep caches of its dictionary. Around it stand a small
query language, a rebuildable search index and a backward causal walk. This project models these parts in Dafny and
proves what they promise.

`dafny verify dfyconfig.toml` checks everything.

## Main results

- **End to end** (`EndToEnd.EmittedReadsBack`): on a new session, if the agent acknowledges the finish, the journal on
  disk reads back as exactly the successful `Emit` calls, whatever failed in between.
- **Writer** (`WriterTheorems.RunKeepsIff`, `FinishedReadsBack`, `StuckUntilWrap`): an invariant that a run keeps exactly
  as long as no length field wraps, the write/read round trip wherever the flushes fell, and exactly how long a failed
  flush stays failed.
- **Crashes and corruption** (`Journal.OpenTruncated`, `WriterTheorems.FlushedSurvives`, `Journal.BurstRejected`): what
  every truncation recovers, and that every burst of up to four bytes in a payload is detected.
- **Arbitrary input** (`Recovery.OpenSound`, `Recovery.AppendOnly`): what an Ok open guarantees for any bytes, and that
  bytes added behind a clean journal never change what it holds.
- **Agent** (`AgentTheorems.ServingCounts`): one reply per frame, and the k-th acknowledged append carries k; what an
  Ok reply means for the file (`AgentDurability.AppendOkDurableIff`).
- **TraceQL** (`TraceqlGrammar.AcceptsExactly`, `TraceqlRoundTrip.RoundTripIff`): the parser accepts exactly the
  grammar but for two inherited field names, and the exact condition under which parsing undoes printing.
- **Index** (`IndexCache.AnswersAreDirect`): builds, queries and source writers interleaved in any order never make a
  validated query differ from direct search.
- **Causal walk** (`CausalChain.ChainIff`): its result is the only chain with the promised properties.

## How it is modelled

- Bytes and machine words are bounded integers; casts that wrap in the source (`as u32`) are written as `% 2^32`.
  Floats are their bit patterns. Names are byte sequences with the UTF-8 validity of section 3 of RFC 3629.
- The journal file is a growing byte sequence. A crash leaves some prefix of it that holds at least the bytes flushed.
- Code that changes state is a class or a method with the source's loops, proved against a function of the old state;
  the theorems are about those functions. `Writer.WriterState` lists the log as chunks by content; the class ties its
  bytes to them.
- Lengths are cast to 32 bits and counters have 64. A flush of up to 65,535 events of 2^32 bytes or more in all can pass
  the size check with a length that has wrapped (`WriterTheorems.Wraps`); `WriterLimits.WrapReachable` shows that a new
  writer gets there, and loses every event behind a successful finish. Theorems about runs ask for room in every state:
  no such flush, fewer than 2^32 names and events pending, and 64-bit counters that do not run out. `RunKeepsIff` and
  `StuckUntilWrap` show that the first of these is exactly what is needed; `CountsSuffice` and `BytesSuffice` derive it
  from what is appended. An agent's events have one field, so theirs never wrap.
- The client's severity is carried as a byte: its numbering starts at Debug = 0, the core's at Trace = 0.
- TraceQL works on UTF-16 code units; printing follows the JSON escaping of section 7 of RFC 8259 with lone surrogates
  escaped, and the tokenizer only drops the backslash.
- The index is a state machine over its file steps: stat, read, stat, publish, and for a query stat and read. A read
  during which the source changed may return anything. Each source write takes an identity (path, size, time) never
  seen before.

Where the code falls short of its own comments the model follows the code. The printer promises canonical text for exact
filters (packages/dtj-vscode/src/traceqlSubset.ts:318), and the parser gives them back exactly for the values of
`TraceqlRoundTrip.Printable`. The parser looks fields up in a plain object
(packages/dtj-vscode/src/traceqlSubset.ts:232), so it also takes `constructor` and `__proto__`, the two inherited names an
identifier can spell, for fields. The index treats a stored zero size or time as missing
(packages/dtj-mcp/src/debug_trace_mcp/dtj_index.py:528-529), so such an index is always stale.

## Model

| member | source | states |
|---|---|---|
| `Crc32.Crc32` | crates/dtj/src/crc32.rs:5-18 | The nested loop computes the reflected CRC-32 of the data, as the register specification defines it. |
| `Crc32.ShiftLinear` | crates/dtj/src/crc32.rs:9-15 | Any number of shift steps is linear over xor. |
| `Crc32.ShiftInjective` | crates/dtj/src/crc32.rs:9-15 | Any number of shift steps can be undone: no two registers become equal. |
| `Crc32.AbsorbFour` | crates/dtj/src/crc32.rs:7-16 | Absorbing four bytes one by one is absorbing them as one 32-bit word. |
| `Crc32.RegisterInjective` | crates/dtj/src/crc32.rs:7-16 | Further data never makes two different registers equal. |
| `Crc32.BurstDetected` | crates/dtj/src/crc32.rs:5-18 | Changing bytes inside any window of at most four bytes, in data of any length, changes the checksum. |
| `Payload.Encode` | crates/dtj/src/payload.rs:45-59 | The field loop produces the specified encoding, or the error of the first field that has none. |
| `Payload.Decode` | crates/dtj/src/payload.rs:61-89 | The field loop reads exactly the counted fields and refuses trailing bytes. |
| `Payload.ReadField` | crates/dtj/src/payload.rs:68-82 | One field header and value at an offset. |
| `Payload.ValueRoundTrip` | crates/dtj/src/payload.rs:92-238 | Every value encoding is self-delimiting: it decodes to the value in front of any bytes. |
| `Payload.FieldsRoundTrip` | crates/dtj/src/payload.rs:45-89 | Encoded fields decode to themselves. |
| `Payload.PayloadRoundTrip` | crates/dtj/src/payload.rs:45-89 | An encoded payload decodes to itself. |
| `Payload.ValueReencodes` | crates/dtj/src/payload.rs:120-238 | A value that decodes fits the encoder, with the same tag and the same length. |
| `Payload.PayloadReencodes` | crates/dtj/src/payload.rs:45-89 | Any buffer the decoder accepts re-encodes to the same length. |
| `Payload.PayloadEncodesIff` | crates/dtj/src/payload.rs:45-118 | A payload encodes if and only if it has at most 65,535 fields and no blob above 4,096 bytes. |
| `Event.SeverityFromByte` | crates/dtj/src/event.rs:17-27 | Exactly the bytes 0 to 5 are severities, one each; any other byte is refused by value. |
| `Event.Encode` | crates/dtj/src/event.rs:43-69 | The encoding loop, with its 32-bit length casts, or the first error. |
| `Event.WriteRecord` | crates/dtj/src/event.rs:53-66 | The 40-byte record header and the payload go behind what was written before. |
| `Event.ReadRecord` | crates/dtj/src/event.rs:80-117 | One record at an offset, with every bound checked. |
| `Event.DecodeMany` | crates/dtj/src/event.rs:71-123 | The decoding loop reads exactly the counted records and refuses trailing bytes. |
| `Event.RecordRoundTrip` | crates/dtj/src/event.rs:43-123 | An encoded record decodes to itself in front of any bytes. |
| `Event.EventsRoundTrip` | crates/dtj/src/event.rs:43-123 | Encoded events decode to themselves whenever encoding succeeds and their number fits 32 bits. |
| `Event.EventsReencode` | crates/dtj/src/event.rs:43-123 | Any buffer the decoder accepts re-encodes to the same length and decodes to the same events. |
| `Dict.KindFromByte` | crates/dtj/src/dict.rs:19-27 | Exactly the bytes 1 to 4 are dictionary kinds, one each. |
| `Dict.Dictionary.Intern` | crates/dtj/src/dict.rs:76-92 | The new lookups and the answer are those of the specification: the known id, a new one, or an error. |
| `Dict.Dictionary.Insert` | crates/dtj/src/dict.rs:94-112 | An entry is inserted, or refused with the dictionary unchanged. |
| `Dict.InternKeepsOrder` | crates/dtj/src/dict.rs:76-92 | One interning keeps the maps mutual inverses and the ids of every kind exactly 1..m. |
| `Dict.InternRunHolds` | crates/dtj/src/dict.rs:76-92 | After every intern-only run the maps are mutual inverses, ids are exactly 1..m, and replaying the entries rebuilds them. |
| `Dict.InternRunStable` | crates/dtj/src/dict.rs:76-92 | An id issued at any point of a run keeps its name to the end. |
| `Dict.InternStable` | crates/dtj/src/dict.rs:76-92 | Interning takes back no id and no name. |
| `Dict.InternAgain` | crates/dtj/src/dict.rs:76-92 | The id returned stands for the name, and asking again returns it and changes nothing. |
| `Dict.InternFailsIff` | crates/dtj/src/dict.rs:76-92 | Interning fails if and only if the name is over-long, or new with all 2^32 - 1 ids of its kind used. |
| `Dict.InsertsKeepBacked` | crates/dtj/src/dict.rs:94-112 | Under arbitrary inserts every name found by name is found by key under its id, and nothing defined is lost. |
| `Dict.EncodeEntries` | crates/dtj/src/dict.rs:114-131 | The encoding loop over entries, or the first error. |
| `Dict.ReadEntry` | crates/dtj/src/dict.rs:143-170 | One entry at an offset, with kind, id, length and UTF-8 checked in the source order. |
| `Dict.DecodeEntries` | crates/dtj/src/dict.rs:133-178 | The decoding loop reads exactly the counted entries and refuses trailing bytes. |
| `Dict.EntriesRoundTrip` | crates/dtj/src/dict.rs:114-178 | Encoded entries decode to themselves. |
| `Chunk.EncodeHeader` | crates/dtj/src/chunk.rs:15-24 | The 24-byte buffer filled field by field is the specified header. |
| `Chunk.EncodeCommittedChunk` | crates/dtj/src/chunk.rs:50-69 | Header, payload, checksum and marker in order, with the length check and field modulo 2^32. |
| `Chunk.HeaderRoundTrip` | crates/dtj/src/chunk.rs:15-46 | Every chunk header decodes to itself. |
| `Chunk.LengthFieldHonestIff` | crates/dtj/src/chunk.rs:50-69 | The length field of an encoded chunk is its payload length if and only if that is below 2^32. |
| `Header.New` | crates/dtj/src/header.rs:16-44 | A header is made if and only if the producer name is at most 32 and the version at most 16 bytes. |
| `Header.Encode` | crates/dtj/src/header.rs:46-61 | The 128-byte buffer filled in place is the specified header. |
| `Header.HeaderRoundTrip` | crates/dtj/src/header.rs:46-103 | A header decodes to itself with each producer text cut at its first NUL. |
| `Header.HeaderUnchangedIff` | crates/dtj/src/header.rs:46-103 | A header reads back unchanged if and only if neither producer text holds a NUL. |
| `Utf8.ValidBeforeAscii` | crates/dtj/src/header.rs:100-103 | Cutting valid UTF-8 in front of an ASCII byte leaves valid UTF-8, so cutting at a NUL loses nothing else. |
| `Reader.ValidateEventRefs` | crates/dtj/src/reader.rs:174-188 | The first unknown id is reported, in the order the source checks them. |
| `Reader.ReadFrame` | crates/dtj/src/reader.rs:47-98 | One step of the recovery loop: a whole chunk, a torn end, or an error, every slice in bounds. |
| `Reader.Open` | crates/dtj/src/reader.rs:31-147 | The recovery loop terminates on every byte string and computes the specified session or error. |
| `Recovery.CheckEventsIff` | crates/dtj/src/reader.rs:117-126 | A decoded event chunk is accepted if and only if its numbers are contiguous and all its references resolve. |
| `Recovery.ScanKeepsClean` | crates/dtj/src/reader.rs:47-134 | From any clean state the loop stays clean, loses nothing read before and numbers the chunks contiguously. |
| `Recovery.OpenSound` | crates/dtj/src/reader.rs:31-147 | On any bytes: an Ok open has events numbered 1..n, chunks 1..k, every reference resolved and the names backed. |
| `Recovery.ScanAppended` | crates/dtj/src/reader.rs:47-138 | Bytes behind a cleanly ending journal are scanned from exactly where it ended. |
| `Recovery.AppendOnly` | crates/dtj/src/reader.rs:47-147 | Behind a journal without torn tail any bytes give an error, or keep all its events and names. |
| `Journal.ApplySound` | crates/dtj/src/reader.rs:108-131 | Reading a sound chunk back does to the session what the chunk means. |
| `Journal.ScanLog` | crates/dtj/src/reader.rs:47-134 | Scanning laid-out chunks replays them and goes on behind them. |
| `Journal.WholeChunksFit` | crates/dtj/src/reader.rs:61-72 | The chunks counted as whole are exactly those that fit inside the prefix. |
| `Journal.ScanCut` | crates/dtj/src/reader.rs:47-138 | Scanning a cut journal replays exactly the whole chunks; the tail is torn unless cut at a boundary. |
| `Journal.OpenTruncated` | crates/dtj/src/reader.rs:31-147 | Any prefix of at least 128 bytes of a good journal opens to its whole chunks, torn if and only if not at a boundary. |
| `Journal.OpenComplete` | crates/dtj/src/reader.rs:31-147 | A good journal opens to its meaning with no torn tail. |
| `Journal.BurstRejected` | crates/dtj/src/reader.rs:93-98 | Altering bytes within four consecutive payload bytes of any chunk makes opening fail with that chunk's checksum mismatch. |
| `Writer.SessionWriter.OpenNew` | crates/dtj/src/writer.rs:50-64 | A new writer's file is exactly its header, with nothing pending and both counters at 1. |
| `Writer.SessionWriter.Intern` | crates/dtj/src/writer.rs:90-101 | Interning queues an entry exactly for a new name, and fails on a finished writer. |
| `Writer.SessionWriter.AppendEvent` | crates/dtj/src/writer.rs:103-137 | Checks references, takes the number, buffers, and flushes a full buffer, whose failure it returns. |
| `Writer.SessionWriter.FlushChunk` | crates/dtj/src/writer.rs:140-159 | Seals entries, then events; on an encoding error what was not sealed stays pending. |
| `Writer.SessionWriter.Write` | crates/dtj/src/writer.rs:146-153 | The file stays the header followed by its chunks numbered from 1. |
| `Writer.SessionWriter.Finish` | crates/dtj/src/writer.rs:162-170 | Flushes, and closes the writer only if that succeeded. |
| `WriterTheorems.EventsSealIff` | crates/dtj/src/writer.rs:150-156 | Fewer than 2^32 events seal if and only if count and encodings are within the limits and the total size is, or is at least 2^32 and is within them modulo 2^32; the chunk is sound exactly in the first case. |
| `WriterTheorems.EntriesSealIff` | crates/dtj/src/writer.rs:142-149 | The same for any fewer than 2^32 dictionary entries. |
| `WriterTheorems.StepKeeps` | crates/dtj/src/writer.rs:90-159 | Every operation with room, also a failed one, keeps the writer invariant, loses no chunk and takes exactly the event it numbers; room is that no counter runs out and no flush meets a wrapped length field. |
| `WriterTheorems.RunKeeps` | crates/dtj/src/writer.rs:90-159 | So does every run of operations with room. |
| `WriterTheorems.RunKeepsIff` | crates/dtj/src/writer.rs:90-159 | A run that does not run out of counters keeps the invariant if and only if no flush of it, asked for or of a full buffer, writes events under a wrapped length field. |
| `WriterTheorems.CountsSuffice` | crates/dtj/src/writer.rs:90-170 | Sufficient for room: fewer than 2^32 - 1 operations, with payloads of at most 65,496 bytes or too long for any event. |
| `WriterTheorems.BytesSuffice` | crates/dtj/src/writer.rs:90-170 | Sufficient for room: fewer than 2^32 - 1 operations that append records of fewer than 2^32 - 4 bytes together, of any lengths. |
| `WriterTheorems.NewRunKeeps` | crates/dtj/src/writer.rs:50-159 | Every run with room on a new writer keeps the invariant and takes exactly the events it numbers. |
| `WriterTheorems.FlushFailsIff` | crates/dtj/src/writer.rs:140-159 | With counts below 2^32, a flush fails if and only if something pending has no chunk and its length does not wrap into the limits; that stays pending. |
| `WriterTheorems.StuckForever` | crates/dtj/src/writer.rs:103-170 | From a stuck writer, after every run with room, the writer is stuck, and a flush or finish fails if and only if it does not meet a wrapped length. |
| `WriterTheorems.StuckUntilWrap` | crates/dtj/src/writer.rs:103-170 | From a stuck writer, over every run that does not run out of counters, every flush fails if and only if no flush meets a wrapped length. |
| `WriterTheorems.NewStuckForever` | crates/dtj/src/writer.rs:103-170 | On a new writer: no run with room that was stuck once can finish. |
| `WriterTheorems.FileReadsBack` | crates/dtj/src/writer.rs:90-159 | In every reachable state the file opens cleanly to exactly the filed entries and events. |
| `WriterTheorems.FlushedReadsBack` | crates/dtj/src/writer.rs:140-159 | After an Ok flush that meets no wrapped length the file holds the whole dictionary and every event taken. |
| `WriterTheorems.FinishedReadsBack` | crates/dtj/src/writer.rs:90-170 | After an Ok finish the file opens to the header, exactly the interned names, exactly the numbered events 1..n, wherever flushes fell, for every run with room, the flush of the finish included. |
| `WriterTheorems.CrashRecovers` | crates/dtj/src/reader.rs:47-138 | A crash that keeps the flushed bytes leaves a file that opens to its whole chunks, all flushed ones among them. |
| `WriterTheorems.FlushedSurvives` | crates/dtj/src/writer.rs:140-159 | What one flush has written survives every later run with room and every cut that keeps flushed bytes; the flushed chunks are among those written. |
| `WriterTheorems.NewFlushedSurvives` | crates/dtj/src/writer.rs:140-159 | The same for every run with room on a new writer, down to the events numbered before the flush. |
| `WriterLimits.FiledRefsEarlier` | crates/dtj/src/writer.rs:103-159 | Every id in a filed event is defined by dictionary chunks written before that event's chunk. |
| `WriterLimits.SealedReadsIff` | crates/dtj/src/chunk.rs:50-69 | A sealed chunk is read back as its payload if and only if that is below 2^32 bytes. |
| `WriterLimits.TornBehind` | crates/dtj/src/reader.rs:61-91 | A chunk the reader takes for a torn tail leaves the journal as it was before it. |
| `WriterLimits.WrappedFrame` | crates/dtj/src/chunk.rs:51-56 | 65,535 largest events, 4,297,457,629 payload bytes, seal under a wrapped length field, and the reader takes the chunk for a torn tail. |
| `WriterLimits.WrapReachable` | crates/dtj/src/writer.rs:103-170 | A new writer meets a wrap: every append and the finish succeed, the writer was stuck up to the last append, and the file opens with none of the 65,535 events. |
| `Protocol.FrameReadsBack` | crates/dtj/src/bin/dtj-agent.rs:79-96 | One encoded frame is read as its opcode and body, with the bytes behind it left. |
| `Protocol.StreamReadsBack` | packages/dtj-go/protocol.go:83-93 | Concatenated frames are read by the agent as the same list, whatever incomplete frame follows. |
| `Protocol.ReplyReadsBack` | packages/dtj-go/protocol.go:96-117 | Every reply the agent writes is read by the client as its opcode and body. |
| `Protocol.InternReadsBack` | packages/dtj-go/protocol.go:189-201 | The client sends exactly the names of at most 1,024 bytes; the agent reads kind and name back, and refuses exactly the empty ones and those that are not UTF-8. |
| `Protocol.AppendReadsBack` | packages/dtj-go/protocol.go:212-234 | The agent reads every field of an append back, for every value the client encodes, and refuses exactly the severity bytes above 5. |
| `Protocol.OpenReadsBackIff` | packages/dtj-go/protocol.go:169-186 | The agent reads an OpenSession back unchanged if and only if its texts fit their lengths and limits and the file name is safe. |
| `Agent.Server.Handle` | crates/dtj/src/bin/dtj-agent.rs:161-729 | One frame gets exactly one reply and the new state of the specification. |
| `Agent.Server.HandleClient` | crates/dtj/src/bin/dtj-agent.rs:158-732 | The frame loop answers every readable frame in order until the input ends or breaks. |
| `Agent.Server.Hello` | crates/dtj/src/bin/dtj-agent.rs:173-193 | The hello branch: length, version, and the flag. |
| `Agent.Server.AppendEvent` | crates/dtj/src/bin/dtj-agent.rs:463-680 | The append branch: gates, parsing, the writer, and the flush after every event whose failure is ignored. |
| `Agent.Server.OpenSession` | crates/dtj/src/bin/dtj-agent.rs:265-459 | The open branch: a new writer replaces the one held, whose file stays. What a replaced writer of the same file name has not flushed is taken to be lost, where the source writes it into the new file. |
| `Agent.Server.Intern` | crates/dtj/src/bin/dtj-agent.rs:195-262 | The intern branch with its gates and its order of complaints. |
| `Agent.Server.FinishSession` | crates/dtj/src/bin/dtj-agent.rs:683-700 | The finish branch takes the writer away whether or not finishing succeeds. |
| `Agent.Server.Flush` | crates/dtj/src/bin/dtj-agent.rs:708-724 | The flush branch keeps the writer. |
| `Agent.ReadOpenRequest` | crates/dtj/src/bin/dtj-agent.rs:276-425 | The running offset over an OpenSession body reads the specified request or complaint. |
| `Agent.ReadAppendRequest` | crates/dtj/src/bin/dtj-agent.rs:473-654 | The running offset over an AppendEvent body reads the specified event or complaint. |
| `AgentTheorems.HandlingKeeps` | crates/dtj/src/bin/dtj-agent.rs:161-729 | Every request with room keeps: a held writer implies Hello and OpenSession done and the writer invariant. |
| `AgentTheorems.HandlingCounts` | crates/dtj/src/bin/dtj-agent.rs:463-700 | An acknowledged append carries the next number since the latest OpenSessionOk. |
| `AgentTheorems.ServingCounts` | crates/dtj/src/bin/dtj-agent.rs:158-732 | Over every request sequence: one reply per frame, and the k-th AppendEventOk since the latest OpenSessionOk carries k. |
| `AgentTheorems.FewFramesSuffice` | crates/dtj/src/bin/dtj-agent.rs:158-732 | Up to 2^31 - 16 requests on a connection always have room. |
| `AgentTheorems.ConnectionCounts` | crates/dtj/src/bin/dtj-agent.rs:79-96 | The same from the bytes a client sends on a new connection: however many requests, as long as no counter and no count of what is pending runs out. |
| `AgentTheorems.FewMessagesCount` | crates/dtj/src/bin/dtj-agent.rs:79-96 | For up to 2^31 - 16 requests nothing runs out. |
| `AgentDurability.RepliesGated` | crates/dtj/src/bin/dtj-agent.rs:173-732 | Every positive reply needs Hello, OpenSession and a held writer as the protocol asks. |
| `AgentDurability.RefusedUnchanged` | crates/dtj/src/bin/dtj-agent.rs:161-729 | A request refused for its form or its time leaves the agent as it was. |
| `AgentDurability.FlushOkDurable` | crates/dtj/src/bin/dtj-agent.rs:708-724 | After FlushOk the file reads back as every event taken and every name interned. |
| `AgentDurability.AppendOkDurableIff` | crates/dtj/src/bin/dtj-agent.rs:663-674 | With a flush after every event, an acknowledged event is in the file if and only if what was pending seals together with it, because the flush's failure is ignored. |
| `AgentDurability.ReplacedSurvives` | crates/dtj/src/bin/dtj-agent.rs:448-458 | Opening another session under another name leaves the replaced journal opening to its filed events. |
| `AgentDurability.HandlingKeepsReadable` | crates/dtj/src/bin/dtj-agent.rs:161-729 | Every request leaves every journal readable, also the one whose writer may be dropped next; not covered is the file of a session reopened under the name of a writer that still buffers bytes. |
| `AgentDurability.ConnectionReadable` | crates/dtj/src/bin/dtj-agent.rs:158-732 | So does every request sequence with room on a new connection, with the same exception. |
| `AgentLoss.AcknowledgedLost` | crates/dtj/src/bin/dtj-agent.rs:663-674 | On a new connection the append of a 4,097-byte blob is acknowledged and its file holds no event. |
| `Client.Session.GetOrIntern` | packages/dtj-go/client.go:327-358 | A cached id is used; otherwise one request is sent and an accepted answer is cached. |
| `Client.Session.Emit` | packages/dtj-go/client.go:233-324 | Names, value and append in the source order; a closed session ignores the event. |
| `Client.Session.EncodeValue` | packages/dtj-go/protocol.go:260-316 | Strings are interned, every other value becomes its tag and body. |
| `Client.Session.Close` | packages/dtj-go/client.go:361-389 | Finish is sent once, whatever the answer. |
| `EndToEnd.NamedKeeps` | packages/dtj-go/client.go:327-358 | A name lookup keeps the caches a sub-map of the agent's dictionary and returns an id that denotes the name. |
| `EndToEnd.EmitKeeps` | packages/dtj-go/client.go:233-324 | One Emit with room adds exactly what was said if it succeeds, and otherwise nothing, or leaves the writer stuck. |
| `EndToEnd.EmitAllKeeps` | packages/dtj-go/client.go:233-358 | So does every run of Emit calls with room before each. |
| `EndToEnd.FewCallsSuffice` | packages/dtj-go/client.go:233-358 | Up to 503,316,480 calls always have room, if nothing is ever flushed. |
| `EndToEnd.FinishTells` | crates/dtj/src/bin/dtj-agent.rs:683-700 | An acknowledged finish means the writer was not stuck and its file reads back as everything told. |
| `EndToEnd.EmittedReadsBack` | packages/dtj-go/client.go:233-358 | End to end: for any run of Emit calls in which no counter and no count of what is pending runs out, after FinishSessionOk the journal reads back as exactly the successful calls, in order, numbered from 1, with names, correlation, value, time and severity byte. |
| `EndToEnd.FewEmittedReadBack` | packages/dtj-go/client.go:233-358 | The same for every run of up to 503,316,480 calls, however the agent flushes. |
| `TraceqlLexer.Tokenize` | packages/dtj-vscode/src/traceqlSubset.ts:52-169 | The tokenizer loop computes the specified tokens or complaint. |
| `TraceqlLexer.ReadToken` | packages/dtj-vscode/src/traceqlSubset.ts:66-166 | One position of the tokenizer: skip, a token and its length, or a complaint. |
| `TraceqlLexer.ReadString` | packages/dtj-vscode/src/traceqlSubset.ts:93-112 | The string loop drops each backslash and keeps what follows it. |
| `TraceqlParser.ParseOnePred` | packages/dtj-vscode/src/traceqlSubset.ts:219-259 | One predicate, with the checks in the source order. |
| `TraceqlParser.ParseWhere` | packages/dtj-vscode/src/traceqlSubset.ts:216-272 | The predicate loop with its seen set is the specified recursion over AND. |
| `TraceqlParser.ParseSelect` | packages/dtj-vscode/src/traceqlSubset.ts:281-300 | The optional selection with its column loop. |
| `TraceqlParser.ParseTokens` | packages/dtj-vscode/src/traceqlSubset.ts:178-316 | The position-based parser is the specified parser. |
| `TraceqlParser.Parse` | packages/dtj-vscode/src/traceqlSubset.ts:175-316 | Tokenizing and parsing a text. |
| `TraceqlGrammar.Complete` | packages/dtj-vscode/src/traceqlSubset.ts:199-316 | Every well-formed sentence, and every one with an inherited field name, is accepted with what it denotes. |
| `TraceqlGrammar.Sound` | packages/dtj-vscode/src/traceqlSubset.ts:199-316 | Whatever token list is accepted is such a sentence. |
| `TraceqlGrammar.AcceptsTolerated` | packages/dtj-vscode/src/traceqlSubset.ts:199-316 | The parser accepts exactly those sentences, with exactly their filters and limit. |
| `TraceqlGrammar.AcceptedIsWellFormedIff` | packages/dtj-vscode/src/traceqlSubset.ts:232-239 | An accepted token list is the sentence of a well-formed query if and only if no field is `constructor` or `__proto__`. |
| `TraceqlGrammar.AcceptsExactly` | packages/dtj-vscode/src/traceqlSubset.ts:199-316 | Well-formed sentences with their meaning are exactly what is accepted without naming `constructor` or `__proto__`. |
| `TraceqlGrammar.DenotedHolds` | packages/dtj-vscode/src/traceqlSubset.ts:263-264 | The filters hold each predicate's value under its key and nothing else. |
| `TraceqlGrammar.ParsesExactly` | packages/dtj-vscode/src/traceqlSubset.ts:175-316 | The same from texts, by their tokens. |
| `TraceqlPrinter.Format` | packages/dtj-vscode/src/traceqlSubset.ts:319-332 | The printer pushes the present values in its fixed order and joins them. |
| `TraceqlPrinter.BodyOfEscaped` | packages/dtj-vscode/src/traceqlSubset.ts:93-112 | A printed string is read as the printed text with every backslash dropped. |
| `TraceqlPrinter.MangledSameIff` | packages/dtj-vscode/src/traceqlSubset.ts:323 | A printed string reads back as itself if and only if it has no control character and no lone surrogate. |
| `TraceqlRoundTrip.LexFormatted` | packages/dtj-vscode/src/traceqlSubset.ts:319-332 | The tokens of the printed text are the sentence of the printed predicates. |
| `TraceqlRoundTrip.TextLength` | packages/dtj-vscode/src/traceqlSubset.ts:55-57 | Values within the limits print to at most 4,096 units. |
| `TraceqlRoundTrip.RoundTripIff` | packages/dtj-vscode/src/traceqlSubset.ts:52-332 | For every whole number as limit, parsing the printed text gives back filters and limit if and only if every key is a filter's, every value is non-empty, at most 256 units, clean, without `;`, a severity names one, and the limit is 1 to 256. |
| `TraceqlRoundTrip.InheritedAccepted` | packages/dtj-vscode/src/traceqlSubset.ts:232-264 | `FROM events WHERE constructor = "x" LIMIT 1` parses, is no well-formed sentence, and sets none of the five filters. |
| `TraceqlRoundTrip.RoundTripFails` | packages/dtj-vscode/src/traceqlSubset.ts:59 | A tab is lost, and a value with `;` cannot be read. |
| `FrameReader.Combined` | packages/dtj-typescript/src/client.ts:247-274 | The copy loop gives the first n bytes of the chunks joined. |
| `FrameReader.Reader.OnData` | packages/dtj-typescript/src/client.ts:240-277 | One data callback decides what the bytes received decide. |
| `FrameReader.Reader.Listen` | packages/dtj-typescript/src/client.ts:234-299 | The callbacks over a list of socket events settle the promise as specified. |
| `FrameReader.SplitIndependent` | packages/dtj-typescript/src/client.ts:240-298 | The outcome depends on the bytes delivered and the socket's end, not on how they are split. |
| `FrameReader.FrameRead` | packages/dtj-typescript/src/client.ts:263-276 | Any frame in range is resolved exactly, however split and whatever follows. |
| `FrameReader.CutFrameNotRead` | packages/dtj-typescript/src/client.ts:263-287 | A frame cut short is never resolved. |
| `FrameReader.SecondFrameLost` | packages/dtj-typescript/src/client.ts:263-276 | Of two frames in one chunk the second is lost: the next reader waits for it. |
| `FrameReader.RestReachedIff` | packages/dtj-typescript/src/client.ts:263-276 | The bytes behind a frame reach the next reader, listening before the next chunk, if and only if a chunk ends where the frame ends. |
| `CausalChain.EntityRefs` | packages/dtj-mcp/src/debug_trace_mcp/dtj_analyze.py:235-253 | The loop over the payload collects the entities of an event. |
| `CausalChain.NumberTextInjective` | packages/dtj-mcp/src/debug_trace_mcp/dtj_analyze.py:251-252 | Different numbers are different entities. |
| `CausalChain.IndexBySequence` | packages/dtj-mcp/src/debug_trace_mcp/dtj_analyze.py:675-679 | The map gives the last position of every sequence number. |
| `CausalChain.Walk` | packages/dtj-mcp/src/debug_trace_mcp/dtj_analyze.py:689-703 | The backward loop and the reversal give the specified chain; its step bound never stops it. |
| `CausalChain.CausalChainOf` | packages/dtj-mcp/src/debug_trace_mcp/dtj_analyze.py:653-703 | The checks on hops and target, then the chain. |
| `CausalChain.ChainIff` | packages/dtj-mcp/src/debug_trace_mcp/dtj_analyze.py:689-703 | The chain is the only one that ascends to the target within the hops, links every member to a later one, passes over no linked event, and is short only at the start. |
| `CausalChain.ChainAscends` | packages/dtj-mcp/src/debug_trace_mcp/dtj_analyze.py:689-703 | Sequence numbers along the chain ascend, and it ends with the target. |
| `SessionIndex.BuildDocument` | packages/dtj-mcp/src/debug_trace_mcp/dtj_index.py:431-481 | The build loop succeeds if and only if every element is an event with a number, and every inverted list is exactly the ordered numbers of its key. |
| `SessionIndex.InvertedIsSearchIff` | packages/dtj-mcp/src/debug_trace_mcp/dtj_index.py:451-460 | A key's inverted list is the numbers of the events a search for it finds, if and only if no category merely folds to it; always for the other keys. |
| `SessionIndex.FoldedCategoryDiffers` | packages/dtj-mcp/src/debug_trace_mcp/dtj_index.py:451-460 | With the categories Net and NET the search for Net finds two events, and its list has one. |
| `IndexCache.SearchDocument` | packages/dtj-mcp/src/debug_trace_mcp/dtj_index.py:163-212 | The search loop over a document's events computes the count and page, or reports corruption. |
| `IndexCache.ValidatesIff` | packages/dtj-mcp/src/debug_trace_mcp/dtj_index.py:525-530 | An index validates if and only if its size is not zero and the identity is the one it was built under with a non-zero time, or is that with -1 in place of 0 as its time. |
| `IndexCache.SearchedIsDirect` | packages/dtj-mcp/src/debug_trace_mcp/dtj_search.py:74-143 | Searching a session's document is searching the session. |
| `IndexCache.StepKeeps` | packages/dtj-mcp/src/debug_trace_mcp/dtj_index.py:215-307 | Every step of any build, query or source writer keeps documents, decoded reads and answers honest. |
| `IndexCache.AnswersAreDirect` | packages/dtj-mcp/src/debug_trace_mcp/dtj_index.py:124-212 | In every interleaving a query answered with hits has the direct search's count and page over the content the index was built from, which is the content the source had when it was looked at, unless that was at time -1 and the index was built at time 0. |
| `IndexCache.EpochMisread` | packages/dtj-mcp/src/debug_trace_mcp/dtj_index.py:525-530 | A run in which a source at time -1 that cannot be decoded is answered from an index built at time 0. |
| `IndexCache.PublishedIsContent` | packages/dtj-mcp/src/debug_trace_mcp/dtj_index.py:225-249 | A published document never holds what a disturbed read gave. |
| `IndexCache.QuietAnswer` | packages/dtj-mcp/src/debug_trace_mcp/dtj_index.py:215-307 | Undisturbed, build and query give the direct search's answer, except that a source of zero size or time is refused as stale. |

## Left out

- Wording of error messages and of the agent's error bodies: refusals and malformed records are tags.
- I/O errors while writing or flushing, clocks, random session ids, sockets and timeouts: parameters or infallible.
- What a replaced writer still buffers when its own file name is opened again: after a flush that failed behind a
  dictionary chunk the source writes that chunk into the new file; in the model it is lost.
- Agent.Server.Handle: leaves that out.
- Agent.Server.HandleClient: leaves that out.
- Agent.Server.OpenSession: leaves that out.
- AgentDurability.HandlingKeepsReadable: leaves that out.
- AgentDurability.ConnectionReadable: leaves that out.
- Float arithmetic and the widening of 32-bit floats in the Go client: floats are bit patterns.
- Fractional limits in the printer, and whole ones of 10^21 and more, which JavaScript prints in other notation and the
  parser refuses.
- TraceqlPrinter.Format: prints whole limits only, as above.
- TraceqlRoundTrip.RoundTripIff: covers whole limits only, as above.
- What the stray keys of inherited field names are called in the parser's result: each has a key of its own.
- Files of 2^64 bytes or more in the reader's counters.
- Protocol.AppendReadsBack: covers blobs below 2^32 bytes; the client refuses longer ones.
- WriterTheorems.FlushFailsIff: covers fewer than 2^32 pending names and events; beyond, their counts wrap too.
- WriterTheorems.StepKeeps: assumes room for the operation, of which `RunKeepsIff` shows the wrapped length to be
  necessary.
- AgentTheorems.HandlingKeeps: assumes that no counter and no count of what is pending runs out.
- AgentTheorems.HandlingCounts: assumes the same.
- AgentTheorems.ServingCounts: assumes the same of every state on the way; `FewFramesSuffice` derives it by counting.
- AgentTheorems.ConnectionCounts: assumes the same.
- AgentDurability.FlushOkDurable: assumes the same.
- AgentDurability.AppendOkDurableIff: assumes the same.
- EndToEnd.NamedKeeps: assumes room for the Emit call it is part of.
- EndToEnd.EmitKeeps: assumes room for the call; `FewCallsSuffice` derives it by counting.
- EndToEnd.EmitAllKeeps: assumes room before every call.
- EndToEnd.FinishTells: assumes room for one more call.
- EndToEnd.EmittedReadsBack: covers requests the agent accepts, and assumes room before every call.
- FrameReader.FrameRead: covers one call; frames that arrive behind it in the same chunk are the subject of RestReachedIff.
- FrameReader.RestReachedIff: takes the next reader to be listening before the next chunk; one that arrives with no
  listener attached is dropped by the socket.
- IndexCache.AnswersAreDirect: for a source at time -1 and an index built at time 0 the answer is that of the time 0;
  `EpochMisread` is such a run.
- The human-readable texts of an event and case folding in search: a list of texts and a function of the query.
- The JSON text of the index sidecar: the document itself; header and adapter fields are not modelled.
- Exact-filter loading from an index, the index reuse report, and removal of temporary files.
- Concurrency inside the agent and the client beyond their locks: each call is one step.
- The agent's rotation, retention and chunk-size settings, which the modelled code does not use.
- The Python, C and C++ bindings, discovery, command lines, the editor extension's interface, and the other analysis
  reports: they would add easy members or state no theorem of their own.
