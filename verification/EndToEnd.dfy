/** From the client's Emit to the journal on disk: what was emitted is what is read back. */
module EndToEnd {
  import opened Wrappers
  import opened Bytes
  import opened Utf8
  import opened Dict
  import opened Payload
  import opened Event
  import opened Protocol
  import opened Writer
  import opened WriterTheorems
  import opened Agent
  import opened AgentTheorems
  import opened Client
  import Header
  import Journal
  import Reader
  import Recovery

  // ---- Meanings: events with their names in place of ids ----

  datatype Content = Text(text: seq<byte>) | Raw(value: Value)

  datatype Meaning = Meaning(
    ns: u64,
    domain: seq<byte>,
    category: seq<byte>,
    name: seq<byte>,
    severity: byte,
    correlation: seq<byte>,
    fields: seq<(seq<byte>, Content)>)

  /** The name behind an id. */
  function Look(d: Names, kind: DictKind, id: u32): seq<byte> {
    if (kind, id) in d.byKey then d.byKey[(kind, id)] else []
  }

  function FieldMeaning(d: Names, f: Field): (seq<byte>, Content) {
    (Look(d, String, f.nameId), if f.value.InternedString? then Text(Look(d, String, f.value.id)) else Raw(f.value))
  }

  /** A recorded event read with a dictionary; id 0 is no correlation. */
  function MeaningOf(d: Names, ev: EventRecord): Meaning {
    Meaning(ev.monotonicNs, Look(d, Domain, ev.domainId), Look(d, Category, ev.categoryId),
            Look(d, EventName, ev.nameId), SeverityByte(ev.severity),
            if ev.correlationId == 0 then [] else Look(d, String, ev.correlationId),
            seq(|ev.payload.fields|, i requires 0 <= i < |ev.payload.fields| => FieldMeaning(d, ev.payload.fields[i])))
  }

  function Meanings(d: Names, evs: seq<EventRecord>): seq<Meaning> {
    seq(|evs|, i requires 0 <= i < |evs| => MeaningOf(d, evs[i]))
  }

  /** What the caller of Emit said. */
  function Said(e: GoEvent, ns: u64): Meaning {
    Meaning(ns, e.domain, e.category, e.name, e.severity, e.correlation,
             [(e.fieldName, if e.value.GoString? then Text(e.value.text)
                            else if Plain(e.value).Got? then Raw(Plain(e.value).value) else Text([]))])
  }

  lemma MeaningStable(d: Names, d': Names, ev: EventRecord)
    requires Recovery.Resolves(d, ev) && Recovery.Extends(d, d')
    ensures MeaningOf(d', ev) == MeaningOf(d, ev)
  {
    forall i | 0 <= i < |ev.payload.fields|
      ensures FieldMeaning(d', ev.payload.fields[i]) == FieldMeaning(d, ev.payload.fields[i])
    {
      assert ev.payload.fields[i] in ev.payload.fields;
      assert Recovery.FieldResolves(d, ev.payload.fields[i]);
    }
  }

  lemma MeaningsStable(d: Names, d': Names, evs: seq<EventRecord>)
    requires (forall ev <- evs :: Recovery.Resolves(d, ev)) && Recovery.Extends(d, d')
    ensures Meanings(d', evs) == Meanings(d, evs)
  {
    hide Recovery.Resolves, Recovery.Extends, MeaningOf;
    forall i | 0 <= i < |evs|
      ensures MeaningOf(d', evs[i]) == MeaningOf(d, evs[i])
    {
      MeaningStable(d, d', evs[i]);
    }
  }

  // ---- The linked system ----

  /** The caches hold only ids the agent's dictionary gives the same names. */
  ghost predicate Backed(c: Caches, d: Names) {
    forall kind, name :: name in CacheOf(c, kind) ==>
      (kind, CacheOf(c, kind)[name]) in d.byKey && d.byKey[(kind, CacheOf(c, kind)[name])] == name
  }

  /** A session is open at the agent, and the client's caches agree with its dictionary. */
  ghost predicate LinkInv(s: Link) {
    AgentInv(s.agent) && s.agent.writer.Some? && Backed(s.caches, s.agent.writer.value.names)
  }

  function W(s: Link): WriterState
    requires s.agent.writer.Some?
  {
    s.agent.writer.value
  }

  /** Room for one more Emit call, which is at most eight operations of the writer. */
  predicate Roomy(w: WriterState) {
    && w.nextChunk < TWO_64 - 20 && w.nextEvent < TWO_64 - 10
    && |w.pendingDict| < TWO_32 - 10 && |w.pendingEvents| < TWO_32 - 10
  }

  /** From `b` the writer has gone on by at most `n` of the operations of one Emit call. */
  predicate Spent(b: WriterState, w: WriterState, n: nat) {
    && Roomy(b) && n <= 8
    && w.nextChunk <= b.nextChunk + 2 * n && w.nextEvent <= b.nextEvent + n
    && |w.pendingDict| <= |b.pendingDict| + n && |w.pendingEvents| <= |b.pendingEvents| + n
  }

  lemma SpentMore(b: WriterState, w: WriterState, m: nat, n: nat)
    requires Spent(b, w, m) && m <= n <= 8
    ensures Spent(b, w, n)
  {
  }

  lemma StepSpent(b: WriterState, w: WriterState, op: Op, n: nat)
    requires Spent(b, w, n) && n < 8
    ensures Counted(w, op) && Spent(b, Step(w, op), n + 1)
  {
    StepSpends(w, op);
    hide Step;
  }

  // ---- One name ----

  lemma ExchangeIs(a: AgentState, opcode: byte, body: seq<byte>)
    requires 1 + |body| <= MAX_FRAME_SIZE
    ensures var h := Handling(a, [opcode] + body);
            Exchange(a, FrameBytes(opcode, body)) == (h.0, FrameBytes(ReplyOpcode(h.1), ReplyBody(h.1)))
  {
    hide Handling, FrameBytes, ReadFrame;
    FrameReadsBack(opcode, body, []);
    assert FrameBytes(opcode, body) + [] == FrameBytes(opcode, body);
  }

  /** The client takes an answer for what it is. */
  lemma ExpectIs(r: Reply)
    ensures var answer := FrameBytes(ReplyOpcode(r), ReplyBody(r));
            && (Expect(answer, 0x86, 4).Got? ==> r.InternOk? && U32(Expect(answer, 0x86, 4).value) == r.id)
            && (Expect(answer, 0x83, 8).Got? <==> r.AppendEventOk?)
  {
    hide FrameBytes, ReadFrame, LE32, LE64, DecodeFrame;
    ReplyReadsBack(r);
  }

  /** What an Intern request does to the agent. */
  lemma InternHandled(a: AgentState, kind: DictKind, name: seq<byte>)
    requires AgentInv(a) && a.writer.Some? && |name| <= 1024
    ensures var h := Handling(a, [OP_INTERN] + InternBody(KindByte(kind), name));
            if name != [] && Valid(name) then
              var x := Interning(a.writer.value, kind, name);
              h == (a.(writer := Some(x.0)), match x.1 case Ok(id) => InternOk(id) case Err(e) => Refused(Failed(e)))
            else h.0 == a && h.1.Refused?
  {
    hide Interning, InternBody, ParseIntern, EncodeIntern, Held, Valid, OnIntern, Handling, KindByte;
    var body := InternBody(KindByte(kind), name);
    InternReadsBack(KindByte(kind), name);
    InternDispatched(a, body);
    if name != [] && Valid(name) {
      InternServed(a, body, kind, name);
    } else {
      InternRefused(a, body);
    }
  }

  lemma InternDispatched(a: AgentState, body: seq<byte>)
    ensures Handling(a, [OP_INTERN] + body) == OnIntern(a, body)
  {
    hide OnIntern, OnOpen, OnAppend, OnFinish, OnFlush, OnHello;
    assert ([OP_INTERN] + body)[1..] == body;
  }

  lemma InternServed(a: AgentState, body: seq<byte>, kind: DictKind, name: Utf8.Text)
    requires AgentInv(a) && a.writer.Some? && ParseIntern(body) == Fine((KindByte(kind), name))
    ensures var x := Interning(a.writer.value, kind, name);
            OnIntern(a, body)
            == (a.(writer := Some(x.0)), match x.1 case Ok(id) => InternOk(id) case Err(e) => Refused(Failed(e)))
  {
    hide Interning, ParseIntern, Held;
  }

  lemma InternRefused(a: AgentState, body: seq<byte>)
    requires ParseIntern(body).Bad?
    ensures OnIntern(a, body).0 == a && OnIntern(a, body).1.Refused?
  {
    hide Interning, ParseIntern;
  }

  /** What one exchange may change at most: names are added, nothing taken is lost, and what is stuck stays stuck. */
  ghost predicate Onward(s: Link, t: Link) {
    && s.agent.writer.Some? && t.agent.writer.Some?
    && Recovery.Extends(W(s).names, W(t).names)
    && W(t).header == W(s).header && t.agent.fileName == s.agent.fileName
    && (Stuck(W(s)) ==> Stuck(W(t)))
  }

  lemma OnwardOnward(s: Link, t: Link, u: Link)
    requires Onward(s, t) && Onward(t, u)
    ensures Onward(s, u)
  {
    hide Stuck;
  }

  /** Interning in the open session: the invariant, the names, and what the answered id stands for. */
  lemma InternOnward(b: WriterState, w: WriterState, kind: DictKind, name: Utf8.Text, n: nat)
    requires Held(w) && Spent(b, w, n) && n < 8
    ensures var (u, r) := Interning(w, kind, name);
            && Held(u) && Spent(b, u, n + 1)
            && Recovery.Extends(w.names, u.names) && Taken(u) == Taken(w) && u.header == w.header
            && (Stuck(w) ==> Stuck(u))
            && (r.Ok? ==> (kind, r.value) in u.names.byKey && u.names.byKey[(kind, r.value)] == name)
  {
    StepSpent(b, w, InternOp(kind, name), n);
    HeldKeeps(w, InternOp(kind, name));
    StepKeeps(w, InternOp(kind, name));
    if Stuck(w) {
      StepKeepsStuck(w, InternOp(kind, name));
    }
    InternStable(w.names, kind, name);
    InverseInInv(w);
    InternAgain(w.names, kind, name);
    hide Held, Stuck, Interned, Taken, MutuallyInverse, MeetsWrap, Spent;
    assert Taken(w) + [] == Taken(w);
  }

  lemma InverseInInv(w: WriterState)
    requires Held(w)
    ensures MutuallyInverse(w.names)
  {
  }

  lemma BackedStable(c: Caches, d: Names, d': Names)
    requires Backed(c, d) && Recovery.Extends(d, d')
    ensures Backed(c, d')
  {
    hide CacheOf;
  }

  lemma RememberIs(c: Caches, kind: DictKind, name: seq<byte>, id: u32, k: DictKind)
    ensures CacheOf(Remember(c, kind, name, id), k) == if k == kind then CacheOf(c, k)[name := id] else CacheOf(c, k)
  {
  }

  lemma RememberBacked(c: Caches, d: Names, kind: DictKind, name: seq<byte>, id: u32)
    requires Backed(c, d) && (kind, id) in d.byKey && d.byKey[(kind, id)] == name
    ensures Backed(Remember(c, kind, name, id), d)
  {
    hide CacheOf, Remember;
    forall k, n | n in CacheOf(Remember(c, kind, name, id), k)
      ensures var i := CacheOf(Remember(c, kind, name, id), k)[n]; (k, i) in d.byKey && d.byKey[(k, i)] == n
    {
      RememberIs(c, kind, name, id, k);
      assert !(k == kind && n == name) ==> n in CacheOf(c, k);
    }
  }

  /** Asking for a name that is not cached, in terms of the agent's reply. */
  lemma NamedAsks(s: Link, kind: DictKind, name: seq<byte>)
    requires name !in CacheOf(s.caches, kind) && |name| <= 1024
    ensures var h := Handling(s.agent, [OP_INTERN] + InternBody(KindByte(kind), name));
            var n := Named(s, kind, name);
            && n.0.agent == h.0
            && (if h.1.InternOk? then n.1 == Got(h.1.id) && n.0.caches == Remember(s.caches, kind, name, h.1.id)
                else n.1.Lost? && n.0.caches == s.caches)
  {
    hide Handling, Exchange, Expect, InternBody, FrameBytes, U32, CacheOf, Remember, ReplyBody, ReplyOpcode, KindByte;
    var body := InternBody(KindByte(kind), name);
    BodyShort(KindByte(kind), name);
    ExchangeIs(s.agent, OP_INTERN, body);
    var h := Handling(s.agent, [OP_INTERN] + body);
    ExpectIs(h.1);
    ExpectInternOk(h.1);
  }

  lemma BodyShort(kind: byte, name: seq<byte>)
    requires |name| <= 1024
    ensures |InternBody(kind, name)| == 3 + |name|
  {
  }

  /** Asking for a name that is not cached, in terms of the writer's interning. */
  lemma NamedIs(s: Link, kind: DictKind, name: seq<byte>)
    requires AgentInv(s.agent) && s.agent.writer.Some? && name !in CacheOf(s.caches, kind)
    ensures var (t, r) := Named(s, kind, name);
            if name != [] && |name| <= 1024 && Valid(name) then
              var x := Interning(W(s), kind, name);
              && t.agent == s.agent.(writer := Some(x.0))
              && (if x.1.Ok? then r == Got(x.1.value) && t.caches == Remember(s.caches, kind, name, x.1.value)
                  else r.Lost? && t.caches == s.caches)
            else t == s && r.Lost?
  {
    if |name| <= 1024 {
      NamedAsks(s, kind, name);
      InternHandled(s.agent, kind, name);
      hide Named, Interning, Handling, InternBody, Valid, AgentInv, CacheOf, Remember;
    } else {
      hide Valid, AgentInv, CacheOf;
    }
  }

  lemma ExpectInternOk(r: Reply)
    ensures r.InternOk? ==> var b := Expect(FrameBytes(ReplyOpcode(r), ReplyBody(r)), 0x86, 4); b.Got? && |b.value| == 4
  {
    hide FrameBytes, ReadFrame, LE32, LE64, DecodeFrame;
    ReplyReadsBack(r);
  }

  /** At the agent, `id` stands for `name`. */
  predicate Denotes(s: Link, kind: DictKind, id: u32, name: seq<byte>) {
    s.agent.writer.Some? && (kind, id) in W(s).names.byKey && W(s).names.byKey[(kind, id)] == name
  }

  /** The session goes on with a further writer state. */
  lemma Replaced(s: Link, t: Link, v: WriterState)
    requires LinkInv(s) && t.agent == s.agent.(writer := Some(v)) && Backed(t.caches, v.names)
    requires Held(v) && Recovery.Extends(W(s).names, v.names) && v.header == W(s).header && (Stuck(W(s)) ==> Stuck(v))
    ensures LinkInv(t) && Onward(s, t) && W(t) == v
  {
    hide Held, Backed, Stuck;
  }

  /** A cached name costs nothing, and its id is the agent's. */
  lemma NamedCached(s: Link, kind: DictKind, name: seq<byte>)
    requires LinkInv(s) && name in CacheOf(s.caches, kind)
    ensures var (t, r) := Named(s, kind, name); t == s && r.Got? && Denotes(s, kind, r.value, name)
  {
    hide AgentInv, CacheOf, Exchange;
  }

  lemma NamedUncached(b: WriterState, s: Link, kind: DictKind, name: seq<byte>, n: nat)
    requires LinkInv(s) && Spent(b, W(s), n) && n < 8
    requires name !in CacheOf(s.caches, kind) && name != [] && |name| <= 1024 && Valid(name)
    ensures var (t, r) := Named(s, kind, name);
            && LinkInv(t) && Spent(b, W(t), n + 1) && Onward(s, t) && Taken(W(t)) == Taken(W(s))
            && (r.Got? ==> Denotes(t, kind, r.value, name))
  {
    hide Named, AgentInv, Held, Stuck, Interning, Taken, Backed, Valid, Remember, CacheOf, Spent, Recovery.Extends;
    var w := W(s);
    OpenWriter(s);
    NamedIs(s, kind, name);
    InternOnward(b, w, kind, name, n);
    var x := Interning(w, kind, name);
    BackedStable(s.caches, w.names, x.0.names);
    if x.1.Ok? {
      RememberBacked(s.caches, x.0.names, kind, name, x.1.value);
    }
    Replaced(s, Named(s, kind, name).0, x.0);
  }

  lemma NamedRefused(s: Link, kind: DictKind, name: seq<byte>)
    requires LinkInv(s) && name !in CacheOf(s.caches, kind) && !(name != [] && |name| <= 1024 && Valid(name))
    ensures Named(s, kind, name).0 == s && Named(s, kind, name).1.Lost?
  {
    NamedIs(s, kind, name);
    hide Named, Interning, Valid, CacheOf, AgentInv, Backed;
  }

  /** Asking for one name. */
  lemma NamedKeeps(b: WriterState, s: Link, kind: DictKind, name: seq<byte>, n: nat)
    requires LinkInv(s) && Spent(b, W(s), n) && n < 8
    ensures var (t, r) := Named(s, kind, name);
            && LinkInv(t) && Spent(b, W(t), n + 1) && Onward(s, t) && Taken(W(t)) == Taken(W(s))
            && (r.Got? ==> Denotes(t, kind, r.value, name))
  {
    SpentMore(b, W(s), n, n + 1);
    OnwardSelf(s);
    hide LinkInv, Spent, Onward, Named, Denotes, CacheOf, Valid, Taken;
    if name in CacheOf(s.caches, kind) {
      NamedCached(s, kind, name);
    } else if name != [] && |name| <= 1024 && Valid(name) {
      NamedUncached(b, s, kind, name, n);
    } else {
      NamedRefused(s, kind, name);
    }
  }

  // ---- One event ----

  lemma DenotesKept(s: Link, t: Link, kind: DictKind, id: u32, name: seq<byte>)
    requires Denotes(s, kind, id, name) && Onward(s, t)
    ensures Denotes(t, kind, id, name)
  {
    hide Stuck;
  }

  /** From `s` on, only names were added, by at most `n` operations: the events taken are the same. */
  ghost predicate Asked(s: Link, t: Link, n: nat) {
    LinkInv(t) && Onward(s, t) && Spent(W(s), W(t), n) && Taken(W(t)) == Taken(W(s))
  }

  lemma AskedAlready(s: Link)
    requires LinkInv(s) && Roomy(W(s))
    ensures Asked(s, s, 0)
  {
    hide AgentInv, Backed, Stuck, Taken;
  }

  lemma AskedMore(s: Link, t: Link, m: nat, n: nat)
    requires Asked(s, t, m) && m <= n <= 8
    ensures Asked(s, t, n)
  {
    SpentMore(W(s), W(t), m, n);
    hide LinkInv, Stuck, Taken, Onward;
  }

  lemma AskOne(s: Link, t: Link, kind: DictKind, name: seq<byte>, n: nat)
    requires Asked(s, t, n) && n < 8
    ensures var x := Named(t, kind, name);
            && Asked(s, x.0, n + 1) && Onward(t, x.0)
            && (x.1.Got? ==> Denotes(x.0, kind, x.1.value, name))
  {
    hide LinkInv, Spent, Taken, Named, Denotes;
    NamedKeeps(W(s), t, kind, name, n);
    var x := Named(t, kind, name);
    OnwardOnward(s, t, x.0);
  }

  /** What the ids of an event stand for. */
  predicate Identify(s: Link, ids: Ids, e: GoEvent) {
    && Denotes(s, Domain, ids.domain, e.domain)
    && Denotes(s, Category, ids.category, e.category)
    && Denotes(s, EventName, ids.name, e.name)
    && (if e.correlation == [] then ids.correlation == 0 else Denotes(s, String, ids.correlation, e.correlation))
    && Denotes(s, String, ids.field, e.fieldName)
  }

  lemma NamedAllKeeps(s: Link, e: GoEvent)
    requires LinkInv(s) && Roomy(W(s))
    ensures var n := NamedAll(s, e); Asked(s, n.0, 5) && (n.1.Got? ==> Identify(n.0, n.1.value, e))
  {
    hide LinkInv, Spent, Taken, Named, Denotes, Asked, Onward, Identify;
    AskedAlready(s);
    AskOne(s, s, Domain, e.domain, 0);
    var d := Named(s, Domain, e.domain);
    AskedMore(s, d.0, 1, 5);
    if d.1.Got? {
      AskOne(s, d.0, Category, e.category, 1);
      var c := Named(d.0, Category, e.category);
      AskedMore(s, c.0, 2, 5);
      if c.1.Got? {
        AskOne(s, c.0, EventName, e.name, 2);
        var n := Named(c.0, EventName, e.name);
        AskedMore(s, n.0, 3, 5);
        if n.1.Got? {
          DenotesKept(d.0, c.0, Domain, d.1.value, e.domain);
          DenotesKept(c.0, n.0, Domain, d.1.value, e.domain);
          DenotesKept(c.0, n.0, Category, c.1.value, e.category);
          NamedRest(s, n.0, e, d.1.value, c.1.value, n.1.value);
        }
      }
    }
  }

  /** The correlation and the field name, with the other names known. */
  lemma NamedRest(s: Link, t: Link, e: GoEvent, domain: u32, category: u32, name: u32)
    requires Asked(s, t, 3)
    requires Denotes(t, Domain, domain, e.domain) && Denotes(t, Category, category, e.category)
               && Denotes(t, EventName, name, e.name)
    ensures var k := if e.correlation == [] then (t, Got(0)) else Named(t, String, e.correlation);
            && Asked(s, k.0, 5)
            && (k.1.Got? ==>
                  var f := Named(k.0, String, e.fieldName);
                  && Asked(s, f.0, 5)
                  && (f.1.Got? ==> Identify(f.0, Ids(domain, category, name, k.1.value, f.1.value), e)))
  {
    hide LinkInv, Spent, Taken, Named, Denotes, Asked, Onward;
    AskedMore(s, t, 3, 4);
    AskedMore(s, t, 3, 5);
    AskOne(s, t, String, e.correlation, 3);
    var k := if e.correlation == [] then (t, Got(0)) else Named(t, String, e.correlation);
    if k.1.Got? {
      AskedOpen(s, t, 3);
      OnwardSelf(t);
      AskOne(s, k.0, String, e.fieldName, 4);
      var f := Named(k.0, String, e.fieldName);
      OnwardOnward(t, k.0, f.0);
      DenotesKept(t, f.0, Domain, domain, e.domain);
      DenotesKept(t, f.0, Category, category, e.category);
      DenotesKept(t, f.0, EventName, name, e.name);
      if e.correlation != [] {
        DenotesKept(k.0, f.0, String, k.1.value, e.correlation);
      }
    }
    AskedMore(s, k.0, 4, 5);
  }

  lemma OnwardSelf(s: Link)
    requires s.agent.writer.Some?
    ensures Onward(s, s)
  {
    hide Stuck;
  }

  /** The journal value that carries what the caller passed. */
  predicate Carries(s: Link, v: GoValue, w: Value) {
    if v.GoString? then w.InternedString? && Denotes(s, String, w.id, v.text) else Plain(v) == Got(w)
  }

  lemma ValueKeeps(s: Link, t: Link, v: GoValue) returns (w: Value)
    requires Asked(s, t, 5)
    ensures var x := ValueBytes(t, v);
            && Asked(s, x.0, 6) && Onward(t, x.0)
            && (w.Blob? ==> |w.bytes| < TWO_32)
            && (x.1.Got? ==> x.1.value == (Tag(w), WireValue(w)) && Carries(x.0, v, w))
  {
    hide LinkInv, Spent, Taken, Named, Denotes, Asked, Onward, LE32, Tag, WireValue, Body, Plain;
    AskedMore(s, t, 5, 6);
    AskedOpen(s, t, 5);
    OnwardSelf(t);
    w := Bool(true);
    if v.GoString? {
      AskOne(s, t, String, v.text, 5);
      var n := Named(t, String, v.text);
      if n.1.Got? {
        w := InternedString(n.1.value);
        InternedBytes(n.1.value);
      }
    } else if Plain(v).Got? {
      w := Plain(v).value;
    }
  }

  lemma InternedBytes(id: u32)
    ensures Tag(InternedString(id)) == TYPE_INTERNED && WireValue(InternedString(id)) == LE32(id)
  {
    hide LE32;
  }

  lemma AskedOpen(s: Link, t: Link, n: nat)
    requires Asked(s, t, n)
    ensures s.agent.writer.Some? && t.agent.writer.Some?
  {
    hide Stuck, Taken, Held;
  }

  function EventOf(ids: Ids, severity: byte, ns: u64, w: Value): AppendEvent
    requires severity <= 5
  {
    AppendEvent(ns, ids.domain, ids.category, ids.name, ids.correlation, SeverityFromByte(severity).value,
                TypedPayload([Field(ids.field, w)]))
  }

  /** Appending in the open session, and flushing behind it if the agent is configured to. */
  lemma AppendOnward(b: WriterState, w: WriterState, ev: AppendEvent, flush: bool, n: nat)
    requires Held(w) && Spent(b, w, n) && n <= 6 && Short(ev.payload)
    ensures var (u, r) := Appending(w, ev);
            var v := if flush && r.Ok? then Flushing(u).0 else u;
            && Held(v) && Spent(b, v, n + 2) && v.names == w.names && v.header == w.header && (Stuck(w) ==> Stuck(v))
            && (if r.Ok? then Taken(v) == Taken(w) + [Record(ev, w.nextEvent)] else Taken(v) == Taken(w) || Stuck(v))
  {
    var (u, r) := Appending(w, ev);
    OpOnward(b, w, AppendOp(ev), n);
    OpOnward(b, u, FlushOp, n + 1);
    SpentMore(b, u, n + 1, n + 2);
    AppendNames(w, ev);
    AppendErrors(w, ev);
    FlushNames(u);
    hide Held, Spent, Stuck, Appending, Flushing, Taken, Reader.CheckRefs, Short;
    assert Taken(u) + [] == Taken(u) && Taken(w) + [] == Taken(w);
  }

  /** One operation of a held writer. */
  lemma OpOnward(b: WriterState, w: WriterState, op: Op, n: nat)
    requires Held(w) && Spent(b, w, n) && n < 8 && ShortOp(op)
    ensures var t := Step(w, op);
            && Held(t) && Spent(b, t, n + 1) && t.header == w.header && (Stuck(w) ==> Stuck(t))
            && Taken(t) == Taken(w) + WriterTheorems.Numbered(w, op)
  {
    StepSpent(b, w, op, n);
    HeldKeeps(w, op);
    StepKeeps(w, op);
    if Stuck(w) {
      StepKeepsStuck(w, op);
    }
    hide Inv, Spent, Stuck, Step, Taken, WriterTheorems.Numbered, Counted, MeetsWrap, ShortPending, ShortOp;
  }

  lemma FlushNames(s: WriterState)
    ensures Flushing(s).0.names == s.names
  {
    hide Journal.Sealed;
  }

  lemma AppendNames(w: WriterState, ev: AppendEvent)
    ensures Appending(w, ev).0.names == w.names
  {
    hide Flushing, Reader.CheckRefs;
    FlushNames(Buffered(w, ev));
  }

  /** A refused append either took no event, or its buffer could not be flushed. */
  lemma AppendErrors(w: WriterState, ev: AppendEvent)
    requires Held(w) && Counted(w, AppendOp(ev)) && Short(ev.payload)
    ensures var (u, r) := Appending(w, ev);
            if r.Ok? then WriterTheorems.Numbered(w, AppendOp(ev)) == [Record(ev, w.nextEvent)]
            else WriterTheorems.Numbered(w, AppendOp(ev)) == [] || Stuck(u)
  {
    if WriterTheorems.Numbered(w, AppendOp(ev)) != [] {
      HeldBuffers(w, ev);
      HeldFails(Buffered(w, ev));
      hide Held, Stuck, Flushing, Reader.CheckRefs, Short;
    }
  }

  lemma AppendHandled(a: AgentState, ids: Ids, severity: byte, ns: u64, w: Value)
    requires AgentInv(a) && a.writer.Some? && severity <= 5 && (w.Blob? ==> |w.bytes| < TWO_32)
    ensures var body := AppendBody(ns, ids.domain, ids.category, ids.name, ids.correlation, severity, ids.field,
              Tag(w), WireValue(w));
            var x := Appending(a.writer.value, EventOf(ids, severity, ns, w));
            var h := Handling(a, [OP_APPEND_EVENT] + body);
            && h.0 == a.(writer := Some(if a.flushEveryEvent && x.1.Ok? then Flushing(x.0).0 else x.0))
            && (h.1.AppendEventOk? <==> x.1.Ok?)
  {
    hide Appending, Flushing, AppendBody, ParseAppend, Held, WireValue, SeverityFromByte;
    var body := AppendBody(ns, ids.domain, ids.category, ids.name, ids.correlation, severity, ids.field, Tag(w),
        WireValue(w));
    AppendReadsBack(ns, ids.domain, ids.category, ids.name, ids.correlation, severity, ids.field, w);
    assert ([OP_APPEND_EVENT] + body)[1..] == body;
  }

  /** What sending the event does, in terms of the writer. */
  lemma SendIs(s: Link, ids: Ids, severity: byte, ns: u64, w: Value)
    requires LinkInv(s) && severity <= 4 && (w.Blob? ==> |w.bytes| < TWO_32)
    ensures var x := Appending(W(s), EventOf(ids, severity, ns, w));
            var r := SendAppend(s, ids, severity, ns, Tag(w), WireValue(w));
            && r.0.caches == s.caches
            && ((r.0 == s && r.1.Lost?) ||
                ((r.1.Got? <==> x.1.Ok?)
                 && r.0.agent == s.agent.(writer :=
                      Some(if s.agent.flushEveryEvent && x.1.Ok? then Flushing(x.0).0 else x.0))))
  {
    var body := AppendBody(ns, ids.domain, ids.category, ids.name, ids.correlation, severity, ids.field, Tag(w),
        WireValue(w));
    hide Appending, Flushing, AppendBody, Handling, Exchange, Expect, FrameBytes, Held, Backed, WireValue, ReplyBody,
         ReplyOpcode, EventOf;
    if 1 + |body| <= MAX_FRAME_SIZE {
      var h := Handling(s.agent, [OP_APPEND_EVENT] + body);
      ExchangeIs(s.agent, OP_APPEND_EVENT, body);
      ExpectIs(h.1);
      AppendHandled(s.agent, ids, severity, ns, w);
    }
  }

  // ---- Emitting ----

  /** The events taken at the agent, in words. */
  function Told(s: Link): seq<Meaning>
    requires s.agent.writer.Some?
  {
    Meanings(W(s).names, Taken(W(s)))
  }

  lemma TakenResolves(w: WriterState)
    requires Inv(w)
    ensures forall ev <- Taken(w) :: Recovery.Resolves(w.names, ev)
  {
    hide Recovery.Resolves, FiledEvents;
    forall ev | ev in Taken(w)
      ensures Recovery.Resolves(w.names, ev)
    {
      var i :| 0 <= i < |Taken(w)| && Taken(w)[i] == ev;
    }
  }

  lemma AskedTold(s: Link, t: Link, n: nat)
    requires LinkInv(s) && Asked(s, t, n)
    ensures Told(t) == Told(s)
  {
    TakenResolves(W(s));
    hide Inv, ShortPending, Backed, Stuck, Taken, Recovery.Resolves, Recovery.Extends, Meanings;
    MeaningsStable(W(s).names, W(t).names, Taken(W(s)));
  }

  /** The recorded event means what the caller said. */
  lemma EventMeans(t: Link, ids: Ids, e: GoEvent, ns: u64, w: Value, n: u64)
    requires LinkInv(t) && Identify(t, ids, e) && Carries(t, e.value, w) && e.severity <= 4
    ensures MeaningOf(W(t).names, Record(EventOf(ids, e.severity, ns, w), n)) == Said(e, ns)
  {
    CorrelationIdSet(t, ids, e);
    hide LinkInv, SeverityFromByte;
    var ev := Record(EventOf(ids, e.severity, ns, w), n);
    var m := MeaningOf(W(t).names, ev);
    assert |m.fields| == 1 && m.fields[0] == FieldMeaning(W(t).names, Field(ids.field, w));
    assert m.fields == Said(e, ns).fields;
  }

  lemma CorrelationIdSet(t: Link, ids: Ids, e: GoEvent)
    requires LinkInv(t) && Identify(t, ids, e)
    ensures ids.correlation == 0 <==> e.correlation == []
  {
    hide Journal.Good, Recovery.InOrder, FiledEntries, FiledEvents, MutuallyInverse, Holds;
    var w := W(t);
    assert NumberedUpTo(w.names, String, Count(FiledEntries(w.log) + w.pendingDict, String));
  }

  lemma MeaningsAppend(d: Names, evs: seq<EventRecord>, ev: EventRecord)
    ensures Meanings(d, evs + [ev]) == Meanings(d, evs) + [MeaningOf(d, ev)]
  {
    hide MeaningOf;
  }

  /** A new writer state behind the same dictionary. */
  lemma Resumed(s: Link, t: Link, v: WriterState)
    requires LinkInv(s) && t.caches == s.caches && t.agent == s.agent.(writer := Some(v))
    requires Held(v) && v.names == W(s).names && v.header == W(s).header && (Stuck(W(s)) ==> Stuck(v))
    ensures LinkInv(t) && Onward(s, t) && W(t) == v
    ensures Taken(v) == Taken(W(s)) ==> Told(t) == Told(s)
  {
    hide AgentInv, Held, Backed, Stuck, Taken;
    Replaced(s, t, v);
  }

  /** One more event taken is one more thing told. */
  lemma OneMoreTold(s: Link, t: Link, ids: Ids, e: GoEvent, ns: u64, w: Value)
    requires LinkInv(s) && t.agent.writer.Some? && W(t).names == W(s).names && e.severity <= 4
    requires Identify(s, ids, e) && Carries(s, e.value, w)
    requires Taken(W(t)) == Taken(W(s)) + [Record(EventOf(ids, e.severity, ns, w), W(s).nextEvent)]
    ensures Told(t) == Told(s) + [Said(e, ns)]
  {
    EventMeans(s, ids, e, ns, w, W(s).nextEvent);
    MeaningsAppend(W(s).names, Taken(W(s)), Record(EventOf(ids, e.severity, ns, w), W(s).nextEvent));
    hide LinkInv, Identify, Carries, Taken, Meanings, MeaningOf, Said, EventOf, Record;
  }

  /**
   What an Emit call may do: take exactly what was said, or take nothing, or leave the writer stuck; and from `b` on it
   has gone on by at most `n` operations.
   */
  ghost predicate Emitted(b: WriterState, s: Link, t: Link, n: nat, r: Outcome<()>, said: Meaning) {
    && LinkInv(s) && LinkInv(t) && Onward(s, t) && Spent(b, W(t), n)
    && (if r.Got? then Told(t) == Told(s) + [said] else Told(t) == Told(s) || Stuck(W(t)))
  }

  lemma NotSent(b: WriterState, s: Link, n: nat, r: Outcome<()>, said: Meaning)
    requires LinkInv(s) && Spent(b, W(s), n) && n <= 6 && r.Lost?
    ensures Emitted(b, s, s, n + 2, r, said)
  {
    SpentMore(b, W(s), n, n + 2);
    OnwardSelf(s);
    hide LinkInv, Spent, Onward, Told, Stuck;
  }

  /** Sending: an acknowledged event is taken as it was said; a refused one is not taken, or can never be finished. */
  lemma SendKeeps(b: WriterState, s: Link, ids: Ids, e: GoEvent, ns: u64, w: Value, n: nat)
    requires LinkInv(s) && Spent(b, W(s), n) && n <= 6 && e.severity <= 4 && (w.Blob? ==> |w.bytes| < TWO_32)
    requires Identify(s, ids, e) && Carries(s, e.value, w)
    ensures var x := SendAppend(s, ids, e.severity, ns, Tag(w), WireValue(w));
            Emitted(b, s, x.0, n + 2, x.1, Said(e, ns))
  {
    hide LinkInv, Spent, Identify, Carries, SendAppend, Said, Onward, Told, Stuck, Held, EventOf, Appending, Flushing,
         Taken, WireValue, Tag, Short;
    var x := SendAppend(s, ids, e.severity, ns, Tag(w), WireValue(w));
    var ev := EventOf(ids, e.severity, ns, w);
    OpenWriter(s);
    SendIs(s, ids, e.severity, ns, w);
    if x.0 == s && x.1.Lost? {
      NotSent(b, s, n, x.1, Said(e, ns));
    } else {
      EventShort(ids, e.severity, ns, w);
      AppendOnward(b, W(s), ev, s.agent.flushEveryEvent, n);
      Resumed(s, x.0, x.0.agent.writer.value);
      if x.1.Got? {
        OneMoreTold(s, x.0, ids, e, ns, w);
      }
    }
  }

  /** An event of one field is short. */
  lemma EventShort(ids: Ids, severity: byte, ns: u64, w: Value)
    requires severity <= 5
    ensures Short(EventOf(ids, severity, ns, w).payload)
  {
    hide Short;
    OneFieldShort(EventOf(ids, severity, ns, w).payload);
  }

  lemma OpenWriter(s: Link)
    requires LinkInv(s)
    ensures s.agent.writer.Some? && Held(W(s))
  {
  }

  /** Names alone were asked for, and the call failed. */
  lemma AskedEmitted(s: Link, t: Link, r: Outcome<()>, n: nat, said: Meaning)
    requires LinkInv(s) && Asked(s, t, n) && n <= 8 && r.Lost?
    ensures Emitted(W(s), s, t, 8, r, said)
  {
    AskedTold(s, t, n);
    AskedMore(s, t, n, 8);
    hide LinkInv, Onward, Spent, Taken, Told, Stuck;
  }

  /** Behind names alone, what sending does is what the call does. */
  lemma SentBehind(s: Link, v: Link, t: Link, r: Outcome<()>, said: Meaning)
    requires LinkInv(s) && Asked(s, v, 6) && Emitted(W(s), v, t, 8, r, said)
    ensures Emitted(W(s), s, t, 8, r, said)
  {
    AskedTold(s, v, 6);
    hide LinkInv, Onward, Spent, Taken, Told, Stuck;
    OnwardOnward(s, v, t);
  }

  /** One Emit. */
  lemma EmitKeeps(s: Link, e: GoEvent, ns: u64)
    requires LinkInv(s) && Roomy(W(s))
    ensures Emitted(W(s), s, Emitting(s, e, ns).0, 8, Emitting(s, e, ns).1, Said(e, ns))
  {
    hide LinkInv, Roomy, Emitted, Asked, Identify, Carries, NamedAll, ValueBytes, SendAppend, Said, Onward;
    var x := Emitting(s, e, ns);
    OpenWriter(s);
    AskedAlready(s);
    if e.severity <= SEVERITY_FATAL {
      NamedAllKeeps(s, e);
      var n := NamedAll(s, e);
      if n.1.Got? {
        var w := ValueKeeps(s, n.0, e.value);
        var v := ValueBytes(n.0, e.value);
        if v.1.Got? {
          IdentifyKept(n.0, v.0, n.1.value, e);
          AskedFacts(s, v.0, 6);
          SendKeeps(W(s), v.0, n.1.value, e, ns, w, 6);
          SentBehind(s, v.0, x.0, x.1, Said(e, ns));
        } else {
          AskedEmitted(s, v.0, x.1, 6, Said(e, ns));
        }
      } else {
        AskedEmitted(s, n.0, x.1, 5, Said(e, ns));
      }
    } else {
      AskedEmitted(s, s, x.1, 0, Said(e, ns));
    }
  }

  lemma AskedFacts(s: Link, t: Link, n: nat)
    requires Asked(s, t, n)
    ensures LinkInv(t) && Spent(W(s), W(t), n)
  {
  }

  lemma IdentifyKept(s: Link, t: Link, ids: Ids, e: GoEvent)
    requires Identify(s, ids, e) && Onward(s, t)
    ensures Identify(t, ids, e)
  {
    hide Denotes, Onward;
    DenotesKept(s, t, Domain, ids.domain, e.domain);
    DenotesKept(s, t, Category, ids.category, e.category);
    DenotesKept(s, t, EventName, ids.name, e.name);
    DenotesKept(s, t, String, ids.field, e.fieldName);
    if e.correlation != [] {
      DenotesKept(s, t, String, ids.correlation, e.correlation);
    }
  }

  // ---- Runs ----

  /** A run of Emit calls, each with its clock reading: the system afterwards and what each call returned. */
  function EmitAll(s: Link, calls: seq<(GoEvent, u64)>): (Link, seq<Outcome<()>>)
    decreases |calls|
  {
    if calls == [] then (s, []) else
    var x := Emitting(s, calls[0].0, calls[0].1);
    var y := EmitAll(x.0, calls[1..]);
    (y.0, [x.1] + y.1)
  }

  /** What the successful calls said, in order. */
  function SaidOk(s: Link, calls: seq<(GoEvent, u64)>): seq<Meaning>
    decreases |calls|
  {
    if calls == [] then [] else
    var x := Emitting(s, calls[0].0, calls[0].1);
    (if x.1.Got? then [Said(calls[0].0, calls[0].1)] else []) + SaidOk(x.0, calls[1..])
  }

  lemma EmitAllIs(s: Link, calls: seq<(GoEvent, u64)>)
    requires calls != []
    ensures var x := Emitting(s, calls[0].0, calls[0].1);
            && EmitAll(s, calls).0 == EmitAll(x.0, calls[1..]).0
            && SaidOk(s, calls) == (if x.1.Got? then [Said(calls[0].0, calls[0].1)] else []) + SaidOk(x.0, calls[1..])
  {
    hide Emitting, Said;
  }

  lemma ToldAppend(a: seq<Meaning>, b: seq<Meaning>, c: seq<Meaning>)
    ensures a + b + c == a + (b + c) && a + ([] + c) == a + c
  {
  }

  /** Before every call, and behind the last, the agent's writer has room for one more: only what is pending counts. */
  predicate RoomForCalls(s: Link, calls: seq<(GoEvent, u64)>)
    decreases |calls|
  {
    && s.agent.writer.Some? && Roomy(W(s))
    && (calls != [] ==> RoomForCalls(Emitting(s, calls[0].0, calls[0].1).0, calls[1..]))
  }

  /** What a run of calls tells is what its successful calls said, or the writer is stuck. */
  lemma {:induction false} EmitAllKeeps(s: Link, calls: seq<(GoEvent, u64)>)
    requires LinkInv(s) && RoomForCalls(s, calls)
    ensures var t := EmitAll(s, calls).0;
            && LinkInv(t) && Onward(s, t) && Roomy(W(t))
            && (Told(t) == Told(s) + SaidOk(s, calls) || Stuck(W(t)))
    decreases |calls|
  {
    hide LinkInv, Onward, Emitting, Told, Stuck, Roomy, Said;
    OnwardSelf(s);
    if calls == [] {
      assert Told(s) + [] == Told(s);
    } else {
      EmitAllIs(s, calls);
      EmitKeeps(s, calls[0].0, calls[0].1);
      hide *;
      var x := Emitting(s, calls[0].0, calls[0].1);
      EmittedFacts(s, x.0, x.1, Said(calls[0].0, calls[0].1));
      EmitAllKeeps(x.0, calls[1..]);
      var t := EmitAll(x.0, calls[1..]).0;
      OnwardOnward(s, x.0, t);
      StuckOnward(x.0, t);
      ToldAppend(Told(s), [Said(calls[0].0, calls[0].1)], SaidOk(x.0, calls[1..]));
    }
  }

  lemma EmittedFacts(s: Link, t: Link, r: Outcome<()>, said: Meaning)
    requires s.agent.writer.Some? && Emitted(W(s), s, t, 8, r, said)
    ensures LinkInv(s) && LinkInv(t) && Onward(s, t)
    ensures if r.Got? then Told(t) == Told(s) + [said] else Told(t) == Told(s) || Stuck(W(t))
  {
    hide LinkInv, Onward, Told, Stuck;
  }

  lemma StuckOnward(s: Link, t: Link)
    requires Onward(s, t)
    ensures Stuck(W(s)) ==> Stuck(W(t))
  {
  }

  const MANY_CALLS: nat := 0x1E00_0000

  lemma SpentWithin(b: WriterState, w: WriterState, m: nat)
    requires Within(b, 8 * m) && Spent(b, w, 8)
    ensures Within(w, 8 * (m + 1))
  {
  }

  lemma WithinRoomy(w: WriterState, m: nat)
    requires Within(w, 8 * m) && m <= MANY_CALLS
    ensures Roomy(w)
  {
  }

  /** Up to 503,316,480 calls always have room, whether or not anything is ever flushed. */
  lemma {:induction false} FewCallsSuffice(s: Link, calls: seq<(GoEvent, u64)>, m: nat)
    requires LinkInv(s) && Within(W(s), 8 * m) && m + |calls| <= MANY_CALLS
    ensures RoomForCalls(s, calls)
    decreases |calls|
  {
    WithinRoomy(W(s), m);
    hide Emitting, LinkInv, Said, Told, Onward, Stuck, Within, Spent, Roomy;
    if calls != [] {
      var x := Emitting(s, calls[0].0, calls[0].1);
      EmitKeeps(s, calls[0].0, calls[0].1);
      SpentWithin(W(s), W(x.0), m);
      FewCallsSuffice(x.0, calls[1..], m + 1);
    }
  }

  // ---- From opening to finishing ----

  /** An agent after Hello and OpenSession on a new connection. */
  function Begun(flushEveryEvent: bool, q: OpenRequest): AgentState {
    var a := Handling(Started(flushEveryEvent), [OP_HELLO] + LE32(PROTOCOL_VERSION)).0;
    Handling(a, [OP_OPEN_SESSION] + OpenBody(q)).0
  }

  lemma BegunIs(flushEveryEvent: bool, q: OpenRequest)
    requires Acceptable(q)
    ensures Begun(flushEveryEvent, q) == AgentState(Some(Fresh(HeaderOf(q))), q.fileName, true, true, flushEveryEvent,
              map[])
  {
    hide LE32, OpenBody, ParseOpen, Valid, SafeFileName, U32;
    OpenReadsBack(q);
    assert ([OP_HELLO] + LE32(PROTOCOL_VERSION))[1..] == LE32(PROTOCOL_VERSION);
    assert LE32(PROTOCOL_VERSION)[..4] == LE32(PROTOCOL_VERSION);
    assert ([OP_OPEN_SESSION] + OpenBody(q))[1..] == OpenBody(q);
    var none: map<Utf8.Text, seq<byte>> := map[];
    assert none - {q.fileName} == none;
  }

  lemma BegunInv(flushEveryEvent: bool, q: OpenRequest)
    requires Acceptable(q)
    ensures LinkInv(Link(NO_CACHES, Begun(flushEveryEvent, q)))
    ensures Told(Link(NO_CACHES, Begun(flushEveryEvent, q))) == []
    ensures W(Link(NO_CACHES, Begun(flushEveryEvent, q))).header == HeaderOf(q)
    ensures Within(W(Link(NO_CACHES, Begun(flushEveryEvent, q))), 0)
    ensures Begun(flushEveryEvent, q).fileName == q.fileName
  {
    var h := HeaderOf(q);
    hide *;
    BegunIs(flushEveryEvent, q);
    FreshLink(h, q.fileName, flushEveryEvent);
  }

  lemma FreshLink(h: Header.Laid, fileName: Utf8.Text, flushEveryEvent: bool)
    ensures var s := Link(NO_CACHES, AgentState(Some(Fresh(h)), fileName, true, true, flushEveryEvent, map[]));
            LinkInv(s) && Told(s) == [] && W(s).header == h && Within(W(s), 0)
  {
    FreshInv(h);
    FreshTaken(h);
    hide Inv, MeaningOf, Taken;
  }

  lemma FreshTaken(h: Header.Laid)
    ensures Taken(Fresh(h)) == []
  {
  }

  /** The file opens without a torn tail to its header and, numbered from 1, to the events said. */
  predicate FileTells(file: seq<byte>, h: Header.Laid, said: seq<Meaning>) {
    && Reader.Opened(file).Ok?
    && var r := Reader.Opened(file).value;
       && Meanings(r.names, r.events) == said
       && (forall i | 0 <= i < |r.events| :: r.events[i].sequence == i + 1)
       && !r.tornTail && r.header == Header.AsRead(h)
  }

  predicate ReadsAs(disk: map<Utf8.Text, seq<byte>>, fileName: Utf8.Text, h: Header.Laid, said: seq<Meaning>) {
    fileName in disk && FileTells(disk[fileName], h, said)
  }

  /** What is flushed reads back as what was taken, in words. */
  lemma FlushedReadsAs(w: WriterState)
    requires Inv(w) && Room(w, FlushOp) && Flushing(w).1.Ok?
    ensures FileTells(File(Flushing(w).0), w.header, Meanings(w.names, Taken(w)))
  {
    FlushKeeps(w);
    hide Inv, Flushing, Reader.Opened, Header.AsRead, Meanings, AllInserted, FiledEntries, FiledEvents, Taken, File;
    FlushedReadsBack(w);
    FlushFrame(w);
    var u := Flushing(w).0;
    FileReadsBack(u);
    TakenInOrder(w);
    var r := Reader.Opened(File(u)).value;
    SameNamesMean(r.names, w.names, r.events);
  }

  /** What is finished can be read back as it was told. */
  lemma FinishTells(t: Link)
    requires LinkInv(t) && Roomy(W(t))
    requires Handling(t.agent, [OP_FINISH_SESSION]).1.FinishSessionOk?
    ensures !Stuck(W(t))
    ensures ReadsAs(Handling(t.agent, [OP_FINISH_SESSION]).0.disk, t.agent.fileName, W(t).header, Told(t))
  {
    hide LinkInv, Stuck, Handling, Flushing, FileTells, Meanings, Taken, File, Room, Held, Roomy;
    OpenWriter(t);
    FinishWrites(t.agent);
    HeldFlushes(W(t));
    HeldFails(W(t));
    FlushedReadsAs(W(t));
  }

  lemma HeldFlushes(w: WriterState)
    requires Held(w) && Roomy(w)
    ensures Inv(w) && Room(w, FlushOp)
  {
    HeldKeeps(w, FlushOp);
    hide Inv, ShortPending, MeetsWrap, Step;
  }

  lemma TakenInOrder(w: WriterState)
    requires Inv(w)
    ensures forall i | 0 <= i < |Taken(w)| :: Taken(w)[i].sequence == i + 1
  {
    hide FiledEvents, Recovery.Resolves;
  }

  lemma FinishWrites(a: AgentState)
    requires a.writer.Some? && Handling(a, [OP_FINISH_SESSION]).1.FinishSessionOk?
    ensures Flushing(a.writer.value).1.Ok?
    ensures Handling(a, [OP_FINISH_SESSION]).0.disk == a.disk[a.fileName := File(Flushing(a.writer.value).0)]
  {
    hide Flushing, OnHello, OnIntern, OnOpen, OnAppend, OnFlush, Journal.FileOf;
    assert Handling(a, [OP_FINISH_SESSION]) == OnFinish(a);
  }

  lemma SameNamesMean(d: Names, e: Names, evs: seq<EventRecord>)
    requires SameNames(d, e)
    ensures Meanings(d, evs) == Meanings(e, evs)
  {
    forall i | 0 <= i < |evs|
      ensures MeaningOf(d, evs[i]) == MeaningOf(e, evs[i])
    {
      var fs := evs[i].payload.fields;
      assert forall j | 0 <= j < |fs| :: FieldMeaning(d, fs[j]) == FieldMeaning(e, fs[j]);
    }
  }

  /** After these calls an acknowledged finish leaves a journal that reads back as what the successful ones said. */
  predicate FinishesAs(s: Link, calls: seq<(GoEvent, u64)>, fileName: Utf8.Text, h: Header.Laid) {
    var (a, r) := Handling(EmitAll(s, calls).0.agent, [OP_FINISH_SESSION]);
    r.FinishSessionOk? ==> ReadsAs(a.disk, fileName, h, SaidOk(s, calls))
  }

  /** From any session in which nothing was said yet. */
  lemma EmittedFrom(s: Link, calls: seq<(GoEvent, u64)>)
    requires LinkInv(s) && Told(s) == [] && RoomForCalls(s, calls)
    ensures FinishesAs(s, calls, s.agent.fileName, W(s).header)
  {
    var t := EmitAll(s, calls).0;
    hide LinkInv, Told, Stuck, RoomForCalls, EmitAll, Handling, ReadsAs, SaidOk, Onward, Roomy;
    EmitAllKeeps(s, calls);
    OnwardFacts(s, t);
    if Handling(t.agent, [OP_FINISH_SESSION]).1.FinishSessionOk? {
      FinishTells(t);
      assert [] + SaidOk(s, calls) == SaidOk(s, calls);
    }
  }

  /** A client and an agent that have just opened a session. */
  function Opening(flushEveryEvent: bool, q: OpenRequest): Link { Link(NO_CACHES, Begun(flushEveryEvent, q)) }

  /**
   End to end: on a new session, whatever Emit calls were made, if the agent acknowledges the finish then the journal
   on disk reads back, without a torn tail, as exactly the events of the successful calls, in order and numbered from
   1, each with its names, field name, correlation, value, time and severity byte as the caller gave them.
   */
  lemma EmittedReadsBack(flushEveryEvent: bool, q: OpenRequest, calls: seq<(GoEvent, u64)>)
    requires Acceptable(q) && RoomForCalls(Opening(flushEveryEvent, q), calls)
    ensures FinishesAs(Opening(flushEveryEvent, q), calls, q.fileName, HeaderOf(q))
  {
    BegunInv(flushEveryEvent, q);
    hide LinkInv, Told, RoomForCalls, Begun, FinishesAs, Within;
    EmittedFrom(Opening(flushEveryEvent, q), calls);
  }

  /** The room is there for up to 503,316,480 calls. */
  lemma FewEmittedReadBack(flushEveryEvent: bool, q: OpenRequest, calls: seq<(GoEvent, u64)>)
    requires Acceptable(q) && |calls| <= MANY_CALLS
    ensures FinishesAs(Opening(flushEveryEvent, q), calls, q.fileName, HeaderOf(q))
  {
    BegunInv(flushEveryEvent, q);
    hide LinkInv, Told, RoomForCalls, Begun, FinishesAs, Within;
    FewCallsSuffice(Opening(flushEveryEvent, q), calls, 0);
    EmittedReadsBack(flushEveryEvent, q, calls);
  }

  lemma OnwardFacts(s: Link, t: Link)
    requires Onward(s, t)
    ensures s.agent.writer.Some? && t.agent.writer.Some?
    ensures W(t).header == W(s).header && t.agent.fileName == s.agent.fileName
  {
    hide Stuck;
  }
}
