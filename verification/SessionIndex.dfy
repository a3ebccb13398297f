/** The index document of a session, with its inverted maps. */
module SessionIndex {
  import opened Wrappers
  import opened SessionSearch

  const INDEX_FORMAT: string := "dtj-json-index-v1"
  const INDEX_SCHEMA_VERSION: int := 1

  /** The inverted maps a document holds. */
  datatype Facet = Domain | Category | EventName | Correlation | Severity

  type Inverted = map<string, seq<int>>

  /** What identifies the source's content: its path, size and modification time. */
  datatype Identity = Identity(path: string, size: nat, mtime: int)

  datatype Doc = Doc(
    format: string,
    schema: Option<int>,
    source: Identity,
    chunks: nat,
    tornTail: bool,
    eventCount: nat,
    byDomain: Inverted,
    byCategory: Inverted,
    byEventName: Inverted,
    byCorrelation: Inverted,
    bySeverity: Inverted,
    events: Option<seq<Item>>)

  datatype IndexFile = BadJson | NotAnObject | Document(doc: Doc)

  // ---- The document ----

  function KeyOf(e: Event, facet: Facet): Option<string> {
    match facet
    case Domain => e.domain
    case Category => e.category
    case EventName => e.eventName
    case Correlation => e.correlation
    case Severity => e.severity
  }

  /** Every element is an event object with its sequence number. */
  predicate Indexable(items: seq<Item>) {
    forall i | 0 <= i < |items| :: items[i].Object? && items[i].event.sequence.Some?
  }

  /** The sequence numbers, in order, of the events that carry a key. */
  function SequencesOf(items: seq<Item>, facet: Facet, key: string): seq<int>
    requires Indexable(items)
  {
    if items == [] then []
    else
      var last := items[|items| - 1].event;
      SequencesOf(items[..|items| - 1], facet, key)
      + if KeyOf(last, facet) == Some(key) then [last.sequence.value] else []
  }

  /** A map lists under every key that occurs exactly the ordered sequence numbers of its events. */
  ghost predicate Inverts(m: Inverted, items: seq<Item>, facet: Facet)
    requires Indexable(items)
  {
    && (forall k <- m :: m[k] == SequencesOf(items, facet, k))
    && (forall k :: k !in m ==> SequencesOf(items, facet, k) == [])
    && (forall k <- m :: m[k] != [])
  }

  /** The document of a session read under an identity. */
  ghost predicate DocumentOf(doc: Doc, identity: Identity, s: Session) {
    && doc.format == INDEX_FORMAT && doc.schema == Some(INDEX_SCHEMA_VERSION)
    && doc.source == identity && doc.chunks == s.chunks && doc.tornTail == s.tornTail
    && doc.eventCount == |s.items| && doc.events == Some(s.items)
    && Indexable(s.items)
    && Inverts(doc.byDomain, s.items, Domain)
    && Inverts(doc.byCategory, s.items, Category)
    && Inverts(doc.byEventName, s.items, EventName)
    && Inverts(doc.byCorrelation, s.items, Correlation)
    && Inverts(doc.bySeverity, s.items, Severity)
  }

  /** The map with one number more under a key, if there is one. */
  function Filed(m: Inverted, key: Option<string>, sequence: int): Inverted {
    if key.None? then m else m[key.value := (if key.value in m then m[key.value] else []) + [sequence]]
  }

  /** Files a sequence number under an event's key, if it has one. */
  method Add(m: Inverted, key: Option<string>, sequence: int) returns (r: Inverted)
    ensures r == Filed(m, key, sequence)
  {
    r := m;
    if key.Some? {
      if key.value !in r {
        r := r[key.value := []];
      }
      r := r[key.value := r[key.value] + [sequence]];
    }
  }

  lemma AddInverts(m: Inverted, items: seq<Item>, facet: Facet, n: nat)
    requires n < |items| && Indexable(items) && Inverts(m, items[..n], facet)
    ensures var e := items[n].event;
            var key := KeyOf(e, facet);
            Inverts(Filed(m, key, e.sequence.value), items[..n + 1], facet)
  {
    assert items[..n + 1][..n] == items[..n];
    hide KeyOf;
  }

  method BuildDocument(identity: Identity, s: Session) returns (doc: Option<Doc>)
    ensures doc.Some? <==> Indexable(s.items)
    ensures doc.Some? ==> DocumentOf(doc.value, identity, s)
  {
    hide KeyOf, Inverts;
    var byDomain: Inverted := map[];
    var byCategory: Inverted := map[];
    var byEventName: Inverted := map[];
    var byCorrelation: Inverted := map[];
    var bySeverity: Inverted := map[];
    var normalized: seq<Item> := [];
    NothingInverts();
    for i := 0 to |s.items|
      invariant normalized == s.items[..i] && Indexable(s.items[..i])
      invariant Inverts(byDomain, s.items[..i], Domain)
      invariant Inverts(byCategory, s.items[..i], Category)
      invariant Inverts(byEventName, s.items[..i], EventName)
      invariant Inverts(byCorrelation, s.items[..i], Correlation)
      invariant Inverts(bySeverity, s.items[..i], Severity)
    {
      if s.items[i].NotObject? || s.items[i].event.sequence.None? {
        return None;
      }
      var event := s.items[i].event;
      normalized := normalized + [s.items[i]];
      ghost var items := s.items[..i + 1];
      assert items[..i] == s.items[..i] && items[..i + 1] == items;
      AddInverts(byDomain, items, Domain, i);
      AddInverts(byCategory, items, Category, i);
      AddInverts(byEventName, items, EventName, i);
      AddInverts(byCorrelation, items, Correlation, i);
      AddInverts(bySeverity, items, Severity, i);
      Keys(event);
      byDomain := Add(byDomain, event.domain, event.sequence.value);
      byCategory := Add(byCategory, event.category, event.sequence.value);
      byEventName := Add(byEventName, event.eventName, event.sequence.value);
      byCorrelation := Add(byCorrelation, event.correlation, event.sequence.value);
      bySeverity := Add(bySeverity, event.severity, event.sequence.value);
    }
    assert s.items[..|s.items|] == s.items;
    doc := Some(Doc(INDEX_FORMAT, Some(INDEX_SCHEMA_VERSION), identity, s.chunks, s.tornTail, |normalized|,
                    byDomain, byCategory, byEventName, byCorrelation, bySeverity, Some(normalized)));
  }

  lemma NothingInverts()
    ensures forall facet :: Inverts(map[], [], facet)
  {
  }

  lemma Keys(e: Event)
    ensures KeyOf(e, Domain) == e.domain && KeyOf(e, Category) == e.category && KeyOf(e, EventName) == e.eventName
    ensures KeyOf(e, Correlation) == e.correlation && KeyOf(e, Severity) == e.severity
  {
  }

  /** The sequence numbers of a list of events. */
  function Numbers(events: seq<Event>): seq<int>
    requires forall i | 0 <= i < |events| :: events[i].sequence.Some?
  {
    seq(|events|, i requires 0 <= i < |events| => events[i].sequence.value)
  }

  /** A request for one key and nothing else; for a category the search folds case. */
  function OnlyKey(facet: Facet, key: string): Filters {
    var none := Filters(None, None, None, None, None, None, None, None, None, None, None);
    match facet
    case Domain => none.(domain := Some(key))
    case Category => none.(category := Some(key))
    case EventName => none.(eventName := Some(key))
    case Correlation => none.(correlation := Some(key))
    case Severity => none.(severity := Some(key))
  }

  /** The search takes an event's key for the one asked for: if it is that, and a category also if it folds to it. */
  predicate TakenFor(e: Event, facet: Facet, key: string, fold: string -> string) {
    && KeyOf(e, facet).Some?
    && var own := KeyOf(e, facet).value;
       if facet.Category? then fold(own) == fold(key) else own == key
  }

  lemma MatchesOnlyKey(e: Event, facet: Facet, key: string, q: Query)
    requires q.filters == OnlyKey(facet, key)
    ensures Matches(e, q) <==> TakenFor(e, facet, key, q.fold)
    ensures KeyOf(e, facet) == Some(key) ==> TakenFor(e, facet, key, q.fold)
  {
    hide Joined;
  }

  /** The search finds an event of a key at least for every number listed under it, and more only by folding. */
  lemma {:induction false} SearchFindsMore(items: seq<Item>, facet: Facet, key: string, q: Query)
    requires Indexable(items) && q.filters == OnlyKey(facet, key)
    ensures forall i | 0 <= i < |Matching(items, q)| :: Matching(items, q)[i].sequence.Some?
    ensures |Matching(items, q)| >= |SequencesOf(items, facet, key)|
    ensures |Matching(items, q)| == |SequencesOf(items, facet, key)| <==>
            forall i | 0 <= i < |items| && TakenFor(items[i].event, facet, key, q.fold) ::
                KeyOf(items[i].event, facet) == Some(key)
    ensures |Matching(items, q)| == |SequencesOf(items, facet, key)| ==>
              Numbers(Matching(items, q)) == SequencesOf(items, facet, key)
    decreases |items|
  {
    if items != [] {
      var front, last := items[..|items| - 1], items[|items| - 1].event;
      SearchFindsMore(front, facet, key, q);
      MatchesOnlyKey(last, facet, key, q);
      hide Matches, KeyOf, TakenFor, OnlyKey;
      var found := Matching(front, q);
      assert Numbers(found + [last]) == Numbers(found) + [last.sequence.value] by { NumbersAppend(found, last); }
      assert found + [] == found;
      assert forall i | 0 <= i < |items| - 1 :: items[i] == front[i];
    }
  }

  lemma NumbersAppend(events: seq<Event>, e: Event)
    requires e.sequence.Some? && forall i | 0 <= i < |events| :: events[i].sequence.Some?
    ensures Numbers(events + [e]) == Numbers(events) + [e.sequence.value]
  {
  }

  /**
   The inverted maps agree with search: a key's list is the numbers of the events a search for it finds, if and only
   if no event's key is taken for it without being it. That can only happen to a category, which the search compares
   folded.
   */
  lemma InvertedIsSearchIff(items: seq<Item>, facet: Facet, key: string, q: Query)
    requires Indexable(items) && q.filters == OnlyKey(facet, key)
    ensures forall i | 0 <= i < |Matching(items, q)| :: Matching(items, q)[i].sequence.Some?
    ensures Numbers(Matching(items, q)) == SequencesOf(items, facet, key) <==>
            forall i | 0 <= i < |items| && TakenFor(items[i].event, facet, key, q.fold) ::
                KeyOf(items[i].event, facet) == Some(key)
    ensures !facet.Category? ==> Numbers(Matching(items, q)) == SequencesOf(items, facet, key)
  {
    SearchFindsMore(items, facet, key, q);
    assert |Numbers(Matching(items, q))| == |Matching(items, q)|;
    hide Matching, Matches, OnlyKey, SequencesOf;
  }

  /** Case folding of the ASCII letters, which every full folding extends. */
  function FoldAscii(t: string): string {
    if t == "" then "" else [if 'A' <= t[0] <= 'Z' then t[0] + ' ' else t[0]] + FoldAscii(t[1..])
  }

  /** Two events whose categories differ only in case: the search for one finds both, its inverted list has one. */
  lemma FoldedCategoryDiffers(q: Query)
    requires q.filters == OnlyKey(Category, "Net") && q.fold == FoldAscii
    ensures var e := Event(Some(1), None, Some("Net"), None, None, None, None, []);
            var items := [Object(e), Object(e.(sequence := Some(2), category := Some("NET")))];
            && Indexable(items)
            && SequencesOf(items, Category, "Net") == [1]
            && Matching(items, q) == [items[0].event, items[1].event]
  {
    var e := Event(Some(1), None, Some("Net"), None, None, None, None, []);
    var f := e.(sequence := Some(2), category := Some("NET"));
    var items := [Object(e), Object(f)];
    FoldNet();
    MatchesOnlyKey(e, Category, "Net", q);
    MatchesOnlyKey(f, Category, "Net", q);
    hide Matches, FoldAscii, OnlyKey;
    assert items[..1] == [Object(e)] && items[..1][..0] == [];
    assert Matching([Object(e)], q) == [e] by { assert [Object(e)][..0] == []; }
    assert SequencesOf([Object(e)], Category, "Net") == [1] by { assert [Object(e)][..0] == []; }
    assert Matching(items, q) == [e, f];
  }

  lemma FoldNet()
    ensures FoldAscii("Net") == FoldAscii("NET")
  {
    assert "Net"[1..] == "et" && "et"[1..] == "t" && "t"[1..] == "";
    assert "NET"[1..] == "ET" && "ET"[1..] == "T" && "T"[1..] == "";
  }
}
