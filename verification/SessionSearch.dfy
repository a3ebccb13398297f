/** Searching a decoded session: the filters, the page, and the checks on the request. */
module SessionSearch {
  import opened Wrappers

  const MAX_SEARCH_LIMIT: int := 500
  const MAX_OFFSET: int := 100_000

  /** An event as decoded. `parts` are its human-readable texts; a field that is no string counts as missing. */
  datatype Event = Event(
    sequence: Option<int>,
    domain: Option<string>,
    category: Option<string>,
    eventName: Option<string>,
    correlation: Option<string>,
    severity: Option<string>,
    monotonic: Option<int>,
    parts: seq<string>)

  /** An element of an events list, which may be no object at all. */
  datatype Item = NotObject | Object(event: Event)

  datatype Session = Session(items: seq<Item>, tornTail: bool, chunks: nat)

  datatype Filters = Filters(
    domain: Option<string>,
    category: Option<string>,
    eventName: Option<string>,
    event: Option<string>,
    correlation: Option<string>,
    severity: Option<string>,
    text: Option<string>,
    exclude: Option<string>,
    excludeCategory: Option<string>,
    monoFrom: Option<int>,
    monoTo: Option<int>)

  /** A search request, with the case folding the texts are compared under. */
  datatype Query = Query(filters: Filters, limit: int, offset: int, fold: string -> string)

  datatype Complaint =
    | InvalidLimit
    | InvalidOffset
    | InvalidWindow
    | Io
    | Undecodable
    | IndexMissing
    | CorruptIndex
    | UnsupportedIndexSchema
    | StaleIndex

  datatype Answer = Hits(matchedCount: nat, events: seq<Event>, tornTail: bool) | Fail(why: Complaint)

  // ---- Filters ----

  predicate Contains(hay: string, needle: string) {
    needle <= hay || (hay != "" && Contains(hay[1..], needle))
  }

  function Joined(parts: seq<string>): string {
    if parts == [] then "" else if |parts| == 1 then parts[0] else parts[0] + " " + Joined(parts[1..])
  }

  predicate Matches(e: Event, q: Query) {
    var f, hay := q.filters, q.fold(Joined(e.parts));
    && !(f.excludeCategory.Some? && e.category.Some? && q.fold(e.category.value) == q.fold(f.excludeCategory.value))
    && !(f.exclude.Some? && f.exclude.value != "" && Contains(hay, q.fold(f.exclude.value)))
    && (f.monoFrom.Some? || f.monoTo.Some? ==> e.monotonic.Some?)
    && (f.monoFrom.Some? ==> e.monotonic.value >= f.monoFrom.value)
    && (f.monoTo.Some? ==> e.monotonic.value <= f.monoTo.value)
    && (f.domain.Some? ==> e.domain == f.domain)
    && (f.category.Some? ==> e.category.Some? && q.fold(e.category.value) == q.fold(f.category.value))
    && (f.eventName.Some? ==> e.eventName == f.eventName)
    && (f.event.Some? && f.event.value != "" ==>
          e.eventName.Some? && Contains(q.fold(e.eventName.value), q.fold(f.event.value)))
    && (f.correlation.Some? ==> e.correlation == f.correlation)
    && (f.severity.Some? ==> e.severity == f.severity)
    && (f.text.Some? && f.text.value != "" ==> Contains(hay, q.fold(f.text.value)))
  }

  // ---- The request ----

  predicate ValidWindow(from: Option<int>, to: Option<int>) {
    && (from.Some? ==> from.value >= 0)
    && (to.Some? ==> to.value >= 0)
    && (from.Some? && to.Some? ==> from.value <= to.value)
  }

  function Checked(q: Query): Option<Complaint> {
    if q.limit < 1 || q.limit > MAX_SEARCH_LIMIT then Some(InvalidLimit)
    else if q.offset < 0 || q.offset > MAX_OFFSET then Some(InvalidOffset)
    else if !ValidWindow(q.filters.monoFrom, q.filters.monoTo) then Some(InvalidWindow)
    else None
  }

  /** The part of a list a page shows. */
  function Page<T>(s: seq<T>, offset: nat, limit: nat): seq<T> {
    var from := if offset < |s| then offset else |s|;
    var to := if offset + limit < |s| then offset + limit else |s|;
    s[from..to]
  }

  // ---- Direct search ----

  /** The objects among the items that match. */
  function Matching(items: seq<Item>, q: Query): seq<Event> {
    if items == [] then []
    else
      var last := items[|items| - 1];
      Matching(items[..|items| - 1], q) + if last.Object? && Matches(last.event, q) then [last.event] else []
  }

  /** The answer to a valid request over a session's items. */
  function Hit(items: seq<Item>, tornTail: bool, q: Query): Answer
    requires Checked(q).None?
  {
    var matched := Matching(items, q);
    Hits(|matched|, Page(matched, q.offset, q.limit), tornTail)
  }

  /** Decoding the source and searching what it holds. */
  function Direct(source: Option<Session>, q: Query): Answer {
    if Checked(q).Some? then Fail(Checked(q).value)
    else if source.None? then Fail(Undecodable)
    else Hit(source.value.items, source.value.tornTail, q)
  }
}
