/** The index as a cache: validation, and builds, queries and source writers running at once. */
module IndexCache {
  import opened Wrappers
  import opened SessionSearch
  import opened SessionIndex

  // ---- Opening and searching an index ----

  datatype Opened = Valid(doc: Doc) | Invalid(why: Complaint)

  /** A stored number as the validation reads it: zero counts as missing. */
  function Stored(n: int): int { if n == 0 then -1 else n }

  predicate IdentityMatches(doc: Doc, identity: Identity) {
    && doc.source.path == identity.path
    && Stored(doc.source.size) == identity.size
    && Stored(doc.source.mtime) == identity.mtime
  }

  /** Validates the index file read after the source was found to be `identity`. */
  function Validated(file: Option<IndexFile>, identity: Identity): Opened {
    if file.None? || !file.value.Document? then Invalid(CorruptIndex)
    else
      var doc := file.value.doc;
      if doc.format != INDEX_FORMAT || doc.schema.None? then Invalid(CorruptIndex)
      else if doc.schema.value != INDEX_SCHEMA_VERSION then Invalid(UnsupportedIndexSchema)
      else if !IdentityMatches(doc, identity) then Invalid(StaleIndex)
      else Valid(doc)
  }

  function Searched(doc: Doc, q: Query): Answer
    requires Checked(q).None?
  {
    if doc.events.None? || NotObject in doc.events.value then Fail(CorruptIndex)
    else Hit(doc.events.value, doc.tornTail, q)
  }

  method SearchDocument(doc: Doc, q: Query) returns (answer: Answer)
    requires Checked(q).None?
    ensures answer == Searched(doc, q)
  {
    hide Matches, ValidWindow;
    if doc.events.None? {
      return Fail(CorruptIndex);
    }
    var rawEvents := doc.events.value;
    var matched: seq<Event> := [];
    for i := 0 to |rawEvents|
      invariant NotObject !in rawEvents[..i]
      invariant matched == Matching(rawEvents[..i], q)
    {
      var item := rawEvents[i];
      if item.NotObject? {
        assert item in rawEvents;
        return Fail(CorruptIndex);
      }
      assert rawEvents[..i + 1][..i] == rawEvents[..i];
      if Matches(item.event, q) {
        matched := matched + [item.event];
      }
    }
    assert rawEvents[..|rawEvents|] == rawEvents;
    return Hits(|matched|, Page(matched, q.offset, q.limit), doc.tornTail);
  }

  /** An identity of time 0 and the same at time -1, one nanosecond before 1970. */
  predicate EpochPair(built: Identity, now: Identity) {
    built.mtime == 0 && now == built.(mtime := -1)
  }

  /**
   An index validates exactly against the identity it was built under, unless that has a zero size or time; and one
   built at time 0 against the same identity at time -1, because a stored 0 is read as -1.
   */
  lemma ValidatesIff(doc: Doc, built: Identity, s: Session, now: Identity)
    requires DocumentOf(doc, built, s)
    ensures Validated(Some(Document(doc)), now).Valid? <==>
            built.size != 0 && ((now == built && built.mtime != 0) || EpochPair(built, now))
  {
    hide Inverts;
  }

  /** Searching a session's document is searching the session. */
  lemma SearchedIsDirect(doc: Doc, identity: Identity, s: Session, q: Query)
    requires DocumentOf(doc, identity, s) && Checked(q).None?
    ensures Searched(doc, q) == Direct(Some(s), q)
  {
    hide Inverts, Hit;
  }

  // ---- Builds, queries and writers at once ----

  /** The source file: its identity, and what decoding it gives. */
  datatype Source = Source(identity: Identity, content: Option<Session>)

  /** How far a build has come. A read is disturbed when the source changes before it ends. */
  datatype Build =
    | Statted(before: Identity)
    | Reading(before: Identity, undisturbed: bool)
    | Decoded(before: Identity, session: Session)
    | Confirmed(before: Identity, session: Session)

  /** An answer comes with the identity that the index document read was built under. */
  datatype QueryRun =
    | Stamped(query: Query, identity: Identity)
    | Answered(query: Query, identity: Identity, answer: Answer, built: Option<Identity>)

  /** `history` records the content every identity ever stood for. */
  datatype World = World(
    source: Option<Source>,
    index: Option<IndexFile>,
    history: map<Identity, Option<Session>>,
    builds: map<nat, Build>,
    queries: map<nat, QueryRun>)

  datatype Step =
    | WriteSource(source: Source)
    | RemoveSource
    | SpoilIndex(file: Option<IndexFile>)
    | BuildStat(b: nat)
    | BuildOpen(b: nat)
    | BuildRead(b: nat, got: Option<Session>)
    | BuildConfirm(b: nat)
    | BuildPublish(b: nat, doc: Doc)
    | BuildFail(b: nat)
    | QueryStat(k: nat, query: Query)
    | QueryRead(k: nat)

  function Disturbed(builds: map<nat, Build>): map<nat, Build> {
    map b | b in builds :: if builds[b].Reading? then Reading(builds[b].before, false) else builds[b]
  }

  /**
   When a step can happen. A source write takes an identity never seen before; a read the source did not change under
   gives its content, any other may give anything.
   */
  ghost predicate Enabled(w: World, step: Step) {
    match step
    case WriteSource(source) => source.identity !in w.history
    case RemoveSource => true
    case SpoilIndex(file) => file.Some? ==> !file.value.Document?
    case BuildStat(b) => b !in w.builds && w.source.Some?
    case BuildOpen(b) => b in w.builds && w.builds[b].Statted?
    case BuildRead(b, got) =>
      && b in w.builds && w.builds[b].Reading?
      && (w.builds[b].undisturbed ==> got == if w.source.Some? then w.source.value.content else None)
    case BuildConfirm(b) => b in w.builds && w.builds[b].Decoded?
    case BuildPublish(b, doc) => b in w.builds && w.builds[b].Confirmed?
        && DocumentOf(doc, w.builds[b].before, w.builds[b].session)
    case BuildFail(b) => b in w.builds
    case QueryStat(k, query) => k !in w.queries && Checked(query).None? && w.index.Some? && w.source.Some?
    case QueryRead(k) => k in w.queries && w.queries[k].Stamped?
  }

  function AnswerOf(file: Option<IndexFile>, identity: Identity, q: Query): Answer
    requires Checked(q).None?
  {
    match Validated(file, identity)
    case Invalid(why) => Fail(why)
    case Valid(doc) => Searched(doc, q)
  }

  /** The identity a document in the index was built under. */
  function BuiltUnder(file: Option<IndexFile>): Option<Identity> {
    if file.Some? && file.value.Document? then Some(file.value.doc.source) else None
  }

  ghost function After(w: World, step: Step): World
    requires Enabled(w, step) && QueriesChecked(w)
  {
    match step
    case WriteSource(source) =>
      w.(source := Some(source), history := w.history[source.identity := source.content], builds := Disturbed(w.builds))
    case RemoveSource => w.(source := None, builds := Disturbed(w.builds))
    case SpoilIndex(file) => w.(index := file)
    case BuildStat(b) => w.(builds := w.builds[b := Statted(w.source.value.identity)])
    case BuildOpen(b) => w.(builds := w.builds[b := Reading(w.builds[b].before, true)])
    case BuildRead(b, got) =>
      w.(builds := if got.None? then w.builds - {b} else w.builds[b := Decoded(w.builds[b].before, got.value)])
    case BuildConfirm(b) =>
      var before := w.builds[b].before;
      w.(builds := if w.source.Some? && w.source.value.identity == before
                   then w.builds[b := Confirmed(before, w.builds[b].session)]
                   else w.builds - {b})
    case BuildPublish(b, doc) => w.(index := Some(Document(doc)), builds := w.builds - {b})
    case BuildFail(b) => w.(builds := w.builds - {b})
    case QueryStat(k, query) => w.(queries := w.queries[k := Stamped(query, w.source.value.identity)])
    case QueryRead(k) =>
      var run := w.queries[k];
      var answer := AnswerOf(w.index, run.identity, run.query);
      w.(queries := w.queries[k := Answered(run.query, run.identity, answer, BuiltUnder(w.index))])
  }

  predicate QueriesChecked(w: World) {
    forall k <- w.queries :: Checked(w.queries[k].query).None?
  }

  // ---- What every world keeps ----

  /** The source is what history says of its identity. */
  predicate SourceRecorded(w: World) {
    w.source.Some? ==>
      var identity := w.source.value.identity;
      identity in w.history && w.history[identity] == w.source.value.content
  }

  /** The source still stands under an identity. */
  predicate Stands(w: World, identity: Identity) {
    w.source.Some? && w.source.value.identity == identity
  }

  /** A build that is to be confirmed holds the content of the identity it began with. */
  predicate BuildSound(w: World, build: Build) {
    && build.before in w.history
    && match build
       case Statted(_) => true
       case Reading(before, undisturbed) => !undisturbed ==> !Stands(w, before)
       case Decoded(before, session) => Stands(w, before) ==> w.history[before] == Some(session)
       case Confirmed(before, session) => w.history[before] == Some(session)
  }

  /** An index document was built from the content its identity stood for. */
  ghost predicate IndexSound(w: World) {
    w.index.Some? && w.index.value.Document? ==>
      var doc := w.index.value.doc;
      && doc.source in w.history && w.history[doc.source].Some?
      && DocumentOf(doc, doc.source, w.history[doc.source].value)
  }

  /** The content the index was built from is that of the identity the query saw, but for the pair of times 0 and -1. */
  predicate AnswersFor(built: Option<Identity>, identity: Identity) {
    built == Some(identity) || (built.Some? && EpochPair(built.value, identity))
  }

  /** An answer with hits is the direct search's over the content the index was built from. */
  predicate QuerySound(w: World, run: QueryRun) {
    && Checked(run.query).None?
    && run.identity in w.history
    && (run.Answered? && run.answer.Hits? ==>
          && AnswersFor(run.built, run.identity)
          && run.built.value in w.history && run.answer == Direct(w.history[run.built.value], run.query))
  }

  ghost predicate Sound(w: World) {
    && SourceRecorded(w)
    && IndexSound(w)
    && (forall b <- w.builds :: BuildSound(w, w.builds[b]))
    && (forall k <- w.queries :: QuerySound(w, w.queries[k]))
  }

  // ---- Every step keeps it ----

  lemma BuildsKept(w: World, step: Step)
    requires Sound(w) && Enabled(w, step) && QueriesChecked(w)
    ensures forall b <- After(w, step).builds :: BuildSound(After(w, step), After(w, step).builds[b])
  {
    hide DocumentOf, IndexSound, AnswerOf, QuerySound, Checked;
    forall b | b in After(w, step).builds
      ensures BuildSound(After(w, step), After(w, step).builds[b])
    {
      if b in w.builds {
        assert BuildSound(w, w.builds[b]);
      }
    }
  }

  lemma AnswerSound(w: World, run: QueryRun)
    requires Sound(w) && QuerySound(w, run)
    requires AnswerOf(w.index, run.identity, run.query).Hits?
    ensures var built := BuiltUnder(w.index);
            && AnswersFor(built, run.identity) && built.value in w.history
            && AnswerOf(w.index, run.identity, run.query) == Direct(w.history[built.value], run.query)
  {
    var doc := w.index.value.doc;
    ValidatesIff(doc, doc.source, w.history[doc.source].value, run.identity);
    SearchedIsDirect(doc, doc.source, w.history[doc.source].value, run.query);
    hide DocumentOf, Searched, Direct, Checked;
  }

  lemma QueriesKept(w: World, step: Step)
    requires Sound(w) && Enabled(w, step) && QueriesChecked(w)
    ensures forall k <- After(w, step).queries :: QuerySound(After(w, step), After(w, step).queries[k])
  {
    hide DocumentOf, IndexSound, AnswerOf, BuildSound, Checked, Direct, Disturbed, AnswersFor, BuiltUnder;
    forall k | k in After(w, step).queries
      ensures QuerySound(After(w, step), After(w, step).queries[k])
    {
      if k in w.queries {
        var run := w.queries[k];
        assert QuerySound(w, run);
        if step == QueryRead(k) && AnswerOf(w.index, run.identity, run.query).Hits? {
          AnswerSound(w, run);
        }
      }
    }
  }

  lemma IndexKept(w: World, step: Step)
    requires Sound(w) && Enabled(w, step) && QueriesChecked(w)
    ensures IndexSound(After(w, step)) && SourceRecorded(After(w, step))
  {
    hide AnswerOf, QuerySound, Checked, Disturbed, DocumentOf;
    if step.BuildPublish? {
      assert BuildSound(w, w.builds[step.b]);
      assert step.doc.source == w.builds[step.b].before by {
        PublishedSource(step.doc, w.builds[step.b].before, w.builds[step.b].session);
      }
    }
  }

  lemma PublishedSource(doc: Doc, identity: Identity, s: Session)
    requires DocumentOf(doc, identity, s)
    ensures doc.source == identity
  {
  }

  lemma StepKeeps(w: World, step: Step)
    requires Sound(w) && Enabled(w, step)
    ensures QueriesChecked(w) && Sound(After(w, step))
  {
    BuildsKept(w, step);
    QueriesKept(w, step);
    IndexKept(w, step);
    hide IndexSound, SourceRecorded, BuildSound, QuerySound, DocumentOf;
  }

  // ---- Every run ----

  /** A world reached from another by steps that can happen. */
  ghost predicate Reaches(w: World, steps: seq<Step>, end: World)
    decreases |steps|
  {
    if steps == [] then end == w
    else QueriesChecked(w) && Enabled(w, steps[0]) && Reaches(After(w, steps[0]), steps[1..], end)
  }

  /** No index document yet, nothing running, and the source, if any, just recorded. */
  predicate Fresh(w: World) {
    && (w.index.Some? ==> !w.index.value.Document?)
    && w.builds == map[] && w.queries == map[]
    && w.history == (if w.source.Some? then map[w.source.value.identity := w.source.value.content] else map[])
  }

  lemma {:induction false} RunKeeps(w: World, steps: seq<Step>, end: World)
    requires Sound(w) && Reaches(w, steps, end)
    ensures Sound(end)
    decreases |steps|
  {
    hide Sound;
    if steps != [] {
      StepKeeps(w, steps[0]);
      RunKeeps(After(w, steps[0]), steps[1..], end);
    }
  }

  /**
   In every world reached from a fresh one, whatever builds, queries and source changes were interleaved, a query that
   was answered with hits has the count and the page of the direct search over the content the source had when the query
   looked at it; unless that was at time -1 and the index was built at time 0, where it is the content of that time.
   */
  lemma AnswersAreDirect(w: World, steps: seq<Step>, end: World, k: nat)
    requires Fresh(w) && Reaches(w, steps, end)
    requires k in end.queries && end.queries[k].Answered? && end.queries[k].answer.Hits?
    ensures var run := end.queries[k];
            && run.identity in end.history && AnswersFor(run.built, run.identity) && run.built.value in end.history
            && run.answer == Direct(end.history[run.built.value], run.query)
            && (!(run.identity.mtime == -1 && run.built.value.mtime == 0) ==>
                  run.answer == Direct(end.history[run.identity], run.query))
  {
    assert Sound(w);
    RunKeeps(w, steps, end);
    assert QuerySound(end, end.queries[k]);
  }

  /** A published document never holds what a disturbed read gave: it is its identity's content, inverted. */
  lemma PublishedIsContent(w: World, steps: seq<Step>, end: World)
    requires Fresh(w) && Reaches(w, steps, end)
    requires end.index.Some? && end.index.value.Document?
    ensures var doc := end.index.value.doc;
            doc.source in end.history && end.history[doc.source].Some?
            && DocumentOf(doc, doc.source, end.history[doc.source].value)
  {
    assert Sound(w);
    RunKeeps(w, steps, end);
  }

  // ---- With nothing in the way ----

  /** The last steps of a build, and further ones behind it. */
  function Publishing(b: nat, doc: Doc, rest: seq<Step>): seq<Step> {
    [BuildConfirm(b)] + ([BuildPublish(b, doc)] + rest)
  }

  /** The steps of a build that succeeds, and further ones behind it. */
  function BuildSteps(b: nat, s: Session, doc: Doc, rest: seq<Step>): seq<Step> {
    [BuildStat(b)] + ([BuildOpen(b)] + ([BuildRead(b, Some(s))] + Publishing(b, doc, rest)))
  }

  /** A build that succeeds, and a query behind it. */
  function BuildAndAsk(b: nat, k: nat, s: Session, doc: Doc, q: Query): seq<Step> {
    BuildSteps(b, s, doc, [QueryStat(k, q)] + ([QueryRead(k)] + []))
  }

  lemma ReachesNext(w: World, step: Step, rest: seq<Step>, end: World)
    requires QueriesChecked(w) && Enabled(w, step) && Reaches(After(w, step), rest, end)
    ensures Reaches(w, [step] + rest, end)
  {
    hide Enabled, After, QueriesChecked;
    assert ([step] + rest)[1..] == rest;
  }

  /** The world after such a build. */
  function Indexed(w: World, b: nat, doc: Doc): World { w.(index := Some(Document(doc)), builds := w.builds - {b}) }

  lemma QuietBuild(w: World, b: nat, s: Session, doc: Doc, rest: seq<Step>, end: World)
    requires QueriesChecked(w) && w.source.Some? && w.source.value.content == Some(s)
    requires b !in w.builds && DocumentOf(doc, w.source.value.identity, s)
    requires Reaches(Indexed(w, b, doc), rest, end)
    ensures Reaches(w, BuildSteps(b, s, doc, rest), end)
  {
    hide Reaches, DocumentOf, Checked;
    var w1 := After(w, BuildStat(b));
    var w2 := After(w1, BuildOpen(b));
    var w3 := After(w2, BuildRead(b, Some(s)));
    var w4 := After(w3, BuildConfirm(b));
    assert After(w4, BuildPublish(b, doc)) == Indexed(w, b, doc);
    ReachesNext(w4, BuildPublish(b, doc), rest, end);
    ReachesNext(w3, BuildConfirm(b), [BuildPublish(b, doc)] + rest, end);
    var behind := Publishing(b, doc, rest);
    ReachesNext(w2, BuildRead(b, Some(s)), behind, end);
    ReachesNext(w1, BuildOpen(b), [BuildRead(b, Some(s))] + behind, end);
    ReachesNext(w, BuildStat(b), [BuildOpen(b)] + ([BuildRead(b, Some(s))] + behind), end);
  }

  /**
   Building and asking while the source stays as it is gives the direct search's answer, unless the source's size or
   time is zero: then the new index is refused as stale.
   */
  lemma QuietAnswer(w: World, b: nat, k: nat, s: Session, doc: Doc, q: Query) returns (end: World)
    requires Sound(w) && w.source.Some? && w.source.value.content == Some(s)
    requires b !in w.builds && k !in w.queries && Checked(q).None? && DocumentOf(doc, w.source.value.identity, s)
    ensures Reaches(w, BuildAndAsk(b, k, s, doc, q), end) && k in end.queries && end.queries[k].Answered?
    ensures var identity := w.source.value.identity;
            end.queries[k].answer ==
            if identity.size == 0 || identity.mtime == 0 then Fail(StaleIndex) else Direct(Some(s), q)
  {
    var identity := w.source.value.identity;
    SearchedIsDirect(doc, identity, s, q);
    ValidatesIff(doc, identity, s, identity);
    StaleWhenZero(doc, identity, s);
    var w1 := Indexed(w, b, doc);
    hide DocumentOf, Checked, Reaches, Direct, Searched, Validated;
    assert QueriesChecked(w1);
    var w2 := After(w1, QueryStat(k, q));
    end := After(w2, QueryRead(k));
    assert Reaches(end, [], end) by { ReachesItself(end); }
    ReachesNext(w2, QueryRead(k), [], end);
    ReachesNext(w1, QueryStat(k, q), [QueryRead(k)] + [], end);
    QuietBuild(w, b, s, doc, [QueryStat(k, q)] + ([QueryRead(k)] + []), end);
  }

  lemma ReachesItself(w: World)
    ensures Reaches(w, [], w)
  {
  }

  lemma StaleWhenZero(doc: Doc, identity: Identity, s: Session)
    requires DocumentOf(doc, identity, s)
    ensures identity.size == 0 || identity.mtime == 0 ==>
              Validated(Some(Document(doc)), identity) == Invalid(StaleIndex)
    ensures Validated(Some(Document(doc)), identity).Valid? ==> Validated(Some(Document(doc)), identity).doc == doc
  {
    hide Inverts;
  }

  // ---- A source time of -1 ----

  const EMPTY: Session := Session([], false, 0)

  /** An index of an empty session. */
  function EmptyDoc(identity: Identity): Doc {
    Doc(INDEX_FORMAT, Some(INDEX_SCHEMA_VERSION), identity, 0, false, 0, map[], map[], map[], map[], map[], Some([]))
  }

  lemma EmptyDocument(identity: Identity)
    ensures DocumentOf(EmptyDoc(identity), identity, EMPTY)
  {
  }

  /** The source turns undecodable under the identity `now`, and a query is asked. */
  function ChangeAndAsk(now: Identity, q: Query): seq<Step> {
    [WriteSource(Source(now, None))] + ([QueryStat(1, q)] + ([QueryRead(1)] + []))
  }

  lemma ChangedAnswer(w: World, now: Identity, q: Query) returns (end: World)
    requires QueriesChecked(w) && Checked(q).None? && w.index.Some? && now !in w.history && 1 !in w.queries
    ensures Reaches(w, ChangeAndAsk(now, q), end) && 1 in end.queries
    ensures end.queries[1] == Answered(q, now, AnswerOf(w.index, now, q), BuiltUnder(w.index))
    ensures now in end.history && end.history[now] == None
  {
    hide Checked, Reaches, AnswerOf;
    var w2 := After(w, WriteSource(Source(now, None)));
    var w3 := After(w2, QueryStat(1, q));
    end := After(w3, QueryRead(1));
    ReachesItself(end);
    ReachesNext(w3, QueryRead(1), [], end);
    ReachesNext(w2, QueryStat(1, q), [QueryRead(1)] + [], end);
    ReachesNext(w, WriteSource(Source(now, None)), [QueryStat(1, q)] + ([QueryRead(1)] + []), end);
  }

  /**
   An index built at time 0 answers for the source at time -1, although that cannot even be decoded: validation takes
   the stored 0 for missing and reads it as -1.
   */
  lemma EpochMisread(path: string, q: Query) returns (w: World, steps: seq<Step>, end: World)
    requires Checked(q).None?
    ensures Fresh(w) && Reaches(w, steps, end) && 1 in end.queries && end.queries[1].Answered?
    ensures end.queries[1].answer.Hits? && end.queries[1].built.Some?
              && EpochPair(end.queries[1].built.value, end.queries[1].identity)
    ensures end.queries[1].identity in end.history
    ensures end.queries[1].answer != Direct(end.history[end.queries[1].identity], q)
  {
    var built, now := Identity(path, 1, 0), Identity(path, 1, -1);
    var doc := EmptyDoc(built);
    w := World(Some(Source(built, Some(EMPTY))), None, map[built := Some(EMPTY)], map[], map[]);
    EmptyDocument(built);
    assert AnswerOf(Some(Document(doc)), now, q).Hits?;
    hide DocumentOf, Checked, Reaches, AnswerOf, ChangeAndAsk;
    end := ChangedAnswer(Indexed(w, 0, doc), now, q);
    QuietBuild(w, 0, EMPTY, doc, ChangeAndAsk(now, q), end);
    steps := BuildSteps(0, EMPTY, doc, ChangeAndAsk(now, q));
  }
}
