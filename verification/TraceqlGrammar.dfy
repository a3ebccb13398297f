/** The sentences of the TraceQL subset, and that the parser accepts exactly them. */
module TraceqlGrammar {
  import opened Wrappers
  import opened TraceqlLexer
  import opened TraceqlParser

  /** A value as written: a quoted string, or a bare severity name. */
  datatype Literal = Text(text: Str) | Word(word: Str)

  datatype Pred = Pred(key: FilterKey, value: Literal)

  datatype Selection = Omitted | Everything | These(columns: seq<Str>)

  /** FROM EVENTS [WHERE f = v (AND f = v)*] [SELECT * | cols] LIMIT n */
  datatype Query = Query(preds: seq<Pred>, select: Selection, limit: nat)

  function Meant(v: Literal): Str { if v.Text? then v.text else v.word }

  predicate GoodPred(p: Pred) {
    && |Meant(p.value)| <= FILTER_MAX_CHARS
    && (p.value.Word? ==> IsSeverity(p.value.word))
    && (p.key == Severity ==> IsSeverity(Meant(p.value)))
  }

  predicate Distinct(ps: seq<Pred>) {
    forall i, j | 0 <= i < j < |ps| :: ps[i].key != ps[j].key
  }

  predicate GoodSelection(s: Selection) {
    s.These? ==> s.columns != [] && forall c <- s.columns :: IsColumn(c)
  }

  /** A query the parser takes: it lets the inherited names through as fields. */
  predicate Tolerated(q: Query) {
    && (forall p <- q.preds :: GoodPred(p)) && Distinct(q.preds)
    && GoodSelection(q.select)
    && 1 <= q.limit <= EVENTS_PAGE_MAX
  }

  /** A query of the documented subset: every field is one of the five filters. */
  predicate WellFormed(q: Query) {
    Tolerated(q) && forall p <- q.preds :: !Inherited(p.key)
  }

  /** The filters a list of predicates denotes, on top of `before`. */
  function Denoted(ps: seq<Pred>, before: Filters): Filters {
    if ps == [] then before else Denoted(ps[1..], before[ps[0].key := Meant(ps[0].value)])
  }

  // ---- The sentence of a query ----

  function LiteralTok(v: Literal): Tok { if v.Text? then Quoted(v.text) else Ident(v.word) }

  function PredToks(p: Pred): seq<Tok> { [Ident(Spelling(p.key)), Eq, LiteralTok(p.value)] }

  function PredsToks(ps: seq<Pred>): seq<Tok>
    requires ps != []
  {
    if |ps| == 1 then PredToks(ps[0]) else PredToks(ps[0]) + [Kw(AND)] + PredsToks(ps[1..])
  }

  function WhereToks(ps: seq<Pred>): seq<Tok> {
    if ps == [] then [] else [Kw(WHERE)] + PredsToks(ps)
  }

  /** Further columns, each behind its comma. */
  function ColumnToks(cs: seq<Str>): seq<Tok> {
    if cs == [] then [] else [Comma, Ident(cs[0])] + ColumnToks(cs[1..])
  }

  function SelectToks(s: Selection): seq<Tok>
    requires GoodSelection(s)
  {
    match s
    case Omitted => []
    case Everything => [Kw(SELECT), Star]
    case These(cs) => [Kw(SELECT), Ident(cs[0])] + ColumnToks(cs[1..])
  }

  function LimitToks(n: nat): seq<Tok> { [Kw(LIMIT), Number(n), Eof] }

  function Sentence(q: Query): seq<Tok>
    requires GoodSelection(q.select)
  {
    [Kw(FROM), Kw(EVENTS)] + (WhereToks(q.preds) + (SelectToks(q.select) + LimitToks(q.limit)))
  }

  // ---- Completeness: every sentence is accepted, with its meaning ----

  /** The keywords are different words. */
  lemma KeywordsDiffer()
    ensures AND != WHERE && AND != GROUP && AND != ORDER && AND != SELECT && AND != LIMIT && AND != OR && AND != NOT
    ensures SELECT != WHERE && SELECT != GROUP && SELECT != ORDER && SELECT != LIMIT && LIMIT != WHERE
              && LIMIT != GROUP && LIMIT != ORDER
    ensures WHERE != GROUP && WHERE != ORDER && EVENTS != GRAPH && !IsAggregate(SELECT)
  {
  }

  lemma SpellingsAreFields(k: FilterKey)
    ensures KeyOf(Spelling(k)) == Some(k) && Spelling(k) != PAYLOAD
  {
  }

  lemma OnePredAccepts(p: Pred, rest: seq<Tok>)
    requires GoodPred(p)
    ensures OnePred(PredToks(p) + rest) == Ok((p.key, Meant(p.value)))
    ensures Tail(Tail(Tail(PredToks(p) + rest))) == rest
  {
    hide Spelling, KeyOf, IsSeverity;
    SpellingsAreFields(p.key);
    var ts := PredToks(p) + rest;
    assert ts[1..][1..] == ts[2..] && ts[2..][1..] == ts[3..] && ts[3..] == rest;
  }

  /** The keys left are new to the filters that already hold the first one. */
  lemma RestIsNew(ps: seq<Pred>, before: Filters, value: Str)
    requires ps != [] && Distinct(ps) && (forall p <- ps :: GoodPred(p)) && (forall p <- ps :: p.key !in before)
    ensures Distinct(ps[1..]) && (forall p <- ps[1..] :: GoodPred(p))
              && (forall p <- ps[1..] :: p.key !in before[ps[0].key := value])
  {
    hide GoodPred;
    forall x | x in ps[1..]
      ensures x.key !in before[ps[0].key := value] && GoodPred(x)
    {
      var i :| 1 <= i < |ps| && ps[i] == x;
      assert ps[i] in ps;
    }
  }

  lemma GoodFirst(ps: seq<Pred>)
    requires ps != []
    ensures (forall p <- ps :: GoodPred(p)) <==> GoodPred(ps[0]) && forall p <- ps[1..] :: GoodPred(p)
  {
    hide GoodPred;
    assert ps == [ps[0]] + ps[1..];
  }

  lemma PredsLast(p: Pred, rest: seq<Tok>, before: Filters)
    requires GoodPred(p) && p.key !in before && Head(rest) != Kw(AND)
    ensures Preds(PredToks(p) + rest, before) == Ok((before[p.key := Meant(p.value)], rest))
  {
    OnePredAccepts(p, rest);
    hide OnePred, GoodPred, AND, PredToks, Head, Tail, Meant;
  }

  lemma PredsNext(p: Pred, tail: seq<Tok>, before: Filters)
    requires GoodPred(p) && p.key !in before
    ensures Preds(PredToks(p) + ([Kw(AND)] + tail), before) == Preds(tail, before[p.key := Meant(p.value)])
  {
    OnePredAccepts(p, [Kw(AND)] + tail);
    assert Tail([Kw(AND)] + tail) == tail && Head([Kw(AND)] + tail) == Kw(AND);
    hide OnePred, GoodPred, AND, PredToks, Head, Tail, Meant;
  }

  lemma FourJoined<T>(a: seq<T>, b: seq<T>, c: seq<T>, d: seq<T>)
    ensures a + b + c + d == a + (b + (c + d))
  {
  }

  /** The predicates' tokens begin with the first one's. */
  lemma PredsToksSplit(ps: seq<Pred>, rest: seq<Tok>)
    requires ps != []
    ensures |ps| == 1 ==> PredsToks(ps) + rest == PredToks(ps[0]) + rest
    ensures |ps| > 1 ==> PredsToks(ps) + rest == PredToks(ps[0]) + ([Kw(AND)] + (PredsToks(ps[1..]) + rest))
  {
    hide PredToks, AND;
    if |ps| > 1 {
      FourJoined(PredToks(ps[0]), [Kw(AND)], PredsToks(ps[1..]), rest);
    }
  }

  lemma {:induction false} PredsAccepts(ps: seq<Pred>, rest: seq<Tok>, before: Filters)
    requires ps != [] && Distinct(ps) && (forall p <- ps :: GoodPred(p)) && (forall p <- ps :: p.key !in before)
    requires Head(rest) != Kw(AND)
    ensures Preds(PredsToks(ps) + rest, before) == Ok((Denoted(ps, before), rest))
    decreases |ps|
  {
    var p := ps[0];
    assert p in ps;
    hide Preds, GoodPred, AND, PredToks, PredsToks, Distinct, Head, Tail, Meant;
    PredsToksSplit(ps, rest);
    if |ps| == 1 {
      PredsLast(p, rest, before);
      assert ps[1..] == [];
    } else {
      RestIsNew(ps, before, Meant(p.value));
      PredsAccepts(ps[1..], rest, before[p.key := Meant(p.value)]);
      PredsNext(p, PredsToks(ps[1..]) + rest, before);
    }
  }

  lemma {:induction false} ColumnsAccept(cs: seq<Str>, rest: seq<Tok>)
    requires (forall c <- cs :: IsColumn(c)) && Head(rest) != Comma
    ensures Columns(ColumnToks(cs) + rest) == Ok(rest)
    decreases |cs|
  {
    hide IsColumn;
    if cs == [] {
      assert ColumnToks(cs) + rest == rest;
    } else {
      var ts := ColumnToks(cs) + rest;
      assert cs[0] in cs;
      assert ts == [Comma, Ident(cs[0])] + (ColumnToks(cs[1..]) + rest);
      assert Tail(Tail(ts)) == ColumnToks(cs[1..]) + rest;
      ColumnsAccept(cs[1..], rest);
    }
  }

  lemma SelectAccepts(s: Selection, rest: seq<Tok>)
    requires GoodSelection(s) && Head(rest) == Kw(LIMIT)
    ensures SelectPart(SelectToks(s) + rest) == Ok(rest)
  {
    KeywordsDiffer();
    hide IsColumn, IsAggregate, SELECT, LIMIT;
    var ts := SelectToks(s) + rest;
    if s.Omitted? {
      assert ts == rest;
    } else if s.Everything? {
      assert Tail(Tail(ts)) == rest;
    } else {
      TheseAccepted(s.columns, rest);
    }
  }

  lemma TheseAccepted(cs: seq<Str>, rest: seq<Tok>)
    requires cs != [] && (forall c <- cs :: IsColumn(c)) && Head(rest) == Kw(LIMIT)
    ensures SelectPart(SelectToks(These(cs)) + rest) == Ok(rest)
  {
    hide IsColumn, IsAggregate, SELECT, LIMIT, Columns;
    var ts := SelectToks(These(cs)) + rest;
    assert cs[0] in cs;
    assert ts == [Kw(SELECT), Ident(cs[0])] + (ColumnToks(cs[1..]) + rest);
    assert Tail(Tail(ts)) == ColumnToks(cs[1..]) + rest;
    ColumnsAccept(cs[1..], rest);
  }

  lemma LimitAccepts(n: nat)
    requires 1 <= n <= EVENTS_PAGE_MAX
    ensures LimitPart(LimitToks(n)) == Ok(n)
  {
  }

  /** What stands behind the predicates starts with SELECT or LIMIT. */
  lemma TailStarts(s: Selection, n: nat)
    requires GoodSelection(s)
    ensures var tail := SelectToks(s) + LimitToks(n); Head(tail) == Kw(SELECT) || Head(tail) == Kw(LIMIT)
    ensures Head(LimitToks(n)) == Kw(LIMIT)
  {
    hide IsColumn;
  }

  lemma WhereBehind(ps: seq<Pred>, tail: seq<Tok>)
    requires ps != []
    ensures Head(WhereToks(ps) + tail) == Kw(WHERE) && Tail(WhereToks(ps) + tail) == PredsToks(ps) + tail
  {
    hide PredsToks;
    assert Tail(WhereToks(ps) + tail) == PredsToks(ps) + tail;
  }

  lemma WhereAccepts(ps: seq<Pred>, tail: seq<Tok>)
    requires Distinct(ps) && (forall p <- ps :: GoodPred(p))
    requires Head(tail) == Kw(SELECT) || Head(tail) == Kw(LIMIT)
    ensures var ts := WhereToks(ps) + tail;
            (if Head(ts) == Kw(WHERE) then Preds(Tail(ts), map[]) else Ok((map[], ts)))
                == Ok((Denoted(ps, map[]), tail))
  {
    KeywordsDiffer();
    if ps == [] {
      hide SELECT, LIMIT, WHERE, AND, GoodPred, Preds;
      assert WhereToks(ps) + tail == tail;
    } else {
      WhereBehind(ps, tail);
      hide SELECT, LIMIT, WHERE, AND, GoodPred, Preds, PredsToks, Distinct, WhereToks, Denoted, Head, Tail;
      PredsAccepts(ps, tail, map[]);
    }
  }

  lemma BehindSourceAccepts(q: Query)
    requires Tolerated(q)
    ensures BehindSource(WhereToks(q.preds) + (SelectToks(q.select) + LimitToks(q.limit)))
              == Ok((Denoted(q.preds, map[]), q.limit))
  {
    hide IsAggregate, SELECT, LIMIT, WHERE, AND, GROUP, ORDER, SelectPart, LimitPart, SelectToks, LimitToks, Preds,
         WhereToks, Denoted, GoodPred, Distinct, GoodSelection, Head, Tail;
    KeywordsDiffer();
    var tail := SelectToks(q.select) + LimitToks(q.limit);
    TailStarts(q.select, q.limit);
    WhereAccepts(q.preds, tail);
    SelectAccepts(q.select, LimitToks(q.limit));
    LimitAccepts(q.limit);
  }

  /** Every tolerated query's sentence, so every well-formed one's, is accepted and means its predicates and limit. */
  lemma Complete(q: Query)
    requires Tolerated(q)
    ensures Parsed(Sentence(q)) == Ok((Denoted(q.preds, map[]), q.limit))
  {
    KeywordsDiffer();
    BehindSourceAccepts(q);
    hide FROM, EVENTS, GRAPH, WHERE, BehindSource, WhereToks, SelectToks, LimitToks, Denoted;
    var rest := WhereToks(q.preds) + (SelectToks(q.select) + LimitToks(q.limit));
    assert Tail(Tail(Sentence(q))) == rest;
  }

  // ---- Soundness: whatever is accepted is a sentence ----

  /** The end token stands only at the end, as the tokenizer puts it. */
  predicate EndsOnce(ts: seq<Tok>) {
    ts != [] && ts[|ts| - 1] == Eof && forall i | 0 <= i < |ts| - 1 :: ts[i] != Eof
  }

  lemma TailEndsOnce(ts: seq<Tok>)
    requires EndsOnce(ts) && Head(ts) != Eof
    ensures EndsOnce(Tail(ts)) && ts == [Head(ts)] + Tail(ts)
  {
  }

  lemma OnePredIs(ts: seq<Tok>) returns (p: Pred)
    requires EndsOnce(ts) && OnePred(ts).Ok?
    ensures GoodPred(p) && OnePred(ts).value == (p.key, Meant(p.value))
    ensures ts == PredToks(p) + Tail(Tail(Tail(ts))) && EndsOnce(Tail(Tail(Tail(ts))))
  {
    hide IsSeverity;
    var v := Head(Tail(Tail(ts)));
    p := Pred(OnePred(ts).value.0, if v.Quoted? then Text(v.value) else Word(v.name));
    hide OnePred, EndsOnce, Head, Tail, Spelling;
    OnePredShape(ts);
    ThreeTails(ts);
  }

  lemma ThreeTails(ts: seq<Tok>)
    requires EndsOnce(ts) && Head(ts) != Eof && Head(Tail(ts)) != Eof && Head(Tail(Tail(ts))) != Eof
    ensures ts == [Head(ts), Head(Tail(ts)), Head(Tail(Tail(ts)))] + Tail(Tail(Tail(ts)))
    ensures EndsOnce(Tail(Tail(Tail(ts))))
  {
    TailEndsOnce(ts);
    TailEndsOnce(Tail(ts));
    TailEndsOnce(Tail(Tail(ts)));
    hide EndsOnce, Head, Tail;
    ThreeInFront(Head(ts), Head(Tail(ts)), Head(Tail(Tail(ts))), Tail(Tail(Tail(ts))));
  }

  lemma ThreeInFront(a: Tok, b: Tok, c: Tok, rest: seq<Tok>)
    ensures [a] + ([b] + ([c] + rest)) == [a, b, c] + rest
  {
  }

  lemma OnePredShape(ts: seq<Tok>)
    requires OnePred(ts).Ok?
    ensures Head(ts) == Ident(Spelling(OnePred(ts).value.0)) && Head(Tail(ts)) == Eq
    ensures var v := Head(Tail(Tail(ts)));
            && (v.Quoted? || (v.Ident? && IsSeverity(v.name)))
            && OnePred(ts).value.1 == (if v.Quoted? then v.value else v.name)
    ensures |OnePred(ts).value.1| <= FILTER_MAX_CHARS
    ensures OnePred(ts).value.0 == Severity ==> IsSeverity(OnePred(ts).value.1)
  {
    hide IsSeverity, Spelling, PAYLOAD, IN, BETWEEN, OR, NOT;
  }

  /** A predicate in front of others whose keys are new behind it. */
  lemma OneMorePred(p: Pred, qs: seq<Pred>, before: Filters, value: Str)
    requires GoodPred(p) && p.key !in before && Distinct(qs) && (forall q <- qs :: GoodPred(q))
    requires forall q <- qs :: q.key !in before[p.key := value]
    ensures var ps := [p] + qs;
            Distinct(ps) && (forall q <- ps :: GoodPred(q)) && (forall q <- ps :: q.key !in before)
  {
    hide GoodPred;
    var ps := [p] + qs;
    assert forall i | 0 < i < |ps| :: ps[i] == qs[i - 1] && ps[i] in qs;
  }

  lemma {:induction false} PredsAre(ts: seq<Tok>, before: Filters) returns (ps: seq<Pred>)
    requires EndsOnce(ts) && Preds(ts, before).Ok?
    ensures ps != [] && Distinct(ps) && (forall p <- ps :: GoodPred(p)) && (forall p <- ps :: p.key !in before)
    ensures Preds(ts, before).value.0 == Denoted(ps, before)
    ensures ts == PredsToks(ps) + Preds(ts, before).value.1 && EndsOnce(Preds(ts, before).value.1)
    decreases |ts|
  {
    assert Distinct([]);
    hide OnePred, GoodPred, PredToks, PredsToks, AND, EndsOnce, Distinct;
    var p := OnePredIs(ts);
    var rest := Tail(Tail(Tail(ts)));
    var more := before[p.key := Meant(p.value)];
    if Head(rest) == Kw(AND) {
      TailEndsOnce(rest);
      assert |PredToks(p) + rest| > |rest|;
      var qs := PredsAre(Tail(rest), more);
      ps := [p] + qs;
      assert ps[1..] == qs;
      OneMorePred(p, qs, before, Meant(p.value));
      PredsToksSplit(ps, Preds(ts, before).value.1);
    } else {
      ps := [p];
      assert ps[1..] == [];
      OneMorePred(p, [], before, Meant(p.value));
      assert [p] + [] == ps;
      PredsToksSplit(ps, rest);
    }
  }

  lemma TwoOff(ts: seq<Tok>)
    requires EndsOnce(ts) && Head(ts) != Eof && Head(Tail(ts)) != Eof
    ensures ts == [Head(ts), Head(Tail(ts))] + Tail(Tail(ts)) && EndsOnce(Tail(Tail(ts)))
    ensures |Tail(Tail(ts))| < |ts|
  {
    TailEndsOnce(ts);
    TailEndsOnce(Tail(ts));
  }

  lemma Regroup<T>(a: seq<T>, b: seq<T>, c: seq<T>)
    ensures a + (b + c) == a + b + c
  {
  }

  lemma {:induction false} ColumnsAre(ts: seq<Tok>) returns (cs: seq<Str>)
    requires EndsOnce(ts) && Columns(ts).Ok?
    ensures (forall c <- cs :: IsColumn(c)) && ts == ColumnToks(cs) + Columns(ts).value && EndsOnce(Columns(ts).value)
    decreases |ts|
  {
    hide IsColumn, EndsOnce;
    if Head(ts) != Comma {
      cs := [];
    } else {
      var col, rest := Head(Tail(ts)), Tail(Tail(ts));
      TwoOff(ts);
      hide Head, Tail;
      var more := ColumnsAre(rest);
      cs := [col.name] + more;
      assert cs[1..] == more;
      Regroup([Comma, col], ColumnToks(more), Columns(rest).value);
    }
  }

  lemma SelectIs(ts: seq<Tok>) returns (s: Selection)
    requires EndsOnce(ts) && SelectPart(ts).Ok?
    ensures GoodSelection(s) && ts == SelectToks(s) + SelectPart(ts).value && EndsOnce(SelectPart(ts).value)
  {
    hide IsColumn, IsAggregate, EndsOnce, SELECT, Columns;
    if Head(ts) != Kw(SELECT) {
      s := Omitted;
    } else {
      var first, rest := Head(Tail(ts)), Tail(Tail(ts));
      TwoOff(ts);
      hide Head, Tail;
      if first == Star {
        s := Everything;
      } else {
        var more := ColumnsAre(rest);
        s := These([first.name] + more);
        assert s.columns[1..] == more;
        Regroup([Kw(SELECT), first], ColumnToks(more), Columns(rest).value);
      }
    }
  }

  lemma LimitIs(ts: seq<Tok>)
    requires EndsOnce(ts) && LimitPart(ts).Ok?
    ensures ts == LimitToks(LimitPart(ts).value) && 1 <= LimitPart(ts).value <= EVENTS_PAGE_MAX
  {
    hide LIMIT;
    TailEndsOnce(ts);
    TailEndsOnce(Tail(ts));
    var end := Tail(Tail(ts));
    assert end[0] == Eof && end == [Eof];
  }

  lemma WhereIs(ts: seq<Tok>) returns (ps: seq<Pred>)
    requires EndsOnce(ts) && (Head(ts) == Kw(WHERE) ==> Preds(Tail(ts), map[]).Ok?)
    ensures Distinct(ps) && (forall p <- ps :: GoodPred(p))
    ensures var w := if Head(ts) == Kw(WHERE) then Preds(Tail(ts), map[]).value else (map[], ts);
            w.0 == Denoted(ps, map[]) && ts == WhereToks(ps) + w.1 && EndsOnce(w.1)
  {
    hide GoodPred, EndsOnce, WHERE, Preds, PredsToks;
    if Head(ts) == Kw(WHERE) {
      TailEndsOnce(ts);
      ps := PredsAre(Tail(ts), map[]);
    } else {
      ps := [];
    }
  }

  lemma BehindSourceIs(ts: seq<Tok>) returns (q: Query)
    requires EndsOnce(ts) && BehindSource(ts).Ok?
    ensures Tolerated(q) && BehindSource(ts).value == (Denoted(q.preds, map[]), q.limit)
    ensures ts == WhereToks(q.preds) + (SelectToks(q.select) + LimitToks(q.limit))
  {
    hide GoodPred, Distinct, EndsOnce, WHERE, GROUP, ORDER, Preds, SelectPart, LimitPart, WhereToks, SelectToks,
         LimitToks, Denoted, Head, Tail;
    var ps := WhereIs(ts);
    var w := if Head(ts) == Kw(WHERE) then Preds(Tail(ts), map[]).value else (map[], ts);
    var s := SelectIs(w.1);
    var rest := SelectPart(w.1).value;
    LimitIs(rest);
    q := Query(ps, s, LimitPart(rest).value);
  }

  /** Whatever token list is accepted is the sentence of a tolerated query with that meaning. */
  lemma Sound(ts: seq<Tok>) returns (q: Query)
    requires EndsOnce(ts) && Parsed(ts).Ok?
    ensures Tolerated(q) && ts == Sentence(q) && Parsed(ts).value == (Denoted(q.preds, map[]), q.limit)
  {
    hide EndsOnce, FROM, EVENTS, GRAPH, BehindSource, WhereToks, SelectToks, LimitToks, Denoted, GoodPred, Distinct;
    TailEndsOnce(ts);
    TailEndsOnce(Tail(ts));
    q := BehindSourceIs(Tail(Tail(ts)));
    assert ts == [Kw(FROM), Kw(EVENTS)] + Tail(Tail(ts));
  }

  /** The parser accepts exactly the sentences of tolerated queries, and returns the filters and limit they denote. */
  lemma AcceptsTolerated(ts: seq<Tok>, f: Filters, n: nat)
    requires EndsOnce(ts)
    ensures Parsed(ts) == Ok((f, n)) <==>
            exists q :: Tolerated(q) && ts == Sentence(q) && Denoted(q.preds, map[]) == f && q.limit == n
  {
    hide EndsOnce, Sentence, Parsed, Denoted;
    if Parsed(ts) == Ok((f, n)) {
      var q := Sound(ts);
    }
    forall q | Tolerated(q) && ts == Sentence(q) && Denoted(q.preds, map[]) == f && q.limit == n
      ensures Parsed(ts) == Ok((f, n))
    {
      Complete(q);
    }
  }

  // ---- Inherited names ----

  predicate IsInherited(t: Tok) { t == Ident(CONSTRUCTOR) || t == Ident(PROTO) }

  /** One of the tokens is an inherited name. */
  predicate NamesInherited(ts: seq<Tok>) { exists t <- ts :: IsInherited(t) }

  lemma InheritedJoined(a: seq<Tok>, b: seq<Tok>)
    ensures NamesInherited(a + b) <==> NamesInherited(a) || NamesInherited(b)
  {
    hide IsInherited;
  }

  lemma OrdinaryWords(w: Str)
    requires IsSeverity(w) || IsColumn(w)
    ensures !IsInherited(Ident(w))
  {
    assert CONSTRUCTOR[2] != CORRELATION[2];
  }

  lemma PredNames(p: Pred)
    requires GoodPred(p)
    ensures NamesInherited(PredToks(p)) <==> Inherited(p.key)
  {
    if p.value.Word? {
      OrdinaryWords(p.value.word);
    }
    assert KeyOf(Spelling(p.key)) == Some(p.key);
    assert IsInherited(Ident(Spelling(p.key))) <==> Inherited(p.key);
    var ts := PredToks(p);
    hide GoodPred, Spelling, IsInherited, CONSTRUCTOR, PROTO;
    assert ts[0] in ts;
  }

  /** What stands behind the first predicate. */
  lemma {:induction false} PredsNames(ps: seq<Pred>)
    requires ps != [] && forall p <- ps :: GoodPred(p)
    ensures NamesInherited(PredsToks(ps)) <==> exists p <- ps :: Inherited(p.key)
    decreases |ps|
  {
    hide GoodPred, IsInherited, NamesInherited, PredToks, Inherited, AND;
    assert ps[0] in ps;
    PredNames(ps[0]);
    if |ps| > 1 {
      GoodFirst(ps);
      PredsNames(ps[1..]);
      InheritedJoined(PredToks(ps[0]) + [Kw(AND)], PredsToks(ps[1..]));
      InheritedJoined(PredToks(ps[0]), [Kw(AND)]);
      KeywordIsNone(AND);
      assert ps == [ps[0]] + ps[1..];
    }
  }

  lemma KeywordIsNone(w: Str)
    ensures !NamesInherited([Kw(w)])
  {
  }

  lemma {:induction false} ColumnNames(cs: seq<Str>)
    requires forall c <- cs :: IsColumn(c)
    ensures !NamesInherited(ColumnToks(cs))
    decreases |cs|
  {
    if cs != [] {
      hide IsColumn;
      assert cs[0] in cs;
      ColumnNames(cs[1..]);
      OrdinaryWords(cs[0]);
      hide CONSTRUCTOR, PROTO;
      InheritedJoined([Comma, Ident(cs[0])], ColumnToks(cs[1..]));
    }
  }

  lemma SelectNames(s: Selection)
    requires GoodSelection(s)
    ensures !NamesInherited(SelectToks(s))
  {
    hide IsColumn;
    if s.These? {
      var cs := s.columns;
      assert cs[0] in cs;
      OrdinaryWords(cs[0]);
      ColumnNames(cs[1..]);
      hide CONSTRUCTOR, PROTO;
      InheritedJoined([Kw(SELECT), Ident(cs[0])], ColumnToks(cs[1..]));
    }
  }

  /** A tolerated sentence names an inherited field exactly when its query is not well-formed. */
  lemma SentenceNames(q: Query)
    requires Tolerated(q)
    ensures NamesInherited(Sentence(q)) <==> !WellFormed(q)
  {
    var front, where, select, limit := [Kw(FROM), Kw(EVENTS)], WhereToks(q.preds), SelectToks(q.select),
        LimitToks(q.limit);
    assert !NamesInherited(front) && !NamesInherited(limit);
    SelectNames(q.select);
    if q.preds != [] {
      PredsNames(q.preds);
      KeywordIsNone(WHERE);
      InheritedJoined([Kw(WHERE)], PredsToks(q.preds));
    }
    assert q.preds == [] ==> where == [];
    InheritedJoined(front, where + (select + limit));
    InheritedJoined(where, select + limit);
    InheritedJoined(select, limit);
    hide IsInherited, GoodPred, Distinct, GoodSelection, PredsToks, SelectToks, LimitToks, Inherited;
  }

  /**
   The parser accepts the sentences of well-formed queries, with the filters and limit they denote, and besides them
   only token lists in which a field is `constructor` or `__proto__`.
   */
  lemma AcceptsExactly(ts: seq<Tok>, f: Filters, n: nat)
    requires EndsOnce(ts)
    ensures Parsed(ts) == Ok((f, n)) && !NamesInherited(ts) <==>
            exists q :: WellFormed(q) && ts == Sentence(q) && Denoted(q.preds, map[]) == f && q.limit == n
  {
    hide EndsOnce, Sentence, Parsed, Denoted, GoodPred, Distinct, NamesInherited;
    if Parsed(ts) == Ok((f, n)) && !NamesInherited(ts) {
      var q := Sound(ts);
      SentenceNames(q);
    }
    forall q | WellFormed(q) && ts == Sentence(q) && Denoted(q.preds, map[]) == f && q.limit == n
      ensures Parsed(ts) == Ok((f, n)) && !NamesInherited(ts)
    {
      Complete(q);
      SentenceNames(q);
    }
  }

  /** An accepted token list is the sentence of a well-formed query exactly when no field has an inherited name. */
  lemma AcceptedIsWellFormedIff(ts: seq<Tok>)
    requires EndsOnce(ts) && Parsed(ts).Ok?
    ensures (exists q :: WellFormed(q) && ts == Sentence(q)) <==> !NamesInherited(ts)
  {
    hide EndsOnce, Sentence, Parsed, Denoted, GoodPred, Distinct, NamesInherited;
    var q := Sound(ts);
    SentenceNames(q);
    forall r | WellFormed(r) && ts == Sentence(r)
      ensures !NamesInherited(ts)
    {
      SentenceNames(r);
    }
  }

  /** The filters denoted hold each predicate's value under its key, and nothing else. */
  lemma {:induction false} DenotedHolds(ps: seq<Pred>, before: Filters)
    requires Distinct(ps) && (forall p <- ps :: p.key !in before)
    ensures forall p <- ps :: p.key in Denoted(ps, before) && Denoted(ps, before)[p.key] == Meant(p.value)
    ensures forall k :: k in Denoted(ps, before) <==> k in before || exists p <- ps :: p.key == k
    ensures forall k <- before :: Denoted(ps, before)[k] == before[k]
    decreases |ps|
  {
    if ps != [] {
      var next := before[ps[0].key := Meant(ps[0].value)];
      forall x | x in ps[1..]
        ensures x.key !in next
      {
        var i :| 1 <= i < |ps| && ps[i] == x;
        assert ps[i] in ps;
      }
      DenotedHolds(ps[1..], next);
      assert forall p :: p in ps <==> p == ps[0] || p in ps[1..];
    }
  }

  // ---- On texts ----

  lemma {:induction false} LexEndsOnce(s: Str)
    requires Lex(s).Ok?
    ensures EndsOnce(Lex(s).value)
    decreases |s|
  {
    hide First, EndsOnce;
    FirstIsNotEnd(s);
    if s == [] {
      assert EndsOnce([Eof]) by { OnlyEnd(); }
    } else if First(s).Skip? {
      LexEndsOnce(s[1..]);
    } else {
      var rest := s[First(s).len..];
      LexEndsOnce(rest);
      EndsOnceBehind(First(s).tok, Lex(rest).value);
    }
  }

  lemma OnlyEnd()
    ensures EndsOnce([Eof])
  {
  }

  lemma EndsOnceBehind(t: Tok, ts: seq<Tok>)
    requires EndsOnce(ts) && t != Eof
    ensures EndsOnce([t] + ts)
  {
  }

  lemma FirstIsNotEnd(s: Str)
    ensures s != [] && First(s).Token? ==> First(s).tok != Eof
  {
    hide StringBody, AlnumRun, DigitRun, Value, IsKeyword, Lower, Upper;
  }

  /**
   A text without an inherited name among its tokens parses to filters and a limit exactly when the tokens are a
   well-formed sentence denoting them.
   */
  lemma ParsesExactly(input: Str, f: Filters, n: nat)
    ensures ParsedText(input) == Ok((f, n)) && !NamesInherited(Tokens(input).value) <==>
            exists q :: WellFormed(q) && Tokens(input) == Ok(Sentence(q)) && Denoted(q.preds, map[]) == f
                && q.limit == n
  {
    if Tokens(input).Ok? {
      LexEndsOnce(Trim(input));
      hide EndsOnce, Sentence, Parsed, Denoted, Lex, Trim, WellFormed, NamesInherited;
      AcceptsExactly(Tokens(input).value, f, n);
    }
  }
}
