/** Exactly when parsing the printed text gives the filters and the limit back. */
module TraceqlRoundTrip {
  import opened Wrappers
  import opened TraceqlLexer
  import opened TraceqlParser
  import opened TraceqlGrammar
  import opened TraceqlPrinter

  // ---- The tokens of the printed text ----

  /** The predicates the printed text spells, with each value as the tokenizer reads it. */
  function PrintedPreds(f: Filters, keys: seq<FilterKey>): (ps: seq<Pred>)
    requires forall k <- keys :: k in f
    ensures |ps| == |keys|
  {
    seq(|keys|, i requires 0 <= i < |keys| => Pred(keys[i], Text(Mangled(f[keys[i]]))))
  }

  lemma LexEqualsValue(v: Str, rest: Str)
    ensures Lex([EQUALS] + ([SPACE] + (JsonString(v) + rest))) == Prepend([Eq, Quoted(Mangled(v))], Lex(rest))
  {
    hide JsonString, Mangled, Lex;
    LexEquals([SPACE] + (JsonString(v) + rest));
    LexSpace(JsonString(v) + rest);
    LexString(v, rest);
    PrependTwice([Eq], [Quoted(Mangled(v))], Lex(rest));
    assert [Eq] + [Quoted(Mangled(v))] == [Eq, Quoted(Mangled(v))];
  }

  lemma LexPred(k: FilterKey, v: Str, rest: Str)
    ensures Lex(PredText(k, v) + rest) == Prepend(PredToks(Pred(k, Text(Mangled(v)))), Lex(rest))
  {
    hide Spelling, JsonString, WordTok, Mangled, IsWord, Lex;
    var behind := [EQUALS] + ([SPACE] + (JsonString(v) + rest));
    assert PredText(k, v) + rest == Spelling(k) + ([SPACE] + behind);
    SpellingWord(k);
    LexWordSpace(Spelling(k), behind);
    LexEqualsValue(v, rest);
    PrependTwice([Ident(Spelling(k))], [Eq, Quoted(Mangled(v))], Lex(rest));
    assert [Ident(Spelling(k))] + [Eq, Quoted(Mangled(v))] == PredToks(Pred(k, Text(Mangled(v))));
  }

  lemma {:induction false} LexJoined(f: Filters, keys: seq<FilterKey>, rest: Str)
    requires keys != [] && forall k <- keys :: k in f
    ensures Lex(Joined(PredTexts(f, keys)) + rest) == Prepend(PredsToks(PrintedPreds(f, keys)), Lex(rest))
    decreases |keys|
  {
    hide PredText, Mangled, Lex, AND, PredToks;
    var k, p := keys[0], Pred(keys[0], Text(Mangled(f[keys[0]])));
    assert PredTexts(f, keys)[1..] == PredTexts(f, keys[1..]);
    assert PrintedPreds(f, keys)[1..] == PrintedPreds(f, keys[1..]);
    if |keys| == 1 {
      LexPred(k, f[k], rest);
    } else {
      var more := Joined(PredTexts(f, keys[1..])) + rest;
      LexJoined(f, keys[1..], rest);
      assert Joined(PredTexts(f, keys)) + rest == PredText(k, f[k]) + (SPACED_AND + more);
      LexPred(k, f[k], SPACED_AND + more);
      LexAnd(more);
      PrependTwice([Kw(AND)], PredsToks(PrintedPreds(f, keys[1..])), Lex(rest));
      PrependTwice(PredToks(p), [Kw(AND)] + PredsToks(PrintedPreds(f, keys[1..])), Lex(rest));
      Regroup(PredToks(p), [Kw(AND)], PredsToks(PrintedPreds(f, keys[1..])));
    }
  }

  lemma LexAnd(rest: Str)
    ensures Lex(SPACED_AND + rest) == Prepend([Kw(AND)], Lex(rest))
  {
    KeywordWords();
    assert SPACED_AND == [SPACE] + AND + [SPACE];
    hide Lex, IsWord, WordTok;
    LexSpaced(AND, rest);
  }

  lemma LexWhere(rest: Str)
    ensures Lex(SPACED_WHERE + rest) == Prepend([Kw(WHERE)], Lex(rest))
  {
    KeywordWords();
    assert SPACED_WHERE == [SPACE] + WHERE + [SPACE];
    hide Lex, IsWord, WordTok;
    LexSpaced(WHERE, rest);
  }

  predicate SafeLimit(n: int) { 0 <= n <= MAX_SAFE_INTEGER }

  lemma LexLimit(n: int)
    ensures Lex(SPACED_LIMIT + LimitText(n)) == if SafeLimit(n) then Ok(LimitToks(n)) else Err(LimitComplaint(n))
  {
    KeywordWords();
    assert SPACED_LIMIT == [SPACE] + LIMIT + [SPACE];
    hide Lex, IsWord, WordTok, LimitText, LimitComplaint;
    LexSpaced(LIMIT, LimitText(n));
    LexLimitText(n);
    if SafeLimit(n) {
      assert [Kw(LIMIT)] + [Number(n), Eof] == LimitToks(n);
    }
  }

  lemma LexFromEvents(rest: Str)
    requires EndsWord(rest)
    ensures Lex(FROM_EVENTS + rest) == Prepend([Kw(FROM), Kw(EVENTS)], Lex(rest))
  {
    KeywordWords();
    hide Lex, WordTok;
    var events := EVENTS_LOWER + rest;
    assert FROM_EVENTS + rest == FROM + ([SPACE] + events);
    LexWordSpace(FROM, events);
    LexWord(EVENTS_LOWER, rest);
    PrependTwice([Kw(FROM)], [Kw(EVENTS)], Lex(rest));
    assert [Kw(FROM)] + [Kw(EVENTS)] == [Kw(FROM), Kw(EVENTS)];
  }

  function WhereText(f: Filters): Str {
    PrintedIn(f, KEYS);
    if PrintedKeys(f, KEYS) == [] then [] else SPACED_WHERE + Joined(PredTexts(f, PrintedKeys(f, KEYS)))
  }

  function PrintedQuery(f: Filters, n: nat): Query {
    PrintedIn(f, KEYS);
    Query(PrintedPreds(f, PrintedKeys(f, KEYS)), Omitted, n)
  }

  /** The tokens of the predicates, in front of any tail that starts with a space. */
  lemma LexBehindSource(f: Filters, tail: Str)
    ensures forall k <- PrintedKeys(f, KEYS) :: k in f
    ensures Lex(WhereText(f) + tail) == Prepend(WhereToks(PrintedPreds(f, PrintedKeys(f, KEYS))), Lex(tail))
  {
    PrintedIn(f, KEYS);
    var keys := PrintedKeys(f, KEYS);
    hide Lex, KEYS, PrintedKeys, Joined, PredsToks, PredText, WHERE;
    var ps := PrintedPreds(f, keys);
    if keys == [] {
      assert WhereText(f) + tail == tail;
      PrependNothing(Lex(tail));
    } else {
      LexWhere(Joined(PredTexts(f, keys)) + tail);
      assert WhereText(f) + tail == SPACED_WHERE + (Joined(PredTexts(f, keys)) + tail);
      LexJoined(f, keys, tail);
      PrependTwice([Kw(WHERE)], PredsToks(ps), Lex(tail));
    }
  }

  lemma PrependNothing(r: Result<seq<Tok>>)
    ensures Prepend([], r) == r
  {
    assert r.Ok? ==> [] + r.value == r.value;
  }

  /** The printed text is the sentence of its predicates, or has a limit the tokenizer refuses. */
  lemma LexFormatted(f: Filters, n: int)
    ensures Lex(Formatted(f, n)) == if SafeLimit(n) then Ok(Sentence(PrintedQuery(f, n))) else Err(LimitComplaint(n))
  {
    PrintedIn(f, KEYS);
    var tail := SPACED_LIMIT + LimitText(n);
    hide Lex, KEYS, PrintedKeys, Joined, LimitText, LimitToks, LimitComplaint, PredText, FROM, EVENTS, FROM_EVENTS,
         WhereToks;
    assert Formatted(f, n) == FROM_EVENTS + (WhereText(f) + tail);
    assert EndsWord(WhereText(f) + tail);
    LexFromEvents(WhereText(f) + tail);
    LexBehindSource(f, tail);
    LexLimit(n);
    if SafeLimit(n) {
      assert [] + LimitToks(n) == LimitToks(n);
    }
  }

  // ---- The text's length and units ----

  lemma {:induction false} EscapedUnits(v: Str)
    ensures forall c <- Escaped(v) :: c >= 0x20
    ensures SEMICOLON in Escaped(v) <==> SEMICOLON in v
    decreases |v|
  {
    if v != [] {
      var n := FrontLen(v);
      EscapedUnits(v[n..]);
      EscapeUnits(v);
      hide EscapeOf, FrontLen;
      assert v == v[..n] + v[n..];
    }
  }

  lemma EscapeUnits(v: Str)
    requires v != []
    ensures var e, front := EscapeOf(v), v[..FrontLen(v)];
            if e == [] then forall c <- front :: c >= 0x20
            else SEMICOLON !in e && SEMICOLON !in front && forall c <- e :: c >= 0x20
  {
  }

  lemma {:induction false} EscapedLength(v: Str)
    requires Clean(v)
    ensures |Escaped(v)| <= 2 * |v|
    decreases |v|
  {
    if v != [] {
      CleanFront(v);
      assert |EscapeOf(v)| <= 1;
      hide Clean, EscapeOf;
      EscapedLength(v[FrontLen(v)..]);
    }
  }

  lemma {:induction false} JoinedUnits(texts: seq<Str>, c: unit)
    requires c == 0 || c == SEMICOLON
    ensures c in Joined(texts) <==> exists t <- texts :: c in t
    decreases |texts|
  {
    if |texts| > 1 {
      JoinedUnits(texts[1..], c);
      assert texts == [texts[0]] + texts[1..];
    } else if |texts| == 1 {
      assert texts[0] in texts;
    }
  }

  lemma {:induction false} JoinedLength(texts: seq<Str>)
    requires forall t <- texts :: |t| <= 528
    ensures |Joined(texts)| <= 533 * |texts|
    decreases |texts|
  {
    if texts != [] {
      assert texts[0] in texts;
      if |texts| > 1 {
        JoinedLength(texts[1..]);
      }
    }
  }

  lemma PredUnits(k: FilterKey, v: Str)
    ensures 0 !in PredText(k, v) && (SEMICOLON in PredText(k, v) <==> SEMICOLON in v)
  {
    EscapedUnits(v);
    SpellingUnits(k);
    hide Escaped, Spelling;
    var text := JsonString(v);
    assert SEMICOLON in text <==> SEMICOLON in Escaped(v);
    assert 0 !in text;
    hide JsonString;
    assert PredText(k, v) == Spelling(k) + SPACED_EQUALS + text;
  }

  lemma SpellingUnits(k: FilterKey)
    ensures 0 !in Spelling(k) && SEMICOLON !in Spelling(k)
  {
  }

  lemma JoinedPredUnits(f: Filters, keys: seq<FilterKey>)
    requires forall k <- keys :: k in f
    ensures 0 !in Joined(PredTexts(f, keys))
    ensures SEMICOLON in Joined(PredTexts(f, keys)) <==> exists k <- keys :: k in f && SEMICOLON in f[k]
  {
    var texts := PredTexts(f, keys);
    forall i | 0 <= i < |keys|
      ensures 0 !in texts[i] && (SEMICOLON in texts[i] <==> SEMICOLON in f[keys[i]])
    {
      PredUnits(keys[i], f[keys[i]]);
    }
    JoinedUnits(texts, 0);
    JoinedUnits(texts, SEMICOLON);
    hide PredTexts, Joined;
    if k :| k in keys && SEMICOLON in f[k] {
      var i :| 0 <= i < |keys| && keys[i] == k;
      assert texts[i] in texts;
    }
  }

  lemma InFour(a: Str, b: Str, c: Str, d: Str, x: unit)
    ensures x in a + b + c + d <==> x in a || x in b || x in c || x in d
  {
  }

  lemma WordUnits(x: unit)
    requires x == 0 || x == SEMICOLON
    ensures x !in FROM_EVENTS && x !in SPACED_WHERE && x !in SPACED_LIMIT
  {
  }

  lemma TextUnits(f: Filters, n: int)
    ensures 0 !in Formatted(f, n)
    ensures SEMICOLON in Formatted(f, n) <==> exists k <- PrintedKeys(f, KEYS) :: k in f && SEMICOLON in f[k]
  {
    PrintedIn(f, KEYS);
    JoinedPredUnits(f, PrintedKeys(f, KEYS));
    LimitUnits(n);
    var joined, d := Joined(PredTexts(f, PrintedKeys(f, KEYS))), LimitText(n);
    assert PredTexts(f, PrintedKeys(f, KEYS)) == [] ==> joined == [];
    var where := if PredTexts(f, PrintedKeys(f, KEYS)) == [] then [] else SPACED_WHERE + joined;
    assert Formatted(f, n) == FROM_EVENTS + where + SPACED_LIMIT + d;
    forall x: unit | x == 0 || x == SEMICOLON
      ensures x in Formatted(f, n) <==> x in joined
    {
      WordUnits(x);
      InFour(FROM_EVENTS, where, SPACED_LIMIT, d, x);
      InFour(SPACED_WHERE, joined, [], [], x);
      assert SPACED_WHERE + joined + [] + [] == SPACED_WHERE + joined;
      hide *;
    }
    hide *;
  }

  lemma LimitUnits(n: int)
    ensures 0 !in LimitText(n) && SEMICOLON !in LimitText(n)
  {
    hide Decimal;
    assert 0 !in Decimal(if n < 0 then -n else n) && SEMICOLON !in Decimal(if n < 0 then -n else n);
  }

  /** The text begins with a letter and ends with a digit, so trimming leaves it alone. */
  lemma TrimText(f: Filters, n: int)
    ensures Formatted(f, n) != [] && Trim(Formatted(f, n)) == Formatted(f, n)
  {
    PrintedIn(f, KEYS);
    LimitEnds(n);
    hide PredText, Joined, LimitText, KEYS, PrintedKeys;
    var s := Formatted(f, n);
    assert s[0] == 70;
    var d := LimitText(n);
    assert s[|s| - 1] == d[|d| - 1];
  }

  lemma LimitEnds(n: int)
    ensures IsDigit(LimitText(n)[|LimitText(n)| - 1])
  {
    var d := Decimal(if n < 0 then -n else n);
    assert d[|d| - 1] in d && LimitText(n)[|LimitText(n)| - 1] == d[|d| - 1];
  }

  lemma {:induction false} PrintedAtMost(f: Filters, keys: seq<FilterKey>)
    ensures |PrintedKeys(f, keys)| <= |keys|
    decreases |keys|
  {
    if keys != [] {
      PrintedAtMost(f, keys[1..]);
    }
  }

  /** A limit in range has at most three digits. */
  lemma DecimalShort(n: nat)
    requires n <= EVENTS_PAGE_MAX
    ensures |Decimal(n)| <= 3
  {
    assert n / 10 < 100 && n / 10 / 10 < 10;
    assert |Decimal(n / 10 / 10)| == 1;
    assert |Decimal(n / 10)| <= 2;
  }

  lemma TextLength(f: Filters, n: nat)
    requires n <= EVENTS_PAGE_MAX
    requires forall k <- f :: Clean(f[k]) && |f[k]| <= FILTER_MAX_CHARS
    ensures |Formatted(f, n)| <= QUERY_TEXT_MAX_CHARS
  {
    PrintedIn(f, KEYS);
    PrintedAtMost(f, KEYS);
    DecimalShort(n);
    var keys := PrintedKeys(f, KEYS);
    var texts := PredTexts(f, keys);
    forall i | 0 <= i < |keys|
      ensures |texts[i]| <= 528
    {
      PredLength(keys[i], f[keys[i]]);
    }
    JoinedLength(texts);
    assert |keys| <= 5;
    hide PredText, Joined, Decimal, KEYS, PrintedKeys, Clean;
    assert |LimitText(n)| <= 3;
  }

  lemma PredLength(k: FilterKey, v: Str)
    requires Clean(v) && |v| <= FILTER_MAX_CHARS
    ensures |PredText(k, v)| <= 528
  {
    EscapedLength(v);
    SpellingWord(k);
    hide Escaped, Spelling, Clean, IsWord, WordTok;
  }

  // ---- What an accepted list of quoted predicates tells ----

  lemma OnePredForced(p: Pred, rest: seq<Tok>)
    requires p.value.Text?
    ensures OnePred(PredToks(p) + rest).Ok? <==> GoodPred(p)
    ensures GoodPred(p) ==> OnePred(PredToks(p) + rest) == Ok((p.key, Meant(p.value)))
    ensures Tail(Tail(Tail(PredToks(p) + rest))) == rest
  {
    hide Spelling, KeyOf, IsSeverity;
    SpellingsAreFields(p.key);
    var ts := PredToks(p) + rest;
    assert ts[1..][1..] == ts[2..] && ts[2..][1..] == ts[3..] && ts[3..] == rest;
  }

  lemma LastForced(p: Pred, rest: seq<Tok>, before: Filters)
    requires p.value.Text? && Head(rest) != Kw(AND) && Preds(PredToks(p) + rest, before).Ok?
    ensures GoodPred(p) && Preds(PredToks(p) + rest, before) == Ok((before[p.key := Meant(p.value)], rest))
  {
    OnePredForced(p, rest);
    hide OnePred, GoodPred, AND, PredToks, Head, Tail;
  }

  lemma NextForced(p: Pred, tail: seq<Tok>, before: Filters)
    requires p.value.Text? && Preds(PredToks(p) + ([Kw(AND)] + tail), before).Ok?
    ensures GoodPred(p)
    ensures Preds(PredToks(p) + ([Kw(AND)] + tail), before) == Preds(tail, before[p.key := Meant(p.value)])
  {
    OnePredForced(p, [Kw(AND)] + tail);
    assert Tail([Kw(AND)] + tail) == tail && Head([Kw(AND)] + tail) == Kw(AND);
    hide OnePred, GoodPred, AND, PredToks, Head, Tail;
  }

  lemma {:induction false} PredsForced(ps: seq<Pred>, rest: seq<Tok>, before: Filters)
    requires ps != [] && (forall i | 0 <= i < |ps| :: ps[i].value.Text?) && Head(rest) != Kw(AND)
    requires Preds(PredsToks(ps) + rest, before).Ok?
    ensures forall p <- ps :: GoodPred(p)
    ensures Preds(PredsToks(ps) + rest, before) == Ok((Denoted(ps, before), rest))
    decreases |ps|
  {
    var p := ps[0];
    hide Preds, GoodPred, AND, PredToks, PredsToks, Head, Tail, Meant;
    PredsToksSplit(ps, rest);
    if |ps| == 1 {
      LastForced(p, rest, before);
      assert ps[1..] == [];
    } else {
      NextForced(p, PredsToks(ps[1..]) + rest, before);
      PredsForced(ps[1..], rest, before[p.key := Meant(p.value)]);
    }
    GoodFirst(ps);
  }

  lemma WhereForced(ps: seq<Pred>, n: nat)
    requires (forall p <- ps :: p.value.Text?) && BehindSource(WhereToks(ps) + LimitToks(n)).Ok?
    ensures (forall p <- ps :: GoodPred(p)) && 1 <= n <= EVENTS_PAGE_MAX
    ensures BehindSource(WhereToks(ps) + LimitToks(n)).value == (Denoted(ps, map[]), n)
  {
    KeywordsDiffer();
    var ts := WhereToks(ps) + LimitToks(n);
    LimitForced(n);
    hide WHERE, GROUP, ORDER, SELECT, LIMIT, AND, Preds, PredsToks, GoodPred, LimitPart;
    if ps == [] {
      assert ts == LimitToks(n);
    } else {
      assert Tail(ts) == PredsToks(ps) + LimitToks(n);
      PredsForced(ps, LimitToks(n), map[]);
      hide Denoted;
    }
  }

  lemma LimitForced(n: nat)
    ensures LimitPart(LimitToks(n)).Ok? <==> 1 <= n <= EVENTS_PAGE_MAX
    ensures LimitPart(LimitToks(n)).Ok? ==> LimitPart(LimitToks(n)).value == n
  {
  }

  /** Without SELECT, an accepted sentence of quoted predicates has good ones, and means them. */
  lemma SentenceForced(ps: seq<Pred>, n: nat)
    requires (forall p <- ps :: p.value.Text?) && Parsed(Sentence(Query(ps, Omitted, n))).Ok?
    ensures (forall p <- ps :: GoodPred(p)) && 1 <= n <= EVENTS_PAGE_MAX
    ensures Parsed(Sentence(Query(ps, Omitted, n))).value == (Denoted(ps, map[]), n)
  {
    var ts := WhereToks(ps) + LimitToks(n);
    assert [] + LimitToks(n) == LimitToks(n);
    assert Tail(Tail(Sentence(Query(ps, Omitted, n)))) == ts;
    hide FROM, EVENTS, GRAPH, BehindSource, WhereToks, LimitToks, Denoted, GoodPred, Head, Tail, Sentence;
    WhereForced(ps, n);
  }

  // ---- The round trip ----

  /** Every key is a filter's; every value is present, at most 256 units, clean, without `;`, and a severity's name. */
  predicate Printable(f: Filters) {
    forall k <- f :: PrintableValue(k, f[k])
  }

  predicate PrintableValue(k: FilterKey, v: Str) {
    && !Inherited(k)
    && 1 <= |v| <= FILTER_MAX_CHARS
    && Clean(v)
    && SEMICOLON !in v
    && (k == Severity ==> IsSeverity(v))
  }

  /** The printed keys are the filters with a value, each once. */
  lemma PrintedExactly(f: Filters)
    ensures forall k :: k in PrintedKeys(f, KEYS) <==> !Inherited(k) && k in f && f[k] != []
    ensures forall i, j | 0 <= i < j < |PrintedKeys(f, KEYS)| :: PrintedKeys(f, KEYS)[i] != PrintedKeys(f, KEYS)[j]
  {
    PrintedOnce(f, KEYS);
    forall k: FilterKey
      ensures k in KEYS <==> !Inherited(k)
    {
      var at := if k.Domain? then 0 else if k.Category? then 1 else if k.EventName? then 2
                else if k.Severity? then 3 else 4;
      assert !Inherited(k) ==> KEYS[at] == k;
    }
  }

  lemma {:induction false} PrintedOnce(f: Filters, keys: seq<FilterKey>)
    requires forall i, j | 0 <= i < j < |keys| :: keys[i] != keys[j]
    ensures forall k :: k in PrintedKeys(f, keys) <==> k in keys && k in f && f[k] != []
    ensures forall i, j | 0 <= i < j < |PrintedKeys(f, keys)| :: PrintedKeys(f, keys)[i] != PrintedKeys(f, keys)[j]
    decreases |keys|
  {
    if keys != [] {
      PrintedOnce(f, keys[1..]);
      assert keys == [keys[0]] + keys[1..];
      var more := PrintedKeys(f, keys[1..]);
      forall j | 0 <= j < |more|
        ensures more[j] != keys[0]
      {
        assert more[j] in more;
      }
    }
  }

  /** What the predicates of the printed text denote. */
  lemma PrintedDenotes(f: Filters)
    ensures (forall k <- PrintedKeys(f, KEYS) :: k in f) && Distinct(PrintedPreds(f, PrintedKeys(f, KEYS)))
    ensures var d := Denoted(PrintedPreds(f, PrintedKeys(f, KEYS)), map[]);
            && (forall k :: k in d <==> !Inherited(k) && k in f && f[k] != [])
            && (forall k <- d :: d[k] == Mangled(f[k]))
  {
    PrintedExactly(f);
    hide PrintedKeys, KEYS, Mangled, Denoted;
    var keys := PrintedKeys(f, KEYS);
    var ps := PrintedPreds(f, keys);
    assert Distinct(ps);
    DenotedHolds(ps, map[]);
    var d := Denoted(ps, map[]);
    forall k
      ensures k in d <==> k in keys
      ensures k in keys ==> d[k] == Mangled(f[k])
    {
      if k in keys {
        var i :| 0 <= i < |keys| && keys[i] == k;
        assert ps[i] in ps;
      }
    }
  }

  /** The printed text is refused before lexing exactly for its length or a `;`, and then for its limit. */
  lemma TokensOfText(f: Filters, n: int)
    ensures Tokens(Formatted(f, n)) ==
            if |Formatted(f, n)| > QUERY_TEXT_MAX_CHARS then Err(QueryTooLong)
            else if SEMICOLON in Formatted(f, n) then Err(SeveralStatements)
            else if SafeLimit(n) then Ok(Sentence(PrintedQuery(f, n)))
            else Err(LimitComplaint(n))
  {
    TrimText(f, n);
    TextUnits(f, n);
    LexFormatted(f, n);
    hide Formatted, Trim, Lex, Sentence, PrintedQuery, PrintedKeys, KEYS, LimitComplaint;
  }

  lemma PrintableTokens(f: Filters, n: nat)
    requires Printable(f) && 1 <= n <= EVENTS_PAGE_MAX
    ensures Tokens(Formatted(f, n)) == Ok(Sentence(PrintedQuery(f, n)))
  {
    TokensOfText(f, n);
    PrintedExactly(f);
    TextUnits(f, n);
    hide Clean, Formatted, IsSeverity;
    TextLength(f, n);
    hide *;
  }

  /** A value is printable exactly when its predicate is good and reads back unchanged. */
  lemma PrintableIff(k: FilterKey, v: Str)
    ensures PrintableValue(k, v) <==>
            !Inherited(k) && v != [] && SEMICOLON !in v && Mangled(v) == v && GoodPred(Pred(k, Text(Mangled(v))))
  {
    MangledSameIff(v);
    hide Mangled, Clean, IsSeverity;
  }

  lemma PrintableGood(f: Filters)
    requires Printable(f)
    ensures forall k <- PrintedKeys(f, KEYS) :: k in f
    ensures var ps := PrintedPreds(f, PrintedKeys(f, KEYS));
            Distinct(ps) && (forall p <- ps :: GoodPred(p)) && Denoted(ps, map[]) == f
  {
    PrintedExactly(f);
    PrintedDenotes(f);
    var keys := PrintedKeys(f, KEYS);
    hide Denoted, KEYS, PrintedKeys, Mangled, PrintableValue, GoodPred, Distinct;
    forall k <- f
      ensures !Inherited(k) && Mangled(f[k]) == f[k] && f[k] != [] && GoodPred(Pred(k, Text(Mangled(f[k]))))
    {
      PrintableIff(k, f[k]);
    }
    forall i | 0 <= i < |keys|
      ensures GoodPred(PrintedPreds(f, keys)[i])
    {
      assert keys[i] in keys;
    }
  }

  lemma PrintableReads(f: Filters, n: nat)
    requires Printable(f) && 1 <= n <= EVENTS_PAGE_MAX
    ensures ParsedText(Formatted(f, n)) == Ok((f, n))
  {
    PrintableTokens(f, n);
    PrintableGood(f);
    var q := PrintedQuery(f, n);
    hide Formatted, Denoted, Sentence, Parsed, GoodPred, Distinct, PrintedPreds, PrintedKeys, KEYS, Tokens, Printable;
    assert Tolerated(q);
    Complete(q);
  }

  /** A printed text that parses holds no `;` and parses as its predicates do. */
  lemma ReadsPreds(f: Filters, n: int)
    requires ParsedText(Formatted(f, n)).Ok?
    ensures SafeLimit(n)
    ensures forall k <- f :: !Inherited(k) && f[k] != [] ==> SEMICOLON !in f[k]
    ensures var q := PrintedQuery(f, n);
            (forall p <- q.preds :: GoodPred(p)) && 1 <= n <= EVENTS_PAGE_MAX
            && ParsedText(Formatted(f, n)) == Ok((Denoted(q.preds, map[]), n))
  {
    TokensOfText(f, n);
    PrintedExactly(f);
    TextUnits(f, n);
    hide Formatted, Denoted, Sentence, Parsed, KEYS, PrintedKeys, Tokens, Mangled, GoodPred;
    SentenceForced(PrintedQuery(f, n).preds, n);
  }

  lemma ReadsPrintable(f: Filters, n: int)
    requires n >= 0 && ParsedText(Formatted(f, n)) == Ok((f, n))
    ensures Printable(f) && 1 <= n <= EVENTS_PAGE_MAX
  {
    ReadsPreds(f, n);
    PrintedExactly(f);
    PrintedDenotes(f);
    var keys := PrintedKeys(f, KEYS);
    hide Formatted, ParsedText, Denoted, KEYS, PrintedKeys, Mangled, Distinct, PrintableValue, GoodPred;
    forall k <- f
      ensures PrintableValue(k, f[k])
    {
      PrintableIff(k, f[k]);
      var i :| 0 <= i < |keys| && keys[i] == k;
      assert PrintedPreds(f, keys)[i] in PrintedPreds(f, keys);
    }
  }

  /** Parsing a text gives these filters and this limit. */
  predicate Parses(text: Str, f: Filters, n: int) {
    var r := ParsedText(text);
    r.Ok? && r.value.0 == f && r.value.1 == n
  }

  /**
   Parsing the printed text gives exactly the filters and the limit that were printed, if and only if the filters are
   printable and the limit is in range.
   */
  lemma RoundTripIff(f: Filters, n: int)
    ensures Parses(Formatted(f, n), f, n) <==> Printable(f) && 1 <= n <= EVENTS_PAGE_MAX
  {
    hide Formatted, ParsedText, Printable;
    if Parses(Formatted(f, n), f, n) {
      ReadsPrintable(f, n);
    } else if Printable(f) && 1 <= n <= EVENTS_PAGE_MAX {
      PrintableReads(f, n);
    }
  }

  /** A tab does not survive the round trip, and a value with `;` cannot be read at all. */
  lemma RoundTripFails(n: nat)
    requires 1 <= n <= EVENTS_PAGE_MAX
    ensures !Parses(Formatted(map[Domain := [9]], n), map[Domain := [9]], n)
    ensures ParsedText(Formatted(map[Domain := [SEMICOLON]], n)) == Err(SeveralStatements)
  {
    var f := map[Domain := [9]];
    assert !CleanAt(f[Domain], 0) && !PrintableValue(Domain, f[Domain]);
    RoundTripIff(f, n);
    SemicolonRefused(n);
  }

  lemma SemicolonRefused(n: nat)
    requires 1 <= n <= EVENTS_PAGE_MAX
    ensures ParsedText(Formatted(map[Domain := [SEMICOLON]], n)) == Err(SeveralStatements)
  {
    var f := map[Domain := [SEMICOLON]];
    SemicolonClean();
    hide Formatted, PrintedKeys, KEYS, Clean, Sentence, PrintedQuery, Lex, LimitComplaint;
    PrintedExactly(f);
    TextUnits(f, n);
    TextLength(f, n);
    assert Domain in PrintedKeys(f, KEYS);
    TokensOfText(f, n);
    hide Tokens;
  }

  lemma SemicolonClean()
    ensures Clean([SEMICOLON])
  {
  }

  // ---- An inherited name as a field ----

  /** `FROM events WHERE constructor = "x" LIMIT 1` */
  function InheritedText(): Str {
    FROM_EVENTS + (SPACED_WHERE + (PredText(Constructor, [120]) + (SPACED_LIMIT + LimitText(1))))
  }

  /** The query it spells. */
  function InheritedQuery(): Query { Query([Pred(Constructor, Text([120]))], Omitted, 1) }

  /** Nothing is refused before lexing. */
  lemma InheritedGate()
    ensures Tokens(InheritedText()) == Lex(InheritedText())
  {
    var p, t := PredText(Constructor, [120]), LimitText(1);
    var s := InheritedText();
    PredLength(Constructor, [120]);
    LimitEnds(1);
    assert |t| == 1;
    PredUnits(Constructor, [120]);
    LimitUnits(1);
    hide PredText, LimitText, Lex, Clean, IsWord, WordTok, IsDigit;
    assert s == FROM_EVENTS + SPACED_WHERE + p + (SPACED_LIMIT + t);
    forall x: unit | x == 0 || x == SEMICOLON
      ensures x !in s
    {
      WordUnits(x);
      InFour(FROM_EVENTS, SPACED_WHERE, p, SPACED_LIMIT + t, x);
      InFour(SPACED_LIMIT, t, [], [], x);
      assert SPACED_LIMIT + t + [] + [] == SPACED_LIMIT + t;
      hide *;
    }
    assert s[0] == 70 && s[|s| - 1] == t[|t| - 1];
    TrimNothing(s);
    hide Trim, InheritedText;
  }

  lemma TrimNothing(s: Str)
    requires s != [] && s[0] == 70 && IsDigit(s[|s| - 1])
    ensures Trim(s) == s
  {
  }

  lemma SentenceOfOne(p: Pred, n: nat)
    ensures Sentence(Query([p], Omitted, n)) == [Kw(FROM), Kw(EVENTS)] + ([Kw(WHERE)] + (PredToks(p) + LimitToks(n)))
  {
    hide PredToks, LimitToks, FROM, EVENTS, WHERE;
    assert [] + LimitToks(n) == LimitToks(n);
    Regroup([Kw(WHERE)], PredToks(p), LimitToks(n));
  }

  lemma InheritedTokens()
    ensures Tokens(InheritedText()) == Ok(Sentence(InheritedQuery()))
  {
    var tail := SPACED_LIMIT + LimitText(1);
    var where := SPACED_WHERE + (PredText(Constructor, [120]) + tail);
    assert EndsWord(where);
    assert Mangled([120]) == [120] by { assert Mangled([]) == []; }
    hide Lex, Mangled, PredText, LimitText, Tokens, Sentence, PredToks, FROM_EVENTS, SPACED_WHERE, SPACED_LIMIT, FROM,
         EVENTS, WHERE, LimitToks;
    InheritedGate();
    LexLimit(1);
    LexPred(Constructor, [120], tail);
    LexWhere(PredText(Constructor, [120]) + tail);
    LexFromEvents(where);
    SentenceOfOne(Pred(Constructor, Text([120])), 1);
  }

  lemma InheritedQueryIs()
    ensures Tolerated(InheritedQuery()) && !WellFormed(InheritedQuery())
    ensures Denoted(InheritedQuery().preds, map[]) == map[Constructor := [120]]
  {
    var p := Pred(Constructor, Text([120]));
    assert InheritedQuery().preds == [p] && [p][1..] == [] && p in [p];
    assert GoodPred(p) && Inherited(p.key);
    hide GoodPred;
    var f: Filters := map[];
    assert Denoted([], f[Constructor := [120]]) == f[Constructor := [120]];
  }

  /**
   The predicate on `constructor` is taken, although it is no filter: the text parses, its tokens are no sentence of a
   well-formed query, and none of the five filters is set.
   */
  lemma InheritedAccepted()
    ensures ParsedText(InheritedText()) == Ok((map[Constructor := [120]], 1))
    ensures !exists q :: WellFormed(q) && Tokens(InheritedText()) == Ok(Sentence(q))
  {
    InheritedTokens();
    InheritedQueryIs();
    hide Tokens, InheritedText, Sentence, Parsed, Denoted, GoodPred, Distinct, NamesInherited;
    Complete(InheritedQuery());
    SentenceNames(InheritedQuery());
    forall q | WellFormed(q)
      ensures Tokens(InheritedText()) != Ok(Sentence(q))
    {
      WellFormedNames(q);
    }
  }

  lemma WellFormedNames(q: Query)
    requires WellFormed(q)
    ensures !NamesInherited(Sentence(q))
  {
    SentenceNames(q);
  }
}
