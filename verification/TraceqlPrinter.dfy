/** Printing filters and limit as TraceQL text, and exactly when parsing the text gives them back. */
module TraceqlPrinter {
  import opened Wrappers
  import opened TraceqlLexer
  import opened TraceqlParser
  import opened TraceqlGrammar

  // ---- JSON string escaping ----

  predicate IsHigh(c: unit) { 0xD800 <= c <= 0xDBFF }
  predicate IsLow(c: unit) { 0xDC00 <= c <= 0xDFFF }

  function HexDigit(n: nat): unit
    requires n < 16
  {
    if n < 10 then 0x30 + n else 0x61 + n - 10
  }

  /** `uXXXX` */
  function UnicodeEscape(c: unit): Str {
    [0x75, HexDigit(c / 0x1000), HexDigit(c / 0x100 % 16), HexDigit(c / 16 % 16), HexDigit(c % 16)]
  }

  /** How many units at the front are printed together: a surrogate pair, or one unit. */
  function FrontLen(v: Str): (n: nat)
    requires v != []
    ensures 1 <= n <= |v|
  {
    if IsHigh(v[0]) && |v| > 1 && IsLow(v[1]) then 2 else 1
  }

  /** What is printed behind a backslash for the front, or nothing if it is printed as it is. */
  function EscapeOf(v: Str): Str
    requires v != []
  {
    var c := v[0];
    if c == QUOTE || c == BACKSLASH then [c]
    else if c == 8 then [0x62]
    else if c == 9 then [0x74]
    else if c == 10 then [0x6E]
    else if c == 12 then [0x66]
    else if c == 13 then [0x72]
    else if c < 0x20 || IsLow(c) || (IsHigh(c) && FrontLen(v) == 1) then UnicodeEscape(c)
    else []
  }

  /** The text between the quotes of a JSON string. */
  function Escaped(v: Str): Str {
    if v == [] then [] else FrontEscaped(v) + Escaped(v[FrontLen(v)..])
  }

  /** The first code point as it is printed. */
  function FrontEscaped(v: Str): Str
    requires v != []
  {
    if EscapeOf(v) == [] then v[..FrontLen(v)] else [BACKSLASH] + EscapeOf(v)
  }

  function JsonString(v: Str): Str { [QUOTE] + Escaped(v) + [QUOTE] }

  // ---- The printer ----

  const MINUS: unit := 0x2D

  const KEYS: seq<FilterKey> := [Domain, Category, EventName, Severity, Correlation]

  const SPACED_EQUALS: Str := [SPACE, EQUALS, SPACE]
  const SPACED_AND: Str := [SPACE, 65, 78, 68, SPACE]
  const SPACED_WHERE: Str := [SPACE, 87, 72, 69, 82, 69, SPACE]
  const SPACED_LIMIT: Str := [SPACE, 76, 73, 77, 73, 84, SPACE]
  const FROM_EVENTS: Str := [70, 82, 79, 77, SPACE, 101, 118, 101, 110, 116, 115]

  /** The keys printed: those with a value that is not empty. */
  function PrintedKeys(f: Filters, keys: seq<FilterKey>): seq<FilterKey> {
    if keys == [] then []
    else (if keys[0] in f && f[keys[0]] != [] then [keys[0]] else []) + PrintedKeys(f, keys[1..])
  }

  function PredText(k: FilterKey, v: Str): Str { Spelling(k) + SPACED_EQUALS + JsonString(v) }

  function PredTexts(f: Filters, keys: seq<FilterKey>): seq<Str>
    requires forall k <- keys :: k in f
  {
    seq(|keys|, i requires 0 <= i < |keys| => PredText(keys[i], f[keys[i]]))
  }

  function Joined(texts: seq<Str>): Str {
    if texts == [] then [] else if |texts| == 1 then texts[0] else texts[0] + SPACED_AND + Joined(texts[1..])
  }

  /** Decimal digits of a number. */
  function Decimal(n: nat): (d: Str)
    ensures d != [] && forall c <- d :: IsDigit(c)
    ensures Value(d) == n
  {
    if n < 10 then [0x30 + n]
    else
      var d := Decimal(n / 10) + [0x30 + n % 10];
      assert d[..|d| - 1] == Decimal(n / 10);
      d
  }

  lemma PrintedIn(f: Filters, keys: seq<FilterKey>)
    ensures forall k <- PrintedKeys(f, keys) :: k in f && f[k] != [] && k in keys
  {
  }

  /** A whole number as JavaScript writes it. */
  function LimitText(n: int): (t: Str)
    ensures t != []
  {
    if n < 0 then [MINUS] + Decimal(-n) else Decimal(n)
  }

  function Formatted(f: Filters, limit: int): Str {
    PrintedIn(f, KEYS);
    var texts := PredTexts(f, PrintedKeys(f, KEYS));
    FROM_EVENTS + (if texts == [] then [] else SPACED_WHERE + Joined(texts)) + SPACED_LIMIT + LimitText(limit)
  }

  /** One key more is printed, or passed over. */
  lemma PrintedNext(f: Filters, i: nat, printed: seq<FilterKey>)
    requires i < |KEYS|
    ensures var k := KEYS[i];
            printed + PrintedKeys(f, KEYS[i..])
            == (if k in f && f[k] != [] then printed + [k] else printed) + PrintedKeys(f, KEYS[i + 1..])
  {
    var keys, k := KEYS[i..], KEYS[i];
    assert keys[1..] == KEYS[i + 1..];
    hide KEYS;
    assert printed + ([k] + PrintedKeys(f, keys[1..])) == printed + [k] + PrintedKeys(f, keys[1..]);
  }

  method Format(f: Filters, limit: int) returns (text: Str)
    ensures text == Formatted(f, limit)
  {
    hide PredText, Joined, LimitText, PrintedKeys;
    var preds: seq<Str> := [];
    PrintedIn(f, KEYS);
    ghost var printed: seq<FilterKey> := [];
    for i := 0 to |KEYS|
      invariant printed + PrintedKeys(f, KEYS[i..]) == PrintedKeys(f, KEYS)
      invariant |preds| == |printed|
      invariant forall j | 0 <= j < |preds| :: printed[j] in f && preds[j] == PredText(printed[j], f[printed[j]])
    {
      var k := KEYS[i];
      PrintedNext(f, i, printed);
      if k in f && f[k] != [] {
        preds := preds + [PredText(k, f[k])];
        printed := printed + [k];
      }
    }
    assert printed == PrintedKeys(f, KEYS) by {
      NothingPrinted(f);
      assert KEYS[|KEYS|..] == [];
    }
    assert preds == PredTexts(f, PrintedKeys(f, KEYS));
    var whereText := if |preds| > 0 then SPACED_WHERE + Joined(preds) else [];
    text := FROM_EVENTS + whereText + SPACED_LIMIT + LimitText(limit);
  }

  lemma NothingPrinted(f: Filters)
    ensures PrintedKeys(f, []) == []
  {
  }

  // ---- What the tokenizer reads of a printed string ----

  /** The value with every backslash dropped, which is all the tokenizer undoes. */
  function Mangled(v: Str): Str {
    if v == [] then [] else FrontMangled(v) + Mangled(v[FrontLen(v)..])
  }

  function FrontMangled(v: Str): Str
    requires v != []
  {
    if EscapeOf(v) == [] then v[..FrontLen(v)] else EscapeOf(v)
  }

  /** No control character, and every surrogate is one half of a pair. */
  predicate Clean(v: Str) {
    forall i | 0 <= i < |v| :: CleanAt(v, i)
  }

  predicate CleanAt(v: Str, i: nat)
    requires i < |v|
  {
    && v[i] >= 0x20
    && (IsHigh(v[i]) ==> i + 1 < |v| && IsLow(v[i + 1]))
    && (IsLow(v[i]) ==> i > 0 && IsHigh(v[i - 1]))
  }

  lemma {:induction false} BodyOfPlain(p: Str, rest: Str)
    requires QUOTE !in p && BACKSLASH !in p
    ensures StringBody(p + rest, QUOTE) == Continued(p, |p|, StringBody(rest, QUOTE))
    decreases |p|
  {
    if p == [] {
      assert p + rest == rest;
      ContinuedNothing(StringBody(rest, QUOTE));
    } else {
      assert (p + rest)[1..] == p[1..] + rest;
      assert p[0] in p;
      BodyOfPlain(p[1..], rest);
      ContinuedTwice([p[0]], 1, p[1..], |p| - 1, StringBody(rest, QUOTE));
      assert p == [p[0]] + p[1..];
    }
  }

  lemma EscapePlain(v: Str)
    requires v != []
    ensures var e := EscapeOf(v);
            if e == [] then QUOTE !in v[..FrontLen(v)] && BACKSLASH !in v[..FrontLen(v)]
            else QUOTE !in e[1..] && BACKSLASH !in e[1..]
  {
  }

  lemma BodyOfEscape(e: Str, rest: Str)
    requires e != [] && QUOTE !in e[1..] && BACKSLASH !in e[1..]
    ensures StringBody([BACKSLASH] + e + rest, QUOTE) == Continued(e, 1 + |e|, StringBody(rest, QUOTE))
  {
    var s := [BACKSLASH] + e + rest;
    assert s[2..] == e[1..] + rest;
    BodyOfPlain(e[1..], rest);
    ContinuedTwice([e[0]], 2, e[1..], |e| - 1, StringBody(rest, QUOTE));
    assert e == [e[0]] + e[1..];
  }

  /** What the tokenizer reads of a printed front. */
  lemma BodyOfFront(v: Str, more: Str)
    requires v != []
    ensures StringBody(FrontEscaped(v) + more, QUOTE)
            == Continued(FrontMangled(v), |FrontEscaped(v)|, StringBody(more, QUOTE))
  {
    EscapePlain(v);
    hide EscapeOf, FrontLen, StringBody, Continued;
    if EscapeOf(v) == [] {
      BodyOfPlain(v[..FrontLen(v)], more);
    } else {
      BodyOfEscape(EscapeOf(v), more);
    }
  }

  lemma BodyOfEnd(rest: Str)
    ensures StringBody([] + ([QUOTE] + rest), QUOTE) == Ok(([], 1))
  {
    assert [] + ([QUOTE] + rest) == [QUOTE] + rest;
  }

  lemma Reassociated(a: Str, b: Str, c: Str)
    ensures a + b + c == a + (b + c)
  {
  }

  /** A printed string reads as its mangled value. */
  lemma {:induction false} BodyOfEscaped(v: Str, rest: Str)
    ensures StringBody(Escaped(v) + ([QUOTE] + rest), QUOTE) == Ok((Mangled(v), |Escaped(v)| + 1))
    decreases |v|
  {
    hide EscapeOf, FrontLen, FrontEscaped, FrontMangled, StringBody;
    if v == [] {
      BodyOfEnd(rest);
    } else {
      var tail, end := v[FrontLen(v)..], [QUOTE] + rest;
      BodyOfEscaped(tail, rest);
      Reassociated(FrontEscaped(v), Escaped(tail), end);
      BodyOfFront(v, Escaped(tail) + end);
    }
  }

  /** The front survives printing and reading unless it is a control character or a lone surrogate. */
  predicate FrontSurvives(v: Str)
    requires v != []
  {
    v[0] >= 0x20 && !IsLow(v[0]) && (IsHigh(v[0]) ==> FrontLen(v) == 2)
  }

  lemma FrontSurvivesIff(v: Str)
    requires v != []
    ensures var e := EscapeOf(v);
            if FrontSurvives(v) then e == [] || e == v[..FrontLen(v)] else e != [] && e[0] != v[0]
  {
  }

  /** Behind the front, being clean at a position does not depend on the front. */
  lemma CleanBehind(v: Str, i: nat)
    requires v != [] && FrontSurvives(v) && FrontLen(v) <= i < |v|
    ensures CleanAt(v, i) <==> CleanAt(v[FrontLen(v)..], i - FrontLen(v))
  {
    var n := FrontLen(v);
    var w := v[n..];
    assert w[i - n] == v[i];
    assert i + 1 < |v| ==> w[i + 1 - n] == v[i + 1];
    assert i > n ==> w[i - 1 - n] == v[i - 1];
  }

  lemma CleanFront(v: Str)
    requires v != []
    ensures Clean(v) <==> FrontSurvives(v) && Clean(v[FrontLen(v)..])
  {
    var n := FrontLen(v);
    assert FrontSurvives(v) ==> forall i | 0 <= i < n :: CleanAt(v, i);
    assert CleanAt(v, 0) ==> FrontSurvives(v);
    if FrontSurvives(v) {
      forall i: nat | n <= i < |v|
        ensures CleanAt(v, i) <==> CleanAt(v[n..], i - n)
      {
        CleanBehind(v, i);
      }
      forall j: nat | j < |v[n..]|
        ensures CleanAt(v[n..], j) <==> CleanAt(v, n + j)
      {
        CleanBehind(v, n + j);
      }
      hide FrontLen, CleanAt, FrontSurvives;
    }
  }

  /** A printed string reads back as itself exactly when it is clean. */
  lemma {:induction false} MangledSameIff(v: Str)
    ensures Mangled(v) == v <==> Clean(v)
    decreases |v|
  {
    if v != [] {
      CleanFront(v);
      FrontSurvivesIff(v);
      hide EscapeOf, FrontLen, Clean;
      var n := FrontLen(v);
      MangledSameIff(v[n..]);
      assert v == v[..n] + v[n..];
      if FrontSurvives(v) {
        assert Mangled(v) == v[..n] + Mangled(v[n..]);
        assert Mangled(v)[n..] == Mangled(v[n..]);
      } else {
        assert Mangled(v)[0] != v[0];
      }
    }
  }

  // ---- The tokens of a printed text ----

  /** Words end where something else than a letter, digit or underscore stands. */
  predicate EndsWord(rest: Str) { rest == [] || !IsAlnum(rest[0]) }

  lemma {:induction false} AlnumRunIs(w: Str, rest: Str)
    requires (forall c <- w :: IsAlnum(c)) && EndsWord(rest)
    ensures AlnumRun(w + rest) == |w|
    decreases |w|
  {
    if w == [] {
      assert w + rest == rest;
    } else {
      assert (w + rest)[1..] == w[1..] + rest && w[0] in w;
      AlnumRunIs(w[1..], rest);
    }
  }

  lemma {:induction false} DigitRunIs(w: Str)
    requires forall c <- w :: IsDigit(c)
    ensures DigitRun(w) == |w|
    decreases |w|
  {
    if w != [] {
      assert w[0] in w;
      DigitRunIs(w[1..]);
    }
  }

  lemma AlphaIsNothingElse(c: unit)
    requires IsAlpha(c)
    ensures !IsSpace(c) && !IsDigit(c) && c != STAR && c != COMMA && c != EQUALS && c != QUOTE && c != APOSTROPHE
    ensures c != 0x2E && c != 0x25 && c != 0x28 && c != 0x29 && c != 0x21 && c != 0x3C && c != 0x3E
  {
  }

  lemma LexWord(w: Str, rest: Str)
    requires w != [] && IsAlpha(w[0]) && (forall c <- w :: IsAlnum(c)) && EndsWord(rest)
    ensures Lex(w + rest) == Prepend([WordTok(w)], Lex(rest))
  {
    AlnumRunIs(w, rest);
    AlphaIsNothingElse(w[0]);
    hide IsSpace, IsAlpha, IsDigit, WordTok, AlnumRun, DigitRun, StringBody;
    assert (w + rest)[..|w|] == w && (w + rest)[|w|..] == rest && (w + rest)[0] == w[0];
  }

  lemma LexSpace(rest: Str)
    ensures Lex([SPACE] + rest) == Lex(rest)
  {
    hide StringBody, AlnumRun, DigitRun, WordTok;
    assert ([SPACE] + rest)[1..] == rest;
  }

  lemma LexEquals(rest: Str)
    ensures Lex([EQUALS] + rest) == Prepend([Eq], Lex(rest))
  {
    hide StringBody, AlnumRun, DigitRun, WordTok;
    assert ([EQUALS] + rest)[1..] == rest;
  }

  lemma LexString(v: Str, rest: Str)
    ensures Lex(JsonString(v) + rest) == Prepend([Quoted(Mangled(v))], Lex(rest))
  {
    BodyOfEscaped(v, rest);
    hide StringBody, AlnumRun, DigitRun, WordTok, Escaped, Mangled;
    var s := JsonString(v) + rest;
    assert s[1..] == Escaped(v) + ([QUOTE] + rest);
    assert s[|JsonString(v)|..] == rest;
  }

  lemma NumberOfDigits(d: Str)
    requires d != [] && IsDigit(d[0]) && DigitRun(d) == |d| && (forall c <- d :: IsDigit(c))
    ensures FirstNumber(d) == if Value(d) > MAX_SAFE_INTEGER then Bad(UnsafeInteger) else Token(Number(Value(d)), |d|)
  {
    hide Value, DigitRun, IsDigit, IsAlpha;
    assert d[..|d|] == d;
  }

  lemma FirstDigits(d: Str)
    requires d != [] && (forall c <- d :: IsDigit(c))
    ensures First(d) == if Value(d) > MAX_SAFE_INTEGER then Bad(UnsafeInteger) else Token(Number(Value(d)), |d|)
  {
    hide Value, FirstNumber, AlnumRun, WordTok, StringBody, DigitRun, IsSpace, IsDigit, IsAlpha;
    assert d[0] in d;
    DigitIsNothingElse(d[0]);
    DigitRunIs(d);
    NumberOfDigits(d);
  }

  /** Why the tokenizer stops at a limit out of its range. */
  function LimitComplaint(n: int): Complaint { if n < 0 then UnexpectedCharacter else UnsafeInteger }

  lemma LexLimitText(n: int)
    ensures Lex(LimitText(n)) == if 0 <= n <= MAX_SAFE_INTEGER then Ok([Number(n), Eof]) else Err(LimitComplaint(n))
  {
    if n < 0 {
      assert LimitText(n)[0] == MINUS;
      hide LimitText, StringBody, FirstNumber, WordTok, AlnumRun;
    } else {
      var d := Decimal(n);
      FirstDigits(d);
      hide Decimal, Value, First;
      var rest := d[|d|..];
      assert rest == [] && Lex(rest) == Ok([Eof]);
      assert [Number(n)] + [Eof] == [Number(n), Eof];
    }
  }

  lemma DigitIsNothingElse(c: unit)
    requires IsDigit(c)
    ensures !IsSpace(c) && c != STAR && c != COMMA && c != EQUALS && c != QUOTE && c != APOSTROPHE
    ensures c != 0x2E && c != 0x25 && c != 0x28 && c != 0x29 && c != 0x21 && c != 0x3C && c != 0x3E
  {
  }

  predicate IsWord(w: Str) { w != [] && IsAlpha(w[0]) && forall c <- w :: IsAlnum(c) }

  /** A word and the space behind it. */
  lemma LexWordSpace(w: Str, rest: Str)
    requires IsWord(w)
    ensures Lex(w + ([SPACE] + rest)) == Prepend([WordTok(w)], Lex(rest))
  {
    hide WordTok, Lex;
    LexWord(w, [SPACE] + rest);
    LexSpace(rest);
  }

  /** A word between two spaces. */
  lemma LexSpaced(w: Str, rest: Str)
    requires IsWord(w)
    ensures Lex([SPACE] + w + [SPACE] + rest) == Prepend([WordTok(w)], Lex(rest))
  {
    hide WordTok, Lex, IsWord;
    LexSpace(w + ([SPACE] + rest));
    assert [SPACE] + w + [SPACE] + rest == [SPACE] + (w + ([SPACE] + rest));
    LexWordSpace(w, rest);
  }

  // ---- The words the printer writes ----

  const EVENTS_LOWER: Str := [101, 118, 101, 110, 116, 115]

  lemma KeywordWords()
    ensures IsWord(FROM) && IsWord(WHERE) && IsWord(AND) && IsWord(LIMIT) && IsWord(EVENTS_LOWER)
    ensures WordTok(FROM) == Kw(FROM) && WordTok(WHERE) == Kw(WHERE) && WordTok(AND) == Kw(AND)
              && WordTok(LIMIT) == Kw(LIMIT)
    ensures WordTok(EVENTS_LOWER) == Kw(EVENTS)
  {
    assert Upper(FROM) == FROM && Upper(WHERE) == WHERE && Upper(AND) == AND && Upper(LIMIT) == LIMIT;
    assert Upper(EVENTS_LOWER) == EVENTS;
  }

  lemma SpellingUpper(k: FilterKey)
    ensures !IsKeyword(Upper(Spelling(k)))
  {
    var w := Spelling(k);
    var u := Upper(w);
    assert u[|w| - 1] == if k.Proto? then w[|w| - 1] else w[|w| - 1] - 32;
    assert |w| == 6 ==> u[0] == 68;
  }

  lemma SpellingWord(k: FilterKey)
    ensures IsWord(Spelling(k)) && WordTok(Spelling(k)) == Ident(Spelling(k)) && |Spelling(k)| <= 11
  {
    var w := Spelling(k);
    SpellingLower(k);
    SpellingUpper(k);
    hide Upper, Lower, IsKeyword;
  }

  lemma SpellingLower(k: FilterKey)
    ensures Lower(Spelling(k)) == Spelling(k)
  {
  }
}
