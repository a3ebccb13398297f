/** The TraceQL subset's tokenizer, over UTF-16 code units. */
module TraceqlLexer {
  import opened Wrappers

  /** A UTF-16 code unit, and a string of them. */
  type unit = x: int | 0 <= x < 0x1_0000
  type Str = seq<unit>

  const QUERY_TEXT_MAX_CHARS: nat := 4096
  const MAX_SAFE_INTEGER: nat := 9_007_199_254_740_991

  const SPACE: unit := 0x20
  const QUOTE: unit := 0x22
  const APOSTROPHE: unit := 0x27
  const STAR: unit := 0x2A
  const COMMA: unit := 0x2C
  const SEMICOLON: unit := 0x3B
  const EQUALS: unit := 0x3D
  const BACKSLASH: unit := 0x5C

  datatype Tok = Kw(word: Str) | Ident(name: Str) | Quoted(value: Str) | Number(n: nat) | Eq | Star | Comma | Eof

  /** Why a query is refused. */
  datatype Complaint =
    | EmptyQuery
    | QueryTooLong
    | ContainsNul
    | SeveralStatements
    | UnsupportedToken
    | OnlyEquals
    | UnterminatedEscape
    | UnterminatedString
    | NumericUnit
    | UnsafeInteger
    | UnexpectedCharacter
    | Expected(word: Str)
    | GraphSource
    | NotSupported(word: Str)
    | FieldExpected
    | PayloadField
    | UnknownField
    | ValueExpected
    | ValueTooLong
    | UnknownSeverity
    | DuplicateField
    | Aggregate
    | BadSelect
    | LimitRequired
    | LimitNotInteger
    | LimitOutOfRange
    | TrailingTokens

  type Result<+T> = Fallible<T, Complaint>

  // ---- Character classes ----

  predicate IsSpace(c: unit) {
    9 <= c <= 13 || c == 0x20 || c == 0xA0 || c == 0x1680 || 0x2000 <= c <= 0x200A || c == 0x2028 || c == 0x2029
    || c == 0x202F || c == 0x205F || c == 0x3000 || c == 0xFEFF
  }

  predicate IsDigit(c: unit) { 0x30 <= c <= 0x39 }

  predicate IsAlpha(c: unit) { 0x41 <= c <= 0x5A || 0x61 <= c <= 0x7A || c == 0x5F }

  predicate IsAlnum(c: unit) { IsAlpha(c) || IsDigit(c) }

  function Upper(w: Str): (u: Str)
    ensures |u| == |w|
  {
    seq(|w|, i requires 0 <= i < |w| => if 0x61 <= w[i] <= 0x7A then w[i] - 32 else w[i])
  }

  function Lower(w: Str): (u: Str)
    ensures |u| == |w|
  {
    seq(|w|, i requires 0 <= i < |w| => if 0x41 <= w[i] <= 0x5A then w[i] + 32 else w[i])
  }

  // ---- Words ----

  const FROM: Str := [70, 82, 79, 77]
  const EVENTS: Str := [69, 86, 69, 78, 84, 83]
  const WHERE: Str := [87, 72, 69, 82, 69]
  const AND: Str := [65, 78, 68]
  const OR: Str := [79, 82]
  const NOT: Str := [78, 79, 84]
  const SELECT: Str := [83, 69, 76, 69, 67, 84]
  const LIMIT: Str := [76, 73, 77, 73, 84]
  const IN: Str := [73, 78]
  const BETWEEN: Str := [66, 69, 84, 87, 69, 69, 78]
  const GROUP: Str := [71, 82, 79, 85, 80]
  const BY: Str := [66, 89]
  const ORDER: Str := [79, 82, 68, 69, 82]
  const ASC: Str := [65, 83, 67]
  const DESC: Str := [68, 69, 83, 67]
  const GRAPH: Str := [71, 82, 65, 80, 72]
  const AS: Str := [65, 83]
  const COUNT: Str := [67, 79, 85, 78, 84]
  const MIN: Str := [77, 73, 78]
  const MAX: Str := [77, 65, 88]
  const P50: Str := [80, 53, 48]
  const P95: Str := [80, 57, 53]

  predicate IsKeyword(u: Str) {
    || u == FROM || u == EVENTS || u == WHERE || u == AND || u == OR || u == NOT || u == SELECT || u == LIMIT
    || u == IN || u == BETWEEN || u == GROUP || u == BY || u == ORDER || u == ASC || u == DESC || u == GRAPH || u == AS
    || u == COUNT || u == MIN || u == MAX || u == P50 || u == P95
  }

  /** The token of a word: a keyword in any case, or an identifier in lower case. */
  function WordTok(w: Str): Tok {
    if IsKeyword(Upper(w)) then Kw(Upper(w)) else Ident(Lower(w))
  }

  // ---- Runs at the front of a text ----

  function AlnumRun(s: Str): (n: nat)
    ensures n <= |s|
    ensures forall i | 0 <= i < n :: IsAlnum(s[i])
    ensures n < |s| ==> !IsAlnum(s[n])
  {
    if s == [] || !IsAlnum(s[0]) then 0 else 1 + AlnumRun(s[1..])
  }

  function DigitRun(s: Str): (n: nat)
    ensures n <= |s|
    ensures forall i | 0 <= i < n :: IsDigit(s[i])
    ensures n < |s| ==> !IsDigit(s[n])
  {
    if s == [] || !IsDigit(s[0]) then 0 else 1 + DigitRun(s[1..])
  }

  /** The number a digit string denotes. */
  function Value(digits: Str): nat
    requires forall d <- digits :: IsDigit(d)
  {
    if digits == [] then 0 else
    assert IsDigit(digits[|digits| - 1]);
    10 * Value(digits[..|digits| - 1]) + (digits[|digits| - 1] as int - 0x30)
  }

  /** A string literal's value behind its opening quote, and how many units it takes with the closing one. */
  function StringBody(s: Str, quote: unit): (r: Result<(Str, nat)>)
    ensures r.Ok? ==> 1 <= r.value.1 <= |s|
  {
    if s == [] then Err(UnterminatedString)
    else if s[0] == quote then Ok(([], 1))
    else if s[0] == BACKSLASH then
      if |s| < 2 then Err(UnterminatedEscape)
      else
        var r :- StringBody(s[2..], quote);
        Ok(([s[1]] + r.0, 2 + r.1))
    else
      var r :- StringBody(s[1..], quote);
      Ok(([s[0]] + r.0, 1 + r.1))
  }

  // ---- Tokens ----

  /** What stands at the front of a text: units to skip, or a token and its length. */
  datatype Piece = Skip | Token(tok: Tok, len: nat) | Bad(why: Complaint)

  function FirstNumber(s: Str): (p: Piece)
    requires s != [] && IsDigit(s[0])
    ensures p.Token? ==> 1 <= p.len <= |s|
  {
    var n := DigitRun(s);
    if n < |s| && IsAlpha(s[n]) then Bad(NumericUnit)
    else if Value(s[..n]) > MAX_SAFE_INTEGER then Bad(UnsafeInteger)
    else Token(Number(Value(s[..n])), n)
  }

  function First(s: Str): (p: Piece)
    requires s != []
    ensures p.Token? ==> 1 <= p.len <= |s|
  {
    var c := s[0];
    if IsSpace(c) then Skip
    else if c == STAR then Token(Star, 1)
    else if c == COMMA then Token(Comma, 1)
    else if c == 0x2E || c == 0x25 || c == 0x28 || c == 0x29 then Bad(UnsupportedToken)
    else if c == EQUALS then Token(Eq, 1)
    else if c == 0x21 || c == 0x3C || c == 0x3E then Bad(OnlyEquals)
    else if c == QUOTE || c == APOSTROPHE then
      match StringBody(s[1..], c)
      case Ok((value, n)) => Token(Quoted(value), 1 + n)
      case Err(why) => Bad(why)
    else if IsDigit(c) then FirstNumber(s)
    else if IsAlpha(c) then Token(WordTok(s[..AlnumRun(s)]), AlnumRun(s))
    else Bad(UnexpectedCharacter)
  }

  function Lex(s: Str): Result<seq<Tok>>
    decreases |s|
  {
    if s == [] then Ok([Eof]) else
    match First(s)
    case Skip => Lex(s[1..])
    case Token(tok, len) => Prepend([tok], Lex(s[len..]))
    case Bad(why) => Err(why)
  }

  function TrimLeft(s: Str): Str {
    if s != [] && IsSpace(s[0]) then TrimLeft(s[1..]) else s
  }

  function TrimRight(s: Str): Str {
    if s != [] && IsSpace(s[|s| - 1]) then TrimRight(s[..|s| - 1]) else s
  }

  function Trim(s: Str): Str { TrimRight(TrimLeft(s)) }

  function Tokens(input: Str): Result<seq<Tok>> {
    var s := Trim(input);
    if s == [] then Err(EmptyQuery)
    else if |s| > QUERY_TEXT_MAX_CHARS then Err(QueryTooLong)
    else if 0 in s then Err(ContainsNul)
    else if SEMICOLON in s then Err(SeveralStatements)
    else Lex(s)
  }

  // ---- The loop ----

  /** A literal's value and length, continued from what was read before. */
  function Continued(before: Str, n: nat, r: Result<(Str, nat)>): Result<(Str, nat)> {
    match r
    case Ok(x) => Ok((before + x.0, n + x.1))
    case Err(e) => Err(e)
  }

  lemma ContinuedTwice(a: Str, m: nat, b: Str, n: nat, r: Result<(Str, nat)>)
    ensures Continued(a, m, Continued(b, n, r)) == Continued(a + b, m + n, r)
  {
    if r.Ok? {
      assert a + (b + r.value.0) == a + b + r.value.0;
    }
  }

  lemma ContinuedNothing(r: Result<(Str, nat)>)
    ensures Continued([], 0, r) == r
  {
    if r.Ok? {
      assert [] + r.value.0 == r.value.0;
    }
  }

  /** One unit more of a literal, with the backslash before it dropped. */
  lemma BodyGoesOn(s: Str, start: nat, i: nat, quote: unit, value: Str)
    requires start <= i < |s| && s[i] != quote
    ensures Continued(value, i - start, StringBody(s[i..], quote)) ==
            var at := if s[i] == BACKSLASH then i + 1 else i;
            if at >= |s| then Err(UnterminatedEscape)
            else Continued(value + [s[at]], at + 1 - start, StringBody(s[at + 1..], quote))
  {
    var at := if s[i] == BACKSLASH then i + 1 else i;
    if at < |s| {
      var rest := StringBody(s[at + 1..], quote);
      assert StringBody(s[i..], quote) == Continued([s[at]], at + 1 - i, rest) by {
        assert s[i..][1..] == s[i + 1..];
        assert at == i + 1 ==> s[i..][2..] == s[i + 2..];
      }
      hide StringBody;
      ContinuedTwice(value, i - start, [s[at]], at + 1 - i, rest);
    }
  }

  lemma BodyEnds(s: Str, start: nat, i: nat, quote: unit, value: Str)
    requires start <= i <= |s| && (i < |s| ==> s[i] == quote)
    ensures Continued(value, i - start, StringBody(s[i..], quote)) ==
            if i >= |s| then Err(UnterminatedString) else Ok((value, i + 1 - start))
  {
    assert value + [] == value;
  }

  /** Reads a string literal from behind its opening quote: its value and its length with the closing one. */
  method ReadString(s: Str, start: nat, quote: unit) returns (r: Result<(Str, nat)>)
    requires start <= |s|
    ensures r == StringBody(s[start..], quote)
  {
    var i := start;
    var value: Str := [];
    hide StringBody, Continued;
    ContinuedNothing(StringBody(s[start..], quote));
    while i < |s| && s[i] != quote
      invariant start <= i <= |s|
      invariant Continued(value, i - start, StringBody(s[i..], quote)) == StringBody(s[start..], quote)
    {
      BodyGoesOn(s, start, i, quote, value);
      if s[i] == BACKSLASH {
        i := i + 1;
        if i >= |s| {
          return Err(UnterminatedEscape);
        }
      }
      value := value + [s[i]];
      i := i + 1;
    }
    BodyEnds(s, start, i, quote, value);
    if i >= |s| {
      return Err(UnterminatedString);
    }
    return Ok((value, i + 1 - start));
  }

  method ReadRun(s: Str, start: nat, digits: bool) returns (i: nat)
    requires start <= |s|
    ensures i == start + if digits then DigitRun(s[start..]) else AlnumRun(s[start..])
  {
    i := start;
    while i < |s| && if digits then IsDigit(s[i]) else IsAlnum(s[i])
      invariant start <= i <= |s|
      invariant start + (if digits then DigitRun(s[start..]) else AlnumRun(s[start..]))
                == i + if digits then DigitRun(s[i..]) else AlnumRun(s[i..])
    {
      assert s[i..][1..] == s[i + 1..];
      i := i + 1;
    }
  }

  lemma LexStarts(s: Str)
    ensures Prepend([], Lex(s[0..])) == Lex(s)
  {
    assert s[0..] == s;
    assert Lex(s).Ok? ==> [] + Lex(s).value == Lex(s).value;
    hide Lex;
  }

  /** What stands behind the tokens read, after one piece more. */
  lemma LexGoesOn(s: Str, i: nat, tokens: seq<Tok>)
    requires i < |s|
    ensures Prepend(tokens, Lex(s[i..])) ==
            match First(s[i..])
            case Skip => Prepend(tokens, Lex(s[i + 1..]))
            case Bad(why) => Err(why)
            case Token(tok, len) => Prepend(tokens + [tok], Lex(s[i + len..]))
  {
    hide First;
    match First(s[i..])
    case Skip =>
      assert s[i..][1..] == s[i + 1..];
    case Bad(_) =>
    case Token(tok, len) =>
      assert s[i..][len..] == s[i + len..];
      assert Lex(s[i..]) == Prepend([tok], Lex(s[i + len..]));
      hide Prepend, Lex;
      PrependTwice(tokens, [tok], Lex(s[i + len..]));
  }

  lemma LexEnds(s: Str, tokens: seq<Tok>)
    ensures Prepend(tokens, Lex(s[|s|..])) == Ok(tokens + [Eof])
  {
  }

  method Tokenize(input: Str) returns (r: Result<seq<Tok>>)
    ensures r == Tokens(input)
  {
    hide Trim, Lex, First, Prepend;
    var s := Trim(input);
    if s == [] {
      return Err(EmptyQuery);
    }
    if |s| > QUERY_TEXT_MAX_CHARS {
      return Err(QueryTooLong);
    }
    if 0 in s {
      return Err(ContainsNul);
    }
    if SEMICOLON in s {
      return Err(SeveralStatements);
    }
    var tokens: seq<Tok> := [];
    var i := 0;
    LexStarts(s);
    while i < |s|
      invariant 0 <= i <= |s|
      invariant Prepend(tokens, Lex(s[i..])) == Lex(s)
      decreases |s| - i
    {
      var next := ReadToken(s, i);
      LexGoesOn(s, i, tokens);
      match next {
        case Skip =>
          i := i + 1;
        case Bad(why) =>
          return Err(why);
        case Token(tok, len) =>
          tokens := tokens + [tok];
          i := i + len;
      }
    }
    LexEnds(s, tokens);
    tokens := tokens + [Eof];
    return Ok(tokens);
  }

  /** Reads what stands at position `i`. */
  method ReadToken(s: Str, i: nat) returns (p: Piece)
    requires i < |s|
    ensures p == First(s[i..])
  {
    hide StringBody, Value, WordTok;
    var c := s[i];
    if IsSpace(c) {
      return Skip;
    }
    if c == STAR {
      return Token(Star, 1);
    }
    if c == COMMA {
      return Token(Comma, 1);
    }
    if c == 0x2E || c == 0x25 || c == 0x28 || c == 0x29 {
      return Bad(UnsupportedToken);
    }
    if c == EQUALS {
      return Token(Eq, 1);
    }
    if c == 0x21 || c == 0x3C || c == 0x3E {
      return Bad(OnlyEquals);
    }
    if c == QUOTE || c == APOSTROPHE {
      assert s[i..][1..] == s[i + 1..];
      var text := ReadString(s, i + 1, c);
      match text {
        case Ok(x) => return Token(Quoted(x.0), 1 + x.1);
        case Err(why) => return Bad(why);
      }
    }
    if IsDigit(c) {
      var end := ReadRun(s, i, true);
      assert s[i..][..end - i] == s[i..end];
      if end < |s| && IsAlpha(s[end]) {
        return Bad(NumericUnit);
      }
      var n := Value(s[i..end]);
      if n > MAX_SAFE_INTEGER {
        return Bad(UnsafeInteger);
      }
      return Token(Number(n), end - i);
    }
    if IsAlpha(c) {
      var end := ReadRun(s, i, false);
      assert s[i..][..end - i] == s[i..end];
      return Token(WordTok(s[i..end]), end - i);
    }
    return Bad(UnexpectedCharacter);
  }
}
