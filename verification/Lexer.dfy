/** The tokeniser (packages/engine/quanta_engine/dsl/lexer.py). */
module Lexer {
  import opened Wrappers
  import opened Syntax

  datatype TokenType = NUMBER | IDENT | KEYWORD | OPERATOR | LPAREN | RPAREN | COMMA | EOF

  datatype Token = Token(kind: TokenType, value: string)

  datatype ParseError =
    | TooLong | TwoPoints | LetterAfterNumber | SingleEquals | AttributeAccess | UnexpectedCharacter
    | Empty | TrailingInput | TooComplex | TooDeep | ChainedComparison | Expected(kind: TokenType)
    | KeywordStart | EndsEarly | UnexpectedToken | TooManyArguments
    | NotANumber

  const MAX_EXPRESSION_LENGTH := 4000

  const END := Token(EOF, "")

  predicate IsBlank(c: char) {
    c == ' ' || c == '\t' || c == '\n' || c == '\r'
  }

  /** How many leading characters belong to a word. */
  function WordLength(s: string): (n: nat)
    ensures n <= |s|
    ensures AllWordChars(s[..n])
    ensures n < |s| ==> !IsWordChar(s[n])
  {
    if s == "" || !IsWordChar(s[0]) then 0
    else
      assert forall k :: 1 <= k <= |s| ==> s[..k] == [s[0]] + s[1..][..k - 1];
      1 + WordLength(s[1..])
  }

  function LineLength(s: string): (n: nat)
    ensures n <= |s|
  {
    if s == "" || s[0] == '\n' then 0 else 1 + LineLength(s[1..])
  }

  /** How many leading characters are digits or the one point a number may have; None on a second point. */
  function NumberLength(s: string, seenDot: bool): (n: Option<nat>)
    ensures n.Some? ==> n.value <= |s|
  {
    if s == "" || !(IsDigit(s[0]) || s[0] == '.') then Some(0)
    else if s[0] == '.' && seenDot then None
    else
      var rest := NumberLength(s[1..], seenDot || s[0] == '.');
      if rest.None? then None else Some(1 + rest.value)
  }

  /** The first of the source's operators, longest first, that the text starts with; "" if none does. */
  function OperatorAt(s: string): (op: string)
    ensures |op| <= |s| && op <= s
  {
    if "<=" <= s then "<=" else if ">=" <= s then ">=" else if "==" <= s then "==" else if "!=" <= s then "!="
    else if "<" <= s then "<" else if ">" <= s then ">" else if "+" <= s then "+" else if "-" <= s then "-"
    else if "*" <= s then "*" else if "/" <= s then "/" else if "%" <= s then "%" else ""
  }

  predicate StartsNumber(s: string)
    requires |s| > 0
  {
    IsDigit(s[0]) || (s[0] == '.' && |s| > 1 && IsDigit(s[1]))
  }

  function WordToken(word: string): Token {
    Token(if word in KEYWORDS then KEYWORD else IDENT, word)
  }

  /** What one turn of the loop does: the token it adds, if any, and how far it moves. */
  datatype Scan = Skip(length: nat) | Emit(token: Token, length: nat)

  function ScanOne(s: string): (r: Result<Scan, ParseError>)
    requires |s| > 0
    ensures r.Ok? ==> 1 <= r.value.length <= |s|
  {
    var c := s[0];
    if IsBlank(c) then Ok(Skip(1))
    else if c == '#' then Ok(Skip(LineLength(s)))
    else if c == '(' then Ok(Emit(Token(LPAREN, "("), 1))
    else if c == ')' then Ok(Emit(Token(RPAREN, ")"), 1))
    else if c == ',' then Ok(Emit(Token(COMMA, ","), 1))
    else if StartsNumber(s) then
      var n := NumberLength(s, false);
      if n.None? then Err(TwoPoints)
      else if n.value < |s| && (IsAlpha(s[n.value]) || s[n.value] == '_') then Err(LetterAfterNumber)
      else Ok(Emit(Token(NUMBER, s[..n.value]), n.value))
    else if IsAlpha(c) || c == '_' then
      var n := WordLength(s);
      Ok(Emit(WordToken(s[..n]), n))
    else if OperatorAt(s) != "" then Ok(Emit(Token(OPERATOR, OperatorAt(s)), |OperatorAt(s)|))
    else if c == '=' then Err(SingleEquals)
    else if c == '.' then Err(AttributeAccess)
    else Err(UnexpectedCharacter)
  }

  function Prepend(t: Token, rest: Result<seq<Token>, ParseError>): Result<seq<Token>, ParseError> {
    if rest.Ok? then Ok([t] + rest.value) else rest
  }

  /** The tokens of a text, ending with END. */
  function Lex(s: string): (r: Result<seq<Token>, ParseError>)
    ensures r.Ok? ==> |r.value| > 0 && r.value[|r.value| - 1] == END
    ensures r.Ok? ==> forall k :: 0 <= k < |r.value| - 1 ==> r.value[k].kind != EOF
  {
    if s == "" then Ok([END])
    else
      var one :- ScanOne(s);
      if one.Skip? then Lex(s[one.length..]) else Prepend(one.token, Lex(s[one.length..]))
  }

  function Tokenize(source: string): Result<seq<Token>, ParseError> {
    if |source| > MAX_EXPRESSION_LENGTH then Err(TooLong) else Lex(source)
  }

  // --- the loop -----------------------------------------------------------

  function Join(tokens: seq<Token>, rest: Result<seq<Token>, ParseError>): Result<seq<Token>, ParseError> {
    if rest.Ok? then Ok(tokens + rest.value) else rest
  }

  lemma JoinNothing(rest: Result<seq<Token>, ParseError>)
    ensures Join([], rest) == rest
  {
    if rest.Ok? { assert [] + rest.value == rest.value; }
  }

  lemma JoinPrepend(tokens: seq<Token>, t: Token, rest: Result<seq<Token>, ParseError>)
    ensures Join(tokens, Prepend(t, rest)) == Join(tokens + [t], rest)
  {
    if rest.Ok? { assert tokens + ([t] + rest.value) == tokens + [t] + rest.value; }
  }

  /** Moves an index over the characters of a number. */
  method NumberEnd(source: string, start: nat) returns (end: Option<nat>)
    requires start <= |source|
    ensures var n := NumberLength(source[start..], false);
      end == (if n.None? then None else Some(start + n.value))
  {
    var index, seenDot := start, false;
    while index < |source| && (IsDigit(source[index]) || source[index] == '.')
      invariant start <= index <= |source|
      invariant var n := NumberLength(source[start..], false);
        var m := NumberLength(source[index..], seenDot);
        if n.None? then m.None? else m.Some? && start + n.value == index + m.value
    {
      if source[index] == '.' {
        if seenDot { return None; }
        seenDot := true;
      }
      assert source[index..][1..] == source[index + 1..];
      index := index + 1;
    }
    return Some(index);
  }

  method WordEnd(source: string, start: nat) returns (end: nat)
    requires start <= |source|
    ensures end == start + WordLength(source[start..])
  {
    end := start;
    while end < |source| && IsWordChar(source[end])
      invariant start <= end <= |source|
      invariant start + WordLength(source[start..]) == end + WordLength(source[end..])
    {
      assert source[end..][1..] == source[end + 1..];
      end := end + 1;
    }
  }

  method LineEnd(source: string, start: nat) returns (end: nat)
    requires start <= |source|
    ensures end == start + LineLength(source[start..])
  {
    end := start;
    while end < |source| && source[end] != '\n'
      invariant start <= end <= |source|
      invariant start + LineLength(source[start..]) == end + LineLength(source[end..])
    {
      assert source[end..][1..] == source[end + 1..];
      end := end + 1;
    }
  }

  method ScanNumber(source: string, index: nat) returns (r: Result<(Token, nat), ParseError>)
    requires index < |source|
    ensures var s := source[index..];
      var n := NumberLength(s, false);
      r == if n.None? then Err(TwoPoints)
           else if n.value < |s| && (IsAlpha(s[n.value]) || s[n.value] == '_') then Err(LetterAfterNumber)
           else Ok((Token(NUMBER, s[..n.value]), index + n.value))
  {
    var end := NumberEnd(source, index);
    if end.None? { return Err(TwoPoints); }
    if end.value < |source| && (IsAlpha(source[end.value]) || source[end.value] == '_') {
      return Err(LetterAfterNumber);
    }
    assert source[index..end.value] == source[index..][..end.value - index];
    return Ok((Token(NUMBER, source[index..end.value]), end.value));
  }

  method ScanWord(source: string, index: nat) returns (token: Token, next: nat)
    requires index < |source|
    ensures var s := source[index..];
      token == WordToken(s[..WordLength(s)]) && next == index + WordLength(s)
  {
    next := WordEnd(source, index);
    assert source[index..next] == source[index..][..next - index];
    token := WordToken(source[index..next]);
  }

  /** One turn of the loop at `index`: the token to append, if any, and the next index. */
  method ScanAt(source: string, index: nat) returns (r: Result<(Option<Token>, nat), ParseError>)
    requires index < |source|
    ensures match ScanOne(source[index..])
      case Ok(Skip(n)) => r == Ok((None, index + n))
      case Ok(Emit(t, n)) => r == Ok((Some(t), index + n))
      case Err(e) => r == Err(e)
  {
    hide WordLength, LineLength, NumberLength, OperatorAt, WordToken;
    var c := source[index];
    if IsBlank(c) {
      return Ok((None, index + 1));
    } else if c == '#' {
      var end := LineEnd(source, index);
      return Ok((None, end));
    } else if c == '(' {
      return Ok((Some(Token(LPAREN, "(")), index + 1));
    } else if c == ')' {
      return Ok((Some(Token(RPAREN, ")")), index + 1));
    } else if c == ',' {
      return Ok((Some(Token(COMMA, ",")), index + 1));
    } else if IsDigit(c) || (c == '.' && index + 1 < |source| && IsDigit(source[index + 1])) {
      var number := ScanNumber(source, index);
      if number.Err? { return Err(number.error); }
      return Ok((Some(number.value.0), number.value.1));
    } else if IsAlpha(c) || c == '_' {
      var word, next := ScanWord(source, index);
      return Ok((Some(word), next));
    }
    var matched := OperatorAt(source[index..]);
    if matched != "" {
      return Ok((Some(Token(OPERATOR, matched)), index + |matched|));
    } else if c == '=' {
      return Err(SingleEquals);
    } else if c == '.' {
      return Err(AttributeAccess);
    }
    return Err(UnexpectedCharacter);
  }

  method TokenizeLoop(source: string) returns (r: Result<seq<Token>, ParseError>)
    ensures r == Tokenize(source)
  {
    hide ScanOne;
    if |source| > MAX_EXPRESSION_LENGTH { return Err(TooLong); }
    var tokens: seq<Token> := [];
    var index := 0;
    assert source[index..] == source;
    JoinNothing(Lex(source));
    while index < |source|
      invariant 0 <= index <= |source|
      invariant Join(tokens, Lex(source[index..])) == Lex(source)
    {
      var one := ScanAt(source, index);
      if one.Err? { return Err(one.error); }
      var (token, next) := one.value;
      assert source[next..] == source[index..][next - index..];
      if token.Some? {
        JoinPrepend(tokens, token.value, Lex(source[next..]));
        tokens := tokens + [token.value];
      }
      index := next;
    }
    assert source[index..] == "";
    return Ok(tokens + [END]);
  }
}
