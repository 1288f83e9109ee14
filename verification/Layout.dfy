/** Blanks and comments do not change what a source means. */
module Layout {
  import opened Wrappers
  import opened Syntax
  import opened Lexer
  import opened Grammar

  /** A piece of source text: a blank, a comment without its line end, or one token. */
  datatype Piece = Blank(c: char) | Comment(body: string) | Lexeme(token: Token)

  function PieceText(p: Piece): string {
    match p
    case Blank(c) => [c]
    case Comment(body) => "#" + body
    case Lexeme(t) => t.value
  }

  function Text(ps: seq<Piece>): string {
    if |ps| == 0 then "" else PieceText(ps[0]) + Text(ps[1..])
  }

  function Lexemes(ps: seq<Piece>): seq<Token> {
    if |ps| == 0 then [END]
    else (if ps[0].Lexeme? then [ps[0].token] else []) + Lexemes(ps[1..])
  }

  function PieceScan(p: Piece): Scan {
    if p.Lexeme? then Emit(p.token, |p.token.value|) else Skip(|PieceText(p)|)
  }

  /** A piece in front of a text is scanned as itself: it does not run into what follows. */
  predicate Stands(p: Piece, rest: string) {
    && |PieceText(p)| > 0 && (p.Blank? ==> IsBlank(p.c))
    && ScanOne(PieceText(p) + rest) == Ok(PieceScan(p))
  }

  predicate Spaced(ps: seq<Piece>) {
    |ps| == 0 || (Stands(ps[0], Text(ps[1..])) && Spaced(ps[1..]))
  }

  lemma {:induction false} SpacedLexes(ps: seq<Piece>)
    requires Spaced(ps)
    ensures Lex(Text(ps)) == Ok(Lexemes(ps))
  {
    hide ScanOne;
    if |ps| > 0 {
      SpacedLexes(ps[1..]);
      var text := PieceText(ps[0]);
      assert Text(ps) == text + Text(ps[1..]);
      assert (text + Text(ps[1..]))[|text|..] == Text(ps[1..]);
      if !ps[0].Lexeme? { assert [] + Lexemes(ps[1..]) == Lexemes(ps[1..]); }
    }
  }

  lemma PieceAt(s: string) returns (p: Piece)
    requires |s| > 0 && ScanOne(s).Ok?
    ensures |PieceText(p)| == ScanOne(s).value.length && PieceText(p) == s[..|PieceText(p)|]
    ensures Stands(p, s[|PieceText(p)|..])
  {
    var one := ScanOne(s).value;
    if one.Emit? {
      p := Lexeme(one.token);
    } else if s[0] == '#' {
      p := Comment(s[1..one.length]);
    } else {
      p := Blank(s[0]);
    }
    assert PieceText(p) + s[|PieceText(p)|..] == s;
  }

  /** Every source the lexer accepts is made of such pieces. */
  lemma {:induction false} LexedIsSpaced(s: string) returns (ps: seq<Piece>)
    requires Lex(s).Ok?
    ensures Spaced(ps) && Text(ps) == s
    decreases |s|
  {
    if s == "" {
      ps := [];
    } else {
      var p := PieceAt(s);
      hide ScanOne, Stands;
      var rest := s[|PieceText(p)|..];
      var later := LexedIsSpaced(rest);
      ps := [p] + later;
      assert ps[1..] == later;
      assert PieceText(p) + rest == s;
    }
  }

  // --- a piece only looks at the next character ---------------------------------

  /** The rest may change to one that starts with layout, or keep its first character. */
  predicate Softer(rest: string, rest': string) {
    rest' == "" || IsBlank(rest'[0]) || rest'[0] == '#' || (rest != "" && rest'[0] == rest[0])
  }

  lemma {:induction false} WordLocal(t: string, rest: string, rest': string)
    requires WordLength(t + rest) == |t| && Softer(rest, rest')
    ensures WordLength(t + rest') == |t|
  {
    if t == "" {
      assert t + rest == rest && t + rest' == rest';
    } else {
      assert (t + rest)[1..] == t[1..] + rest && (t + rest')[1..] == t[1..] + rest';
      WordLocal(t[1..], rest, rest');
    }
  }

  lemma NothingLocal(rest: string, rest': string, seenDot: bool)
    requires NumberLength(rest, seenDot) == Some(0) && Softer(rest, rest')
    ensures NumberLength(rest', seenDot) == Some(0)
  {
    assert rest == "" || !(IsDigit(rest[0]) || rest[0] == '.');
  }

  lemma {:induction false} NumberLocal(t: string, rest: string, rest': string, seenDot: bool)
    requires NumberLength(t + rest, seenDot) == Some(|t|) && Softer(rest, rest')
    ensures NumberLength(t + rest', seenDot) == Some(|t|)
  {
    if t == "" {
      assert t + rest == rest && t + rest' == rest';
      NothingLocal(rest, rest', seenDot);
    } else {
      assert (t + rest)[1..] == t[1..] + rest && (t + rest')[1..] == t[1..] + rest';
      NumberLocal(t[1..], rest, rest', seenDot || t[0] == '.');
    }
  }

  lemma {:induction false} LineLocal(t: string, rest: string, rest': string)
    requires LineLength(t + rest) == |t| && (rest' == "" || rest'[0] == '\n')
    ensures LineLength(t + rest') == |t|
  {
    if t == "" {
      assert t + rest' == rest';
    } else {
      assert (t + rest)[1..] == t[1..] + rest && (t + rest')[1..] == t[1..] + rest';
      LineLocal(t[1..], rest, rest');
    }
  }

  lemma OperatorLocal(t: string, rest: string, rest': string)
    requires t != "" && OperatorAt(t + rest) == t && Softer(rest, rest')
    ensures OperatorAt(t + rest') == t
  {
    var s, s' := t + rest, t + rest';
    assert s[0] == t[0] && s'[0] == t[0];
    assert |t| == 1 || |t| == 2;
    if |t| == 2 { assert s[1] == t[1] && s'[1] == t[1]; }
    else if rest' != "" { assert s'[1] == rest'[0]; if rest != "" { assert s[1] == rest[0]; } }
  }

  lemma StandsLocally(p: Piece, rest: string, rest': string)
    requires Stands(p, rest) && Softer(rest, rest')
    requires p.Comment? ==> rest' == "" || rest'[0] == '\n'
    ensures Stands(p, rest')
  {
    var t := PieceText(p);
    var s, s' := t + rest, t + rest';
    assert s[0] == t[0] && s'[0] == t[0];
    match p {
      case Blank(_) =>
      case Comment(_) => LineLocal(t, rest, rest');
      case Lexeme(token) => LexemeLocal(token, rest, rest');
    }
  }

  lemma LexemeLocal(token: Token, rest: string, rest': string)
    requires Stands(Lexeme(token), rest) && Softer(rest, rest')
    ensures Stands(Lexeme(token), rest')
  {
    var t := token.value;
    var s, s' := t + rest, t + rest';
    assert s[0] == t[0] && s'[0] == t[0] && s[..|t|] == t && s'[..|t|] == t;
    if token.kind == NUMBER {
      NumberLexemeLocal(token, rest, rest');
    } else if token.kind == IDENT || token.kind == KEYWORD {
      hide NumberLength, OperatorAt, LineLength;
      WordLocal(t, rest, rest');
    } else if token.kind == OPERATOR {
      hide NumberLength, WordLength, LineLength;
      OperatorLocal(t, rest, rest');
    } else {
      hide NumberLength, WordLength, LineLength, OperatorAt;
    }
  }

  lemma NumberLexemeLocal(token: Token, rest: string, rest': string)
    requires Stands(Lexeme(token), rest) && Softer(rest, rest') && token.kind == NUMBER
    ensures Stands(Lexeme(token), rest')
  {
    hide WordLength, OperatorAt, LineLength;
    var t := token.value;
    var s, s' := t + rest, t + rest';
    assert s[0] == t[0] && s'[0] == t[0] && s'[..|t|] == t;
    assert NumberLength(s, false) == Some(|t|);
    if |t| >= 2 { assert s[1] == t[1] && s'[1] == t[1]; }
    NumberLocal(t, rest, rest', false);
    if rest' != "" {
      assert s'[|t|] == rest'[0];
      if rest != "" { assert s[|t|] == rest[0]; }
    }
  }

  // --- inserting layout -------------------------------------------------------------

  /** A blank, or a comment with its line end. */
  predicate IsGap(gap: seq<Piece>) {
    (|gap| == 1 && gap[0].Blank? && IsBlank(gap[0].c)) ||
    (|gap| == 2 && gap[0].Comment? && '\n' !in gap[0].body && gap[1] == Blank('\n'))
  }

  lemma {:induction false} LineIsWhole(body: string, rest: string)
    requires '\n' !in body && (rest == "" || rest[0] == '\n')
    ensures LineLength(body + rest) == |body|
  {
    if body == "" {
      assert body + rest == rest;
    } else {
      assert (body + rest)[1..] == body[1..] + rest;
      LineIsWhole(body[1..], rest);
    }
  }

  lemma GapStands(gap: seq<Piece>, ps: seq<Piece>)
    requires IsGap(gap) && Spaced(ps)
    ensures Spaced(gap + ps) && Lexemes(gap + ps) == Lexemes(ps)
    ensures var t := Text(gap + ps); t != "" && (IsBlank(t[0]) || t[0] == '#')
  {
    if |gap| == 1 {
      assert (gap + ps)[1..] == ps;
      BlankStands(gap[0].c, Text(ps));
      assert [] + Lexemes(ps) == Lexemes(ps);
    } else {
      var line := gap[1..] + ps;
      assert line[1..] == ps && (gap + ps)[1..] == line;
      BlankStands('\n', Text(ps));
      CommentStands(gap[0].body, Text(line));
      assert [] + Lexemes(ps) == Lexemes(ps);
    }
  }

  lemma BlankStands(c: char, rest: string)
    requires IsBlank(c)
    ensures Stands(Blank(c), rest) && ([c] + rest)[0] == c
  {
  }

  lemma CommentStands(body: string, rest: string)
    requires '\n' !in body && rest != "" && rest[0] == '\n'
    ensures Stands(Comment(body), rest)
  {
    assert ("#" + body + rest)[1..] == body + rest;
    LineIsWhole(body, rest);
  }

  /** ps with the gap in front of piece k. */
  function Insert(ps: seq<Piece>, k: nat, gap: seq<Piece>): seq<Piece>
    requires k <= |ps|
  {
    if k == 0 then gap + ps else [ps[0]] + Insert(ps[1..], k - 1, gap)
  }

  /** A gap put anywhere between two pieces, except inside a comment, leaves every token as it was. */
  lemma {:induction false} GapKeepsTokens(ps: seq<Piece>, k: nat, gap: seq<Piece>)
    requires Spaced(ps) && k <= |ps| && IsGap(gap) && (k > 0 ==> !ps[k - 1].Comment?)
    ensures Spaced(Insert(ps, k, gap)) && Lexemes(Insert(ps, k, gap)) == Lexemes(ps)
    ensures Softer(Text(ps), Text(Insert(ps, k, gap)))
  {
    if k == 0 {
      GapStands(gap, ps);
    } else {
      hide Stands, Softer, IsGap, PieceText;
      var later' := Insert(ps[1..], k - 1, gap);
      GapKeepsTokens(ps[1..], k - 1, gap);
      assert Insert(ps, k, gap)[1..] == later';
      FirstPieceStands(ps, k, later');
    }
  }

  lemma FirstPieceStands(ps: seq<Piece>, k: nat, later': seq<Piece>)
    requires 0 < k <= |ps| && Stands(ps[0], Text(ps[1..])) && Softer(Text(ps[1..]), Text(later'))
    requires ps[0].Comment? ==> k > 1 && later' != [] && |ps| > 1 && later'[0] == ps[1] && Spaced(ps[1..])
    ensures Stands(ps[0], Text(later'))
    ensures Softer(PieceText(ps[0]) + Text(ps[1..]), PieceText(ps[0]) + Text(later'))
  {
    var rest, rest' := Text(ps[1..]), Text(later');
    if ps[0].Comment? {
      CommentEnds(ps[0], rest);
      assert ps[1..][0] == ps[1];
    }
    StandsLocally(ps[0], rest, rest');
    assert (PieceText(ps[0]) + rest)[0] == PieceText(ps[0])[0] == (PieceText(ps[0]) + rest')[0];
  }

  lemma CommentEnds(p: Piece, rest: string)
    requires p.Comment? && Stands(p, rest)
    ensures rest == "" || rest[0] == '\n'
  {
    LineEnds(PieceText(p), rest);
  }

  lemma {:induction false} LineEnds(t: string, rest: string)
    requires LineLength(t + rest) == |t|
    ensures rest == "" || rest[0] == '\n'
  {
    if t == "" { assert t + rest == rest; }
    else {
      assert (t + rest)[1..] == t[1..] + rest;
      LineEnds(t[1..], rest);
    }
  }

  /** Adding a blank or a comment line between the pieces of an accepted source leaves its meaning alone. */
  lemma LayoutIsIrrelevant(ps: seq<Piece>, k: nat, gap: seq<Piece>)
    requires Spaced(ps) && k <= |ps| && IsGap(gap) && (k > 0 ==> !ps[k - 1].Comment?)
    requires |Text(ps)| <= MAX_EXPRESSION_LENGTH && |Text(Insert(ps, k, gap))| <= MAX_EXPRESSION_LENGTH
    ensures Parse(Text(Insert(ps, k, gap))) == Parse(Text(ps))
  {
    GapKeepsTokens(ps, k, gap);
    SpacedLexes(ps);
    SpacedLexes(Insert(ps, k, gap));
  }
}
