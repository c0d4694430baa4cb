/**
  Catalog text as it may be written: tokens with any whitespace and comments between them. Lexing
  such a text gives the tokens back.
 */
module CatalogRendering {
  import opened Wrappers
  import opened CatalogLexer

  /** A token that is a match of its own. */
  predicate Lexical(t: Token) {
    t.text != [] && !IsTrivia(t.kind) && Match(t.text) == Some((t.kind, |t.text|))
  }

  /** Text that may follow `t` without being read as more of it. */
  predicate Ends(t: Token, after: string) {
    after == [] ||
    match t.kind
    case Word => !IsWordChar(after[0])
    case Literal => after[0] != '\''
    case Quoted => after[0] != '"'
    case _ => true
  }

  predicate EndsLine(s: string) {
    '\r' in s || '\n' in s
  }

  /** Whitespace, closed line comments and block comments, in any order and number. */
  predicate IsGap(g: string)
    decreases |g|
  {
    if g == [] then true
    else if IsSpace(g[0]) then IsGap(g[1..])
    else if |g| > 1 && g[0] == '-' && g[1] == '-' then EndsLine(g[2..]) && IsGap(g[2 + LineRun(g[2..])..])
    else if |g| > 1 && g[0] == '/' && g[1] == '*' then
      BlockRun(g[2..]).Some? && IsGap(g[2 + BlockRun(g[2..]).value..])
    else false
  }

  datatype Piece = Piece(gap: string, token: Token)

  function Render(pieces: seq<Piece>): string {
    if pieces == [] then [] else pieces[0].gap + pieces[0].token.text + Render(pieces[1..])
  }

  function Tokens(pieces: seq<Piece>): (tokens: seq<Token>)
    ensures |tokens| == |pieces|
  {
    if pieces == [] then [] else [pieces[0].token] + Tokens(pieces[1..])
  }

  /** Pieces of one statement, spelled so that no two tokens run together, in front of `after`. */
  predicate Spelled(pieces: seq<Piece>, after: string) {
    pieces == [] ||
    (var p := pieces[0];
     && IsGap(p.gap)
     && Lexical(p.token)
     && p.token.text != ";"
     && Ends(p.token, Render(pieces[1..]) + after)
     && Spelled(pieces[1..], after))
  }

  // ------------------------------------------------------------ skipping gaps

  lemma {:induction false} SpaceIsSkipped(c: char, rest: string, statement: seq<Token>, maximum: nat)
    requires IsSpace(c)
    ensures Resume([c] + rest, statement, maximum) == Resume(rest, statement, maximum)
  {
    var s, k := [c] + rest, SpaceRun(rest);
    assert s[1..] == rest;
    assert Match(s) == Some((Space, 1 + k));
    hide Resume;
    assert s[1 + k..] == rest[k..];
    if k == 0 {
      assert rest[k..] == rest;
    } else {
      assert Match(rest) == Some((Space, k));
    }
  }

  lemma {:induction false} LineRunStable(s: string, rest: string)
    requires EndsLine(s)
    ensures LineRun(s + rest) == LineRun(s)
            || (LineRun(s + rest) == LineRun(s) + 1 && LineRun(s) == |s| && rest != [] && rest[0] == '\n')
  {
    if s[0] != '\r' && s[0] != '\n' {
      assert (s + rest)[1..] == s[1..] + rest;
      LineRunStable(s[1..], rest);
    }
  }

  lemma {:induction false} BlockRunStable(s: string, rest: string)
    requires BlockRun(s).Some?
    ensures BlockRun(s + rest) == BlockRun(s)
  {
    if !(s[0] == '*' && s[1] == '/') {
      assert (s + rest)[1..] == s[1..] + rest;
      BlockRunStable(s[1..], rest);
    }
  }

  lemma {:induction false} GapIsSkipped(g: string, rest: string, statement: seq<Token>, maximum: nat)
    requires IsGap(g)
    ensures Resume(g + rest, statement, maximum) == Resume(rest, statement, maximum)
    decreases |g|
  {
    hide Resume, LineRun, BlockRun, EndsLine;
    if g == [] {
      assert g + rest == rest;
    } else if IsSpace(g[0]) {
      SpaceIsSkipped(g[0], g[1..] + rest, statement, maximum);
      assert g + rest == [g[0]] + (g[1..] + rest);
      GapIsSkipped(g[1..], rest, statement, maximum);
    } else if g[0] == '-' {
      LineIsSkipped(g, rest, statement, maximum);
      GapIsSkipped(g[2 + LineRun(g[2..])..], rest, statement, maximum);
    } else {
      BlockIsSkipped(g, rest, statement, maximum);
      GapIsSkipped(g[2 + BlockRun(g[2..]).value..], rest, statement, maximum);
    }
  }

  lemma {:induction false} LineIsMatched(g: string, rest: string)
    requires |g| > 1 && g[0] == '-' && g[1] == '-'
    ensures (g + rest)[2..] == g[2..] + rest
    ensures Match(g + rest) == Some((Line, 2 + LineRun(g[2..] + rest)))
  {
    assert (g + rest)[2..] == g[2..] + rest;
  }

  lemma {:induction false} LineIsSkipped(g: string, rest: string, statement: seq<Token>, maximum: nat)
    requires |g| > 1 && g[0] == '-' && g[1] == '-' && EndsLine(g[2..])
    ensures Resume(g + rest, statement, maximum)
         == Resume(g[2 + LineRun(g[2..])..] + rest, statement, maximum)
  {
    hide *;
    var s, n, m := g + rest, LineRun(g[2..]), LineRun(g[2..] + rest);
    LineIsMatched(g, rest);
    LineRunStable(g[2..], rest);
    LineIsTrivia(s, 2 + m, statement, maximum);
    if m == n {
      assert s[2 + m..] == g[2 + n..] + rest;
    } else {
      assert s[2 + m..] == rest[1..] && g[2 + n..] + rest == rest && rest == [rest[0]] + rest[1..];
      NewlineIsSkipped(rest[1..], statement, maximum);
    }
  }

  lemma {:induction false} LineIsTrivia(s: string, n: nat, statement: seq<Token>, maximum: nat)
    requires s != [] && Match(s) == Some((Line, n))
    ensures Resume(s, statement, maximum) == Resume(s[n..], statement, maximum)
  {
    hide Match;
  }

  lemma {:induction false} NewlineIsSkipped(rest: string, statement: seq<Token>, maximum: nat)
    ensures Resume(['\n'] + rest, statement, maximum) == Resume(rest, statement, maximum)
  {
    SpaceIsSkipped('\n', rest, statement, maximum);
  }

  lemma {:induction false} BlockIsSkipped(g: string, rest: string, statement: seq<Token>, maximum: nat)
    requires |g| > 1 && g[0] == '/' && g[1] == '*' && BlockRun(g[2..]).Some?
    ensures Resume(g + rest, statement, maximum)
         == Resume(g[2 + BlockRun(g[2..]).value..] + rest, statement, maximum)
  {
    var s, n := g + rest, BlockRun(g[2..]).value;
    assert s[2..] == g[2..] + rest;
    BlockRunStable(g[2..], rest);
    assert Match(s) == Some((Block, n + 2));
    hide Resume, BlockRun, Match;
    assert s[2 + n..] == g[2 + n..] + rest;
  }

  // ---------------------------------------------------------- reading tokens

  lemma {:induction false} WordRunStable(s: string, rest: string)
    requires WordRun(s) == |s| && (rest == [] || !IsWordChar(rest[0]))
    ensures WordRun(s + rest) == |s|
  {
    if s == [] {
      assert s + rest == rest;
    } else {
      assert (s + rest)[1..] == s[1..] + rest;
      WordRunStable(s[1..], rest);
    }
  }

  lemma {:induction false} QuoteRunStable(s: string, q: char, given: Option<nat>, at: nat, rest: string)
    requires given.Some? ==> 0 < given.value < at
    requires QuoteRun(s, q, given, at) == Some(at + |s|) && (rest == [] || rest[0] != q)
    ensures QuoteRun(s + rest, q, given, at) == Some(at + |s|)
    decreases |s|
  {
    var longer := s + rest;
    if s[0] != q {
      assert longer[1..] == s[1..] + rest;
      QuoteRunStable(s[1..], q, given, at + 1, rest);
    } else if |s| > 1 && s[1] == q {
      assert longer[2..] == s[2..] + rest;
      QuoteRunStable(s[2..], q, Some(at + 1), at + 2, rest);
    }
  }

  lemma {:induction false} TokenIsRead(t: Token, rest: string)
    requires Lexical(t) && Ends(t, rest)
    ensures Match(t.text + rest) == Some((t.kind, |t.text|))
  {
    var s := t.text + rest;
    assert s[1..] == t.text[1..] + rest;
    match t.kind
    case Word => WordRunStable(t.text, rest); assert s[0] == t.text[0];
    case Literal => QuoteRunStable(t.text[1..], '\'', None, 1, rest);
    case Quoted => QuoteRunStable(t.text[1..], '"', None, 1, rest);
    case _ => SymbolIsRead(t, rest);
  }

  lemma {:induction false} SymbolIsRead(t: Token, rest: string)
    requires Lexical(t) && t.kind.Symbol?
    ensures Match(t.text + rest) == Some((t.kind, |t.text|))
  {
    hide SpaceRun, WordRun, LineRun, BlockRun, QuoteRun;
    var s := t.text + rest;
    assert s[0] == t.text[0];
    if t.text[0] == ':' {
      assert s[1] == t.text[1];
    }
  }

  lemma {:induction false} NoPieces(pieces: seq<Piece>)
    requires pieces == []
    ensures Render(pieces) == [] && Tokens(pieces) == []
  {
  }

  lemma {:induction false} FirstPiece(pieces: seq<Piece>, after: string)
    requires pieces != [] && Spelled(pieces, after)
    ensures var p, rest := pieces[0], Render(pieces[1..]) + after;
            && Render(pieces) + after == p.gap + (p.token.text + rest)
            && Tokens(pieces) == [p.token] + Tokens(pieces[1..])
            && IsGap(p.gap) && Lexical(p.token) && p.token.text != ";" && Ends(p.token, rest)
            && Spelled(pieces[1..], after)
  {
    hide IsGap, Lexical, Ends;
  }

  lemma {:induction false} PiecesAreRead(pieces: seq<Piece>, after: string, statement: seq<Token>, maximum: nat)
    requires Spelled(pieces, after)
    requires |statement| + |pieces| <= maximum * 2 + 32
    ensures Resume(Render(pieces) + after, statement, maximum)
         == Resume(after, statement + Tokens(pieces), maximum)
    decreases pieces
  {
    hide *;
    if pieces == [] {
      NoPieces(pieces);
      assert [] + after == after && statement + [] == statement;
    } else {
      FirstPiece(pieces, after);
      var p, later := pieces[0], pieces[1..];
      var rest := Render(later) + after;
      GapIsSkipped(p.gap, p.token.text + rest, statement, maximum);
      OneTokenIsRead(p.token, rest, statement, maximum);
      PiecesAreRead(later, after, statement + [p.token], maximum);
      assert statement + [p.token] + Tokens(later) == statement + ([p.token] + Tokens(later));
    }
  }

  lemma {:induction false} OneTokenIsRead(t: Token, rest: string, statement: seq<Token>, maximum: nat)
    requires Lexical(t) && t.text != ";" && Ends(t, rest) && |statement| < maximum * 2 + 32
    ensures Resume(t.text + rest, statement, maximum) == Resume(rest, statement + [t], maximum)
  {
    TokenIsRead(t, rest);
    hide Match;
    var s := t.text + rest;
    assert s[..|t.text|] == t.text && s[|t.text|..] == rest;
  }

  // -------------------------------------------------------------- statements

  /** A statement's pieces and the gap before its terminator. */
  datatype Written = Written(pieces: seq<Piece>, gap: string)

  function Text(w: Written): string {
    Render(w.pieces) + w.gap + ";"
  }

  predicate WellWritten(w: Written) {
    && w.pieces != []
    && IsGap(w.gap)
    && Spelled(w.pieces, w.gap + ";")
  }

  lemma {:induction false} StatementIsRead(w: Written, rest: string, maximum: nat)
    requires WellWritten(w) && |w.pieces| <= maximum * 2 + 32
    ensures Resume(Text(w) + rest, [], maximum) == Ok(Yielded(Tokens(w.pieces), rest))
  {
    hide Resume, Spelled, IsGap, Match, Render, Tokens;
    var after := w.gap + ";" + rest;
    assert Text(w) + rest == Render(w.pieces) + after;
    SpelledFurther(w.pieces, w.gap + ";", rest);
    assert w.gap + ";" + rest == (w.gap + ";") + rest;
    PiecesAreRead(w.pieces, after, [], maximum);
    assert [] + Tokens(w.pieces) == Tokens(w.pieces);
    assert after == w.gap + (";" + rest);
    GapIsSkipped(w.gap, ";" + rest, Tokens(w.pieces), maximum);
    TerminatorYields(rest, Tokens(w.pieces), maximum);
  }

  lemma {:induction false} TerminatorYields(rest: string, statement: seq<Token>, maximum: nat)
    requires statement != []
    ensures Resume(";" + rest, statement, maximum) == Ok(Yielded(statement, rest))
  {
    var s := ";" + rest;
    assert Match(s) == Some((Symbol, 1));
    hide Match;
    assert s[..1] == ";" && s[1..] == rest;
  }

  lemma {:induction false} SpelledFurther(pieces: seq<Piece>, after: string, rest: string)
    requires Spelled(pieces, after) && after != []
    ensures Spelled(pieces, after + rest)
    decreases pieces
  {
    if pieces != [] {
      SpelledFurther(pieces[1..], after, rest);
      assert Render(pieces[1..]) + (after + rest) == (Render(pieces[1..]) + after) + rest;
    }
  }

  /** What may come after the last statement: a gap, perhaps with a line comment the text ends in. */
  predicate IsTail(g: string) {
    IsGap(g) || exists k :: 0 <= k < |g| - 1 && IsGap(g[..k]) && g[k] == '-' && g[k + 1] == '-' && !EndsLine(g[k + 2..])
  }

  lemma {:induction false} TailIsExhausted(g: string, maximum: nat)
    requires IsTail(g)
    ensures Resume(g, [], maximum) == Ok(Exhausted)
  {
    hide Resume, IsGap, Match;
    if IsGap(g) {
      GapIsSkipped(g, [], [], maximum);
      assert g + [] == g;
    } else {
      var k :| 0 <= k < |g| - 1 && IsGap(g[..k]) && g[k] == '-' && g[k + 1] == '-' && !EndsLine(g[k + 2..]);
      GapIsSkipped(g[..k], g[k..], [], maximum);
      assert g[..k] + g[k..] == g && g[k..][2..] == g[k + 2..];
      OpenLineIsSkipped(g[k..], maximum);
    }
    NothingIsExhausted(maximum);
  }

  lemma {:induction false} NothingIsExhausted(maximum: nat)
    ensures Resume([], [], maximum) == Ok(Exhausted)
  {
  }

  lemma {:induction false} OpenLineIsSkipped(s: string, maximum: nat)
    requires |s| > 1 && s[0] == '-' && s[1] == '-' && !EndsLine(s[2..])
    ensures Resume(s, [], maximum) == Resume([], [], maximum)
  {
    OpenLineRun(s[2..]);
    assert Match(s) == Some((Line, |s|));
    hide Match, Resume;
    assert s[|s|..] == [];
  }

  lemma {:induction false} OpenLineRun(s: string)
    requires !EndsLine(s)
    ensures LineRun(s) == |s|
  {
    if s != [] {
      OpenLineRun(s[1..]);
    }
  }
}
