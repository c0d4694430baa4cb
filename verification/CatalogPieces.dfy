/**
  Views as the pipeline prints them: the text of one view, the tokens it is read as, and what the
  reader makes of them.
 */
module CatalogPieces {
  import opened Wrappers
  import opened CatalogLexer
  import opened CatalogRendering
  import opened CatalogParser
  import opened CatalogRoundTrip
  import opened LogicalPath

  // -------------------------------------------------------------- the writer

  datatype View = View(name: string, definition: Definition)

  function Lines(paths: seq<string>): string
    requires paths != []
  {
    if |paths| == 1 then "    " + Quote(paths[0]) else "    " + Quote(paths[0]) + ",\n" + Lines(paths[1..])
  }

  function BoolText(b: bool): string {
    if b then "true" else "false"
  }

  function FlagText(flag: Option<bool>): string {
    match flag
    case None => ""
    case Some(b) => ", " + ("union_by_name" + (" := " + BoolText(b)))
  }

  function BodyText(d: Definition): string
    requires d.paths != []
  {
    "\nSELECT * FROM read_parquet([" + ("\n" + Lines(d.paths)) + "\n]" + FlagText(d.unionByName) + ")"
  }

  function CreateText(name: string): string {
    "CREATE OR REPLACE VIEW " + name + " AS"
  }

  function ViewText(v: View): string
    requires v.definition.paths != []
  {
    CreateText(v.name) + BodyText(v.definition) + ";\n"
  }

  // -------------------------------------------------------- pieces of a view

  function P(gap: string, kind: Kind, text: string): Piece {
    Piece(gap, Token(kind, text))
  }

  function CreatePieces(lead: string, name: string): seq<Piece> {
    [P(lead, Word, "CREATE"), P(" ", Word, "OR"), P(" ", Word, "REPLACE"), P(" ", Word, "VIEW"), P(" ", Word, name),
     P(" ", Word, "AS")]
  }

  const SELECT_PIECES := [
    P("\n", Word, "SELECT"), P(" ", Symbol, "*"), P(" ", Word, "FROM"), P(" ", Word, "read_parquet"),
    P("", Symbol, "("), P("", Symbol, "[")]

  function PathPieces(paths: seq<string>): seq<Piece> {
    if paths == [] then []
    else if |paths| == 1 then [P("\n    ", Literal, Quote(paths[0]))]
    else [P("\n    ", Literal, Quote(paths[0])), P("", Symbol, ",")] + PathPieces(paths[1..])
  }

  function FlagPieces(flag: Option<bool>): seq<Piece> {
    match flag
    case None => []
    case Some(b) =>
      [P("", Symbol, ","), P(" ", Word, "union_by_name"), P(" ", Symbol, ":="), P(" ", Word, BoolText(b))]
  }

  const CLOSE := [P("\n", Symbol, "]")]

  function LastPieces(flag: Option<bool>): seq<Piece> {
    FlagPieces(flag) + [P("", Symbol, ")")]
  }

  function BodyPieces(d: Definition): seq<Piece> {
    SELECT_PIECES + PathPieces(d.paths) + CLOSE + LastPieces(d.unionByName)
  }

  function Spelling(lead: string, v: View): Written {
    Written(CreatePieces(lead, v.name) + BodyPieces(v.definition), "")
  }

  // -------------------------------------------- pieces that do not run together

  /** Every piece is read on its own and does not run into the next. */
  ghost predicate Sound(pieces: seq<Piece>) {
    && (forall i :: 0 <= i < |pieces| ==> SoundPiece(pieces[i]))
    && (forall i :: 0 <= i < |pieces| - 1 ==> Joins(pieces[i], pieces[i + 1]))
  }

  predicate SoundPiece(p: Piece) {
    IsGap(p.gap) && Lexical(p.token) && p.token.text != ";"
  }

  predicate Joins(p: Piece, q: Piece) {
    Ends(p.token, q.gap + q.token.text)
  }

  lemma {:induction false} EndsByFirst(t: Token, a: string, b: string)
    requires Ends(t, a) && a != [] && a <= b
    ensures Ends(t, b)
  {
  }

  lemma {:induction false} SoundIsSpelled(pieces: seq<Piece>, after: string)
    requires Sound(pieces) && (pieces != [] ==> Ends(pieces[|pieces| - 1].token, after))
    ensures Spelled(pieces, after)
    decreases |pieces|
  {
    hide Lexical, Ends, IsGap;
    if pieces != [] {
      var rest := pieces[1..];
      if rest == [] {
        assert Render(rest) + after == after;
      } else {
        assert Joins(pieces[0], pieces[0 + 1]) && SoundPiece(pieces[1]);
        assert forall i :: 0 <= i < |rest| ==> rest[i] == pieces[i + 1];
        forall i | 0 <= i < |rest| - 1 ensures Joins(rest[i], rest[i + 1]) {
          assert Joins(pieces[i + 1], pieces[i + 1 + 1]);
        }
        SoundIsSpelled(rest, after);
        NonemptyText(rest[0]);
        EndsByFirst(pieces[0].token, rest[0].gap + rest[0].token.text, Render(rest) + after);
      }
      assert SoundPiece(pieces[0]);
    }
  }

  lemma {:induction false} NonemptyText(p: Piece)
    requires SoundPiece(p)
    ensures p.gap + p.token.text != []
  {
  }

  lemma {:induction false} SoundAppend(a: seq<Piece>, b: seq<Piece>)
    requires Sound(a) && Sound(b)
    requires a != [] && b != [] ==> Joins(a[|a| - 1], b[0])
    ensures Sound(a + b)
  {
    hide SoundPiece, Joins;
    forall i | 0 <= i < |a + b| - 1 ensures Joins((a + b)[i], (a + b)[i + 1]) {
      if i < |a| - 1 {
        assert Joins(a[i], a[i + 1]);
      } else if i >= |a| {
        assert Joins(b[i - |a|], b[i - |a| + 1]);
      }
    }
  }

  lemma {:induction false} WordRunIsAll(s: string)
    requires AllWordChars(s)
    ensures WordRun(s) == |s|
  {
    if s != [] {
      WordRunIsAll(s[1..]);
    }
  }

  lemma {:induction false} WordIsSound(gap: string, text: string)
    requires IsGap(gap) && text != [] && IsLetter(text[0]) && AllWordChars(text)
    ensures SoundPiece(P(gap, Word, text))
  {
    hide WordRun, IsGap;
    WordRunIsAll(text);
    assert text != ";" by {
      assert ";"[0] == ';';
    }
  }

  lemma {:induction false} SymbolIsSound(gap: string, c: char)
    requires IsGap(gap) && IsSymbolChar(c) && c != ';'
    ensures SoundPiece(P(gap, Symbol, [c]))
  {
    hide IsGap;
  }

  lemma {:induction false} AssignIsSound(gap: string)
    requires IsGap(gap)
    ensures SoundPiece(P(gap, Symbol, ":="))
  {
    hide IsGap;
  }

  lemma {:induction false} QuoteIsLexical(path: string)
    ensures Lexical(Token(Literal, Quote(path))) && Quote(path)[0] == '\''
  {
    var text := Quote(path);
    assert text[1..] == Double(path) + "'";
    assert |text| == |Double(path)| + 2 && text[0] == '\'';
    DoubledRun(path, None, 1);
    assert QuoteRun(text[1..], '\'', None, 1) == Some(|text|);
    assert Match(text) == Some((Literal, |text|));
  }

  lemma {:induction false} QuoteIsSound(gap: string, path: string)
    requires IsGap(gap)
    ensures SoundPiece(P(gap, Literal, Quote(path)))
  {
    hide IsGap, Double;
    QuoteIsLexical(path);
    assert ";"[0] == ';';
  }

  lemma {:induction false} SpacesAreGap(g: string)
    requires forall i :: 0 <= i < |g| ==> IsSpace(g[i])
    ensures IsGap(g)
  {
    if g != [] {
      SpacesAreGap(g[1..]);
    }
  }

  lemma {:induction false} CreateIsSound(lead: string, name: string)
    requires IsGap(lead) && IsWord(name)
    ensures Sound(CreatePieces(lead, name))
  {
    hide IsGap, Lexical;
    SpacesAreGap(" ");
    WordIsSound(lead, "CREATE");
    WordIsSound(" ", "OR");
    WordIsSound(" ", "REPLACE");
    WordIsSound(" ", "VIEW");
    WordIsSound(" ", name);
    WordIsSound(" ", "AS");
    hide SoundPiece;
  }

  lemma {:induction false} SelectIsSound()
    ensures Sound(SELECT_PIECES)
  {
    hide IsGap, Lexical;
    SpacesAreGap("");
    SpacesAreGap(" ");
    SpacesAreGap("\n");
    WordIsSound("\n", "SELECT");
    SymbolIsSound(" ", '*');
    WordIsSound(" ", "FROM");
    WordIsSound(" ", "read_parquet");
    SymbolIsSound("", '(');
    SymbolIsSound("", '[');
    hide SoundPiece;
  }

  lemma {:induction false} PathsAreSound(paths: seq<string>)
    requires paths != []
    ensures Sound(PathPieces(paths))
    ensures PathPieces(paths) != [] && PathPieces(paths)[0] == P("\n    ", Literal, Quote(paths[0]))
    ensures PathPieces(paths)[|PathPieces(paths)| - 1].token.kind == Literal
    decreases |paths|
  {
    hide IsGap, Lexical, Quote;
    SpacesAreGap("");
    SpacesAreGap("\n    ");
    QuoteIsSound("\n    ", paths[0]);
    SymbolIsSound("", ',');
    hide SoundPiece;
    if |paths| > 1 {
      PathsAreSound(paths[1..]);
      var first := [P("\n    ", Literal, Quote(paths[0])), P("", Symbol, ",")];
      assert Sound(first);
      SoundAppend(first, PathPieces(paths[1..]));
    }
  }

  lemma {:induction false} FlagIsSound(flag: Option<bool>)
    ensures Sound(LastPieces(flag))
  {
    hide IsGap, Lexical;
    SpacesAreGap("");
    SpacesAreGap(" ");
    SymbolIsSound("", ',');
    SymbolIsSound("", ')');
    AssignIsSound(" ");
    WordIsSound(" ", "union_by_name");
    WordIsSound(" ", "true");
    WordIsSound(" ", "false");
    hide SoundPiece;
  }

  lemma {:induction false} BodyIsSound(d: Definition)
    requires d.paths != []
    ensures Sound(BodyPieces(d)) && |BodyPieces(d)| > 0
    ensures BodyPieces(d)[0] == P("\n", Word, "SELECT")
    ensures BodyPieces(d)[|BodyPieces(d)| - 1].token.kind == Symbol
  {
    hide *;
    SelectIsSound();
    PathsAreSound(d.paths);
    FlagIsSound(d.unionByName);
    CloseIsSound();
    PiecesJoin(d);
    SoundAppend(SELECT_PIECES, PathPieces(d.paths));
    SoundAppend(SELECT_PIECES + PathPieces(d.paths), CLOSE);
    SoundAppend(SELECT_PIECES + PathPieces(d.paths) + CLOSE, LastPieces(d.unionByName));
  }

  lemma {:induction false} CloseIsSound()
    ensures Sound(CLOSE)
  {
    SpacesAreGap("\n");
    SymbolIsSound("\n", ']');
    hide SoundPiece;
  }

  lemma {:induction false} PiecesJoin(d: Definition)
    requires d.paths != []
    ensures var paths, last := PathPieces(d.paths), LastPieces(d.unionByName);
            && paths != [] && last != [] && CLOSE != []
            && BodyPieces(d) == SELECT_PIECES + paths + CLOSE + last
            && Joins(SELECT_PIECES[|SELECT_PIECES| - 1], paths[0])
            && Joins(paths[|paths| - 1], CLOSE[0])
            && Joins(CLOSE[|CLOSE| - 1], last[0])
            && SELECT_PIECES != [] && SELECT_PIECES[0] == P("\n", Word, "SELECT")
            && last[|last| - 1].token.kind == Symbol
  {
    PathsAreSound(d.paths);
    hide Sound, PathPieces, FlagPieces;
    var paths, last := PathPieces(d.paths), LastPieces(d.unionByName);
    assert BodyPieces(d) == SELECT_PIECES + paths + CLOSE + last;
  }

  /** A printed view is well written, whatever gap stands before it. */
  lemma {:induction false} ViewIsWritten(lead: string, v: View)
    requires IsGap(lead) && IsWord(v.name) && v.definition.paths != []
    ensures WellWritten(Spelling(lead, v))
  {
    hide BodyPieces, Sound, Spelled;
    CreateIsSound(lead, v.name);
    BodyIsSound(v.definition);
    SoundAppend(CreatePieces(lead, v.name), BodyPieces(v.definition));
    SoundIsSpelled(CreatePieces(lead, v.name) + BodyPieces(v.definition), ";");
    assert "" + ";" == ";";
  }

  // ------------------------------------------------------- tokens of a view

  lemma {:induction false} TokensAt(pieces: seq<Piece>, i: nat)
    requires i < |pieces|
    ensures Tokens(pieces)[i] == pieces[i].token
  {
    if i > 0 {
      TokensAt(pieces[1..], i - 1);
    }
  }

  lemma {:induction false} TokensOfAll(pieces: seq<Piece>)
    ensures |Tokens(pieces)| == |pieces|
    ensures forall i :: 0 <= i < |pieces| ==> Tokens(pieces)[i] == pieces[i].token
  {
    forall i | 0 <= i < |pieces| ensures Tokens(pieces)[i] == pieces[i].token {
      TokensAt(pieces, i);
    }
  }

  function EntryOf(v: View): Entry {
    Entry(v.name, Tokens(BodyPieces(v.definition)))
  }

  lemma {:induction false} CapitalsStay(text: string)
    requires forall i :: 0 <= i < |text| ==> !('a' <= text[i] <= 'z')
    ensures Upper(text) == text
  {
  }

  lemma {:induction false} ViewSpellsEntry(lead: string, v: View)
    requires IsName(v.name) && v.definition.paths != []
    ensures SpellsEntry(Tokens(Spelling(lead, v).pieces), EntryOf(v))
  {
    var create, body := CreatePieces(lead, v.name), BodyPieces(v.definition);
    TokensOfAll(create + body);
    TokensOfAll(body);
    hide BodyPieces, Tokens, IsName;
    var tokens := Tokens(create + body);
    CapitalsStay("CREATE");
    CapitalsStay("OR");
    CapitalsStay("REPLACE");
    CapitalsStay("VIEW");
    CapitalsStay("AS");
    assert forall i :: 0 <= i < 6 ==> tokens[i] == create[i].token;
    assert tokens[6..] == Tokens(body);
  }

  lemma {:induction false} PathPieceAt(paths: seq<string>, k: nat)
    requires paths != [] && k < 2 * |paths| - 1
    ensures |PathPieces(paths)| == 2 * |paths| - 1
    ensures PathPieces(paths)[k].token ==
            if k % 2 == 0 then Token(Literal, Quote(paths[k / 2])) else Token(Symbol, ",")
    decreases |paths|
  {
    hide Quote;
    if |paths| > 1 {
      var first := [P("\n    ", Literal, Quote(paths[0])), P("", Symbol, ",")];
      PathPieceAt(paths[1..], if k < 2 then 0 else k - 2);
      assert PathPieces(paths) == first + PathPieces(paths[1..]);
      hide PathPieces;
      if k >= 2 {
        assert k / 2 == (k - 2) / 2 + 1;
      }
    }
  }

  function FlagLength(flag: Option<bool>): nat {
    if flag.Some? then 4 else 0
  }

  /** The tokens of a printed body, by position. */
  ghost predicate PrintedBody(tokens: seq<Token>, d: Definition) {
    var n := |d.paths|;
    && n > 0
    && |tokens| == 7 + 2 * n + FlagLength(d.unionByName)
    && (forall k :: 0 <= k < 6 ==> tokens[k] == SELECT_PIECES[k].token)
    && (forall k :: 6 <= k < 5 + 2 * n ==>
          tokens[k] == if k % 2 == 0 then Token(Literal, Quote(d.paths[k / 2 - 3])) else Token(Symbol, ","))
    && tokens[5 + 2 * n] == Token(Symbol, "]")
    && (forall k :: 6 + 2 * n <= k < |tokens| - 1 ==> tokens[k] == FlagPieces(d.unionByName)[k - 6 - 2 * n].token)
    && tokens[|tokens| - 1] == Token(Symbol, ")")
  }

  lemma {:induction false} BodyIsPrinted(d: Definition)
    requires d.paths != []
    ensures PrintedBody(Tokens(BodyPieces(d)), d)
  {
    var n, body := |d.paths|, BodyPieces(d);
    TokensOfAll(body);
    hide Tokens, Quote, PathPieces;
    PathPieceAt(d.paths, 0);
    var paths := PathPieces(d.paths);
    assert body == SELECT_PIECES + paths + CLOSE + LastPieces(d.unionByName);
    forall k | 6 <= k < 5 + 2 * n
      ensures body[k].token == if k % 2 == 0 then Token(Literal, Quote(d.paths[k / 2 - 3])) else Token(Symbol, ",")
    {
      PathPieceAt(d.paths, k - 6);
      assert body[k] == paths[k - 6];
    }
  }

  // ------------------------------------------------- what the reader makes of it

  ghost predicate AllSafe(paths: seq<string>) {
    forall i :: 0 <= i < |paths| ==> LogicalParts(paths[i], true).Some?
  }

  lemma {:induction false} PathAtQuoted(tokens: seq<Token>, position: nat, path: string)
    requires position < |tokens| && tokens[position] == Token(Literal, Quote(path))
    ensures PathAt(tokens, position) == if LogicalParts(path, true).Some? then Some(path) else None
  {
    UndoubleDouble(path);
    assert Inside(Quote(path)) == Double(path);
  }

  /** Behind the `i`-th path stands a comma with the next path, or the closing bracket. */
  lemma {:induction false} BehindPath(tokens: seq<Token>, d: Definition, i: nat)
    requires PrintedBody(tokens, d) && 1 <= i <= |d.paths|
    ensures 5 + 2 * i + 1 < |tokens|
    ensures i < |d.paths| ==>
      Takes(tokens, 5 + 2 * i, ",") && tokens[5 + 2 * i].text == ","
      && tokens[6 + 2 * i] == Token(Literal, Quote(d.paths[i]))
    ensures i == |d.paths| ==> tokens[5 + 2 * i].text != ","
  {
    hide Quote, FlagPieces;
    CapitalsStay(",");
  }

  lemma {:induction false} MoreStarts(tokens: seq<Token>, k: nat)
    requires k < |tokens|
    ensures tokens[k].text != "," ==> MorePaths(tokens, k) == Some(([], k))
    ensures Takes(tokens, k, ",") && tokens[k].text == "," ==>
      MorePaths(tokens, k) ==
      if PathAt(tokens, k + 1).None? || MorePaths(tokens, k + 2).None? then None
      else
        var (more, after) := MorePaths(tokens, k + 2).value;
        Some(([PathAt(tokens, k + 1).value] + more, after))
  {
    hide Takes, PathAt;
  }

  lemma {:induction false} MorePrinted(tokens: seq<Token>, d: Definition, i: nat)
    requires PrintedBody(tokens, d) && 1 <= i <= |d.paths|
    ensures MorePaths(tokens, 5 + 2 * i) ==
            if AllSafe(d.paths[i..]) then Some((d.paths[i..], 5 + 2 * |d.paths|)) else None
    decreases |d.paths| - i
  {
    hide *;
    BehindPath(tokens, d, i);
    MoreStarts(tokens, 5 + 2 * i);
    if i == |d.paths| {
      assert d.paths[i..] == [];
      NothingIsSafe();
    } else {
      PathAtQuoted(tokens, 6 + 2 * i, d.paths[i]);
      MorePrinted(tokens, d, i + 1);
      assert d.paths[i..] == [d.paths[i]] + d.paths[i + 1..];
      FirstIsSafe(d.paths[i], d.paths[i + 1..]);
    }
  }

  lemma {:induction false} NothingIsSafe()
    ensures AllSafe([])
  {
  }

  lemma {:induction false} FirstIsSafe(path: string, more: seq<string>)
    ensures AllSafe([path] + more) <==> LogicalParts(path, true).Some? && AllSafe(more)
  {
    hide LogicalParts;
    if AllSafe([path] + more) {
      assert ([path] + more)[0] == path;
      forall i | 0 <= i < |more| ensures LogicalParts(more[i], true).Some? {
        assert ([path] + more)[i + 1] == more[i];
      }
    }
  }

  lemma {:induction false} EndIsPrinted(tokens: seq<Token>, d: Definition)
    requires PrintedBody(tokens, d)
    ensures SpellsEnd(tokens, 6 + 2 * |d.paths|, d.unionByName)
  {
    var p := 6 + 2 * |d.paths|;
    CapitalsStay(",");
    CapitalsStay(")");
    assert Upper("union_by_name") == "UNION_BY_NAME" && Upper("true") == "TRUE" && Upper("false") == "FALSE";
    hide Quote, Upper;
    if d.unionByName.Some? {
      assert forall k :: 0 <= k < 4 ==> tokens[p + k] == FlagPieces(d.unionByName)[k].token;
    }
  }

  lemma {:induction false} HeadIsPrinted(tokens: seq<Token>, d: Definition)
    requires PrintedBody(tokens, d)
    ensures TakesHead(tokens)
  {
    CapitalsStay("SELECT");
    CapitalsStay("*");
    CapitalsStay("FROM");
    CapitalsStay("(");
    assert Upper("read_parquet") == "READ_PARQUET";
    hide Upper, Quote;
  }

  lemma {:induction false} SourceInBrackets(tokens: seq<Token>)
    requires |tokens| > 5 && tokens[5].text == "[" && Takes(tokens, 5, "[")
    ensures Source(tokens, 5) ==
            if PathAt(tokens, 6).None? || MorePaths(tokens, 7).None? then None
            else
              var (more, after) := MorePaths(tokens, 7).value;
              if Takes(tokens, after, "]") then Some(([PathAt(tokens, 6).value] + more, after + 1)) else None
  {
    hide PathAt, MorePaths, Takes;
  }

  lemma {:induction false} SourceIsPrinted(tokens: seq<Token>, d: Definition)
    requires PrintedBody(tokens, d)
    ensures Source(tokens, 5) == if AllSafe(d.paths) then Some((d.paths, 6 + 2 * |d.paths|)) else None
  {
    hide *;
    BracketsAreTaken(tokens, d);
    PathAtQuoted(tokens, 6, d.paths[0]);
    MorePrinted(tokens, d, 1);
    FirstIsSafe(d.paths[0], d.paths[1..]);
    SourceInBrackets(tokens);
    assert d.paths == [d.paths[0]] + d.paths[1..];
  }

  lemma {:induction false} DefinitionFrom(tokens: seq<Token>)
    requires TakesHead(tokens)
    ensures Source(tokens, 5).None? ==> DefinitionOf(tokens) == None
    ensures forall p, paths, flag, q | Source(tokens, 5) == Some((paths, p)) && Flag(tokens, p) == Some((flag, q)) ::
      DefinitionOf(tokens) == if Takes(tokens, q, ")") && q + 1 == |tokens| then Some(Definition(paths, flag)) else None
  {
    hide TakesHead, Source, Flag, Takes;
  }

  /** The reader understands a printed view exactly when all its references are safe, and then reads the definition. */
  lemma {:induction false} PrintedIsUnderstoodIffSafe(d: Definition)
    requires d.paths != []
    ensures DefinitionOf(Tokens(BodyPieces(d))) == if AllSafe(d.paths) then Some(d) else None
  {
    hide *;
    var tokens := Tokens(BodyPieces(d));
    BodyIsPrinted(d);
    HeadIsPrinted(tokens, d);
    EndIsPrinted(tokens, d);
    EndIsFlag(tokens, 6 + 2 * |d.paths|, d.unionByName);
    SourceIsPrinted(tokens, d);
    DefinitionFrom(tokens);
  }

  lemma {:induction false} BracketsAreTaken(tokens: seq<Token>, d: Definition)
    requires PrintedBody(tokens, d)
    ensures |tokens| > 6 && d.paths != []
    ensures tokens[5].text == "[" && Takes(tokens, 5, "[") && Takes(tokens, 5 + 2 * |d.paths|, "]")
    ensures tokens[6] == Token(Literal, Quote(d.paths[0]))
  {
    CapitalsStay("[");
    CapitalsStay("]");
    hide Upper, Quote;
  }

  // -------------------------------------------------------- the text of a view

  lemma {:induction false} RenderAppend(a: seq<Piece>, b: seq<Piece>)
    ensures Render(a + b) == Render(a) + Render(b)
  {
    if a == [] {
      assert a + b == b && Render(a) + Render(b) == Render(b);
    } else {
      assert (a + b)[1..] == a[1..] + b;
      RenderAppend(a[1..], b);
      assert a[0].gap + a[0].token.text + (Render(a[1..]) + Render(b))
          == a[0].gap + a[0].token.text + Render(a[1..]) + Render(b);
    }
  }

  lemma {:induction false} RenderOne(p: Piece)
    ensures Render([p]) == p.gap + p.token.text
  {
    assert Render([p][1..]) == [];
  }

  lemma {:induction false} RenderFirst(p: Piece, rest: seq<Piece>)
    ensures Render([p] + rest) == p.gap + p.token.text + Render(rest)
  {
    assert ([p] + rest)[1..] == rest;
  }

  lemma {:induction false} CreateIsRendered(lead: string, name: string)
    ensures Render(CreatePieces(lead, name)) == lead + CreateText(name)
  {
    var c := CreatePieces(lead, name);
    hide Render;
    assert c == [c[0]] + ([c[1]] + ([c[2]] + ([c[3]] + ([c[4]] + [c[5]]))));
    RenderOne(c[5]);
    RenderFirst(c[4], [c[5]]);
    RenderFirst(c[3], [c[4]] + [c[5]]);
    RenderFirst(c[2], [c[3]] + ([c[4]] + [c[5]]));
    RenderFirst(c[1], [c[2]] + ([c[3]] + ([c[4]] + [c[5]])));
    RenderFirst(c[0], [c[1]] + ([c[2]] + ([c[3]] + ([c[4]] + [c[5]]))));
  }

  lemma {:induction false} SelectIsRendered()
    ensures Render(SELECT_PIECES) == "\nSELECT * FROM read_parquet(["
  {
    var c := SELECT_PIECES;
    hide Render;
    assert c == [c[0]] + ([c[1]] + ([c[2]] + ([c[3]] + ([c[4]] + [c[5]]))));
    RenderOne(c[5]);
    RenderFirst(c[4], [c[5]]);
    RenderFirst(c[3], [c[4]] + [c[5]]);
    RenderFirst(c[2], [c[3]] + ([c[4]] + [c[5]]));
    RenderFirst(c[1], [c[2]] + ([c[3]] + ([c[4]] + [c[5]])));
    RenderFirst(c[0], [c[1]] + ([c[2]] + ([c[3]] + ([c[4]] + [c[5]]))));
  }

  lemma {:induction false} NextLine(quote: string, lines: string)
    ensures "\n    " + quote + ("" + "," + ("\n" + lines)) == "\n" + ("    " + quote + ",\n" + lines)
    ensures "\n    " + quote == "\n" + ("    " + quote)
  {
    assert "" + "," + ("\n" + lines) == ",\n" + lines;
    assert "\n    " == "\n" + "    ";
  }

  lemma {:induction false} PathsAreRendered(paths: seq<string>)
    requires paths != []
    ensures Render(PathPieces(paths)) == "\n" + Lines(paths)
    decreases |paths|
  {
    hide Render, Quote;
    var quote := Quote(paths[0]);
    var first := P("\n    ", Literal, quote);
    if |paths| == 1 {
      RenderOne(first);
      NextLine(quote, "");
      assert PathPieces(paths) == [first];
    } else {
      MoreLines(paths);
      PathsAreRendered(paths[1..]);
      hide Lines, PathPieces;
      NextLine(quote, Lines(paths[1..]));
    }
  }

  lemma {:induction false} MoreLines(paths: seq<string>)
    requires |paths| > 1
    ensures Render(PathPieces(paths)) == "\n    " + Quote(paths[0]) + ("" + "," + Render(PathPieces(paths[1..])))
    ensures Lines(paths) == "    " + Quote(paths[0]) + ",\n" + Lines(paths[1..])
  {
    hide Render, Quote;
    var first, comma, rest := P("\n    ", Literal, Quote(paths[0])), P("", Symbol, ","), PathPieces(paths[1..]);
    assert PathPieces(paths) == [first] + ([comma] + rest);
    hide PathPieces, Lines;
    RenderFirst(comma, rest);
    RenderFirst(first, [comma] + rest);
  }

  lemma {:induction false} FlagIsRendered(flag: Option<bool>)
    ensures Render(FlagPieces(flag)) == FlagText(flag)
  {
    if flag.Some? {
      var c := FlagPieces(flag);
      hide Render, BoolText;
      assert c == [c[0]] + ([c[1]] + ([c[2]] + [c[3]]));
      RenderOne(c[3]);
      RenderFirst(c[2], [c[3]]);
      RenderFirst(c[1], [c[2]] + [c[3]]);
      RenderFirst(c[0], [c[1]] + ([c[2]] + [c[3]]));
    }
  }

  lemma {:induction false} LastIsRendered(flag: Option<bool>)
    ensures Render(LastPieces(flag)) == FlagText(flag) + ")"
  {
    var last := P("", Symbol, ")");
    FlagIsRendered(flag);
    RenderOne(last);
    RenderAppend(FlagPieces(flag), [last]);
    hide Render, FlagText, FlagPieces;
    assert "" + ")" == ")";
  }

  lemma {:induction false} BodyIsRendered(d: Definition)
    requires d.paths != []
    ensures Render(BodyPieces(d)) == BodyText(d)
  {
    hide Render, Lines, PathPieces, LastPieces, FlagText;
    var paths := PathPieces(d.paths);
    SelectIsRendered();
    PathsAreRendered(d.paths);
    LastIsRendered(d.unionByName);
    RenderOne(CLOSE[0]);
    RenderAppend(SELECT_PIECES, paths);
    RenderAppend(SELECT_PIECES + paths, CLOSE);
    RenderAppend(SELECT_PIECES + paths + CLOSE, LastPieces(d.unionByName));
  }

  /** The pieces of a view make up its text. */
  lemma {:induction false} ViewTextIsSpelled(lead: string, v: View)
    requires v.definition.paths != []
    ensures Text(Spelling(lead, v)) + "\n" == lead + ViewText(v)
  {
    var create, body := CreateText(v.name), BodyText(v.definition);
    hide *;
    CreateIsRendered(lead, v.name);
    BodyIsRendered(v.definition);
    RenderAppend(CreatePieces(lead, v.name), BodyPieces(v.definition));
    Terminated(lead, create, body);
  }

  lemma {:induction false} Terminated(lead: string, create: string, body: string)
    ensures lead + create + body + "" + ";" + "\n" == lead + (create + body + ";\n")
  {
    assert ";" + "\n" == ";\n";
    assert lead + create + body + "" == lead + (create + body);
  }
}
