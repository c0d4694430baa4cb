/**
  What parsing gives on every catalog that can be written from view definitions: the grammar of a
  definition in both directions, literals, and whole catalogs.
 */
module CatalogRoundTrip {
  import opened Wrappers
  import opened CatalogLexer
  import opened CatalogRendering
  import opened CatalogParser
  import opened LogicalPath

  // ------------------------------------------------- the definition grammar

  /** `paths`, each behind a comma, from a position on. */
  ghost predicate SpellsMore(tokens: seq<Token>, position: nat, paths: seq<string>)
    decreases paths
  {
    paths == [] ||
    (&& Takes(tokens, position, ",")
     && PathAt(tokens, position + 1) == Some(paths[0])
     && SpellsMore(tokens, position + 2, paths[1..]))
  }

  /** The rest of a definition after its source: an option, perhaps, and the closing parenthesis. */
  ghost predicate SpellsEnd(tokens: seq<Token>, position: nat, flag: Option<bool>) {
    match flag
    case None => |tokens| == position + 1 && Takes(tokens, position, ")")
    case Some(b) =>
      && |tokens| == position + 5
      && Takes(tokens, position, ",")
      && Takes(tokens, position + 1, "UNION_BY_NAME")
      && (tokens[position + 2].text == "=" || tokens[position + 2].text == ":=")
      && Upper(tokens[position + 3].text) == (if b then "TRUE" else "FALSE")
      && Takes(tokens, position + 4, ")")
  }

  /** `SELECT * FROM read_parquet(...)` of one path, or of a bracketed list of them, in any letter case. */
  ghost predicate SpellsDefinition(tokens: seq<Token>, d: Definition) {
    var n := |d.paths|;
    && TakesHead(tokens)
    && n > 0
    && (|| (n == 1 && PathAt(tokens, 5) == Some(d.paths[0]) && SpellsEnd(tokens, 6, d.unionByName))
        || (&& Takes(tokens, 5, "[")
            && PathAt(tokens, 6) == Some(d.paths[0])
            && SpellsMore(tokens, 7, d.paths[1..])
            && Takes(tokens, 5 + 2 * n, "]")
            && SpellsEnd(tokens, 6 + 2 * n, d.unionByName)))
  }

  lemma {:induction false} UpperSymbol(s: string, c: char)
    requires c == ',' || c == '[' || c == ']' || c == ')'
    ensures Upper(s) == [c] <==> s == [c]
  {
    if Upper(s) == [c] {
      assert UpperChar(s[0]) == Upper(s)[0];
    }
    if s == [c] {
      assert Upper(s)[0] == UpperChar(s[0]);
    }
  }

  /** Every comma-separated tail is found by the cursor, and whatever it finds is one. */
  lemma {:induction false} MorePathsIsMaximal(tokens: seq<Token>, position: nat, paths: seq<string>, after: nat)
    requires !(after < |tokens| && tokens[after].text == ",")
    ensures MorePaths(tokens, position) == Some((paths, after)) <==>
              after == position + 2 * |paths| && SpellsMore(tokens, position, paths)
    decreases |tokens| - position
  {
    hide PathAt;
    if position < |tokens| {
      UpperSymbol(tokens[position].text, ',');
      if tokens[position].text == "," && paths != [] {
        MorePathsIsMaximal(tokens, position + 2, paths[1..], after);
        assert paths == [paths[0]] + paths[1..];
      }
    }
  }

  /** The parser accepts exactly the spellings of a definition, and reads that definition from each. */
  lemma {:induction false} DefinitionIffSpelled(tokens: seq<Token>, d: Definition)
    ensures DefinitionOf(tokens) == Some(d) <==> SpellsDefinition(tokens, d)
  {
    if TakesHead(tokens) {
      if SpellsDefinition(tokens, d) {
        SpelledIsParsed(tokens, d);
      }
      if DefinitionOf(tokens) == Some(d) {
        ParsedIsSpelled(tokens, d);
      }
    }
  }

  lemma {:induction false} SpelledIsParsed(tokens: seq<Token>, d: Definition)
    requires SpellsDefinition(tokens, d)
    ensures DefinitionOf(tokens) == Some(d)
  {
    hide TakesHead, PathAt, MorePaths, SpellsMore;
    var n := |d.paths|;
    if n == 1 && PathAt(tokens, 5) == Some(d.paths[0]) && SpellsEnd(tokens, 6, d.unionByName) {
      BracketIsNoPath(tokens, 5);
      EndIsFlag(tokens, 6, d.unionByName);
      assert d.paths == [d.paths[0]];
    } else {
      UpperSymbol(tokens[5].text, '[');
      UpperSymbol(tokens[5 + 2 * n].text, ']');
      MorePathsIsMaximal(tokens, 7, d.paths[1..], 5 + 2 * n);
      EndIsFlag(tokens, 6 + 2 * n, d.unionByName);
      assert d.paths == [d.paths[0]] + d.paths[1..];
    }
  }

  lemma {:induction false} ParsedIsSpelled(tokens: seq<Token>, d: Definition)
    requires DefinitionOf(tokens) == Some(d)
    ensures SpellsDefinition(tokens, d)
  {
    hide PathAt, MorePaths, SpellsMore;
    var (paths, p) := Source(tokens, 5).value;
    FlagIsEnd(tokens, p, d.unionByName);
    if tokens[5].text == "[" {
      var (more, after) := MorePaths(tokens, 7).value;
      UpperSymbol(tokens[after].text, ']');
      MorePathsIsMaximal(tokens, 7, more, after);
      assert paths == [paths[0]] + more && paths[1..] == more;
    }
  }

  lemma {:induction false} BracketIsNoPath(tokens: seq<Token>, position: nat)
    requires PathAt(tokens, position).Some?
    ensures tokens[position].text != "["
  {
  }

  lemma {:induction false} EndIsFlag(tokens: seq<Token>, position: nat, flag: Option<bool>)
    requires SpellsEnd(tokens, position, flag)
    ensures var after := position + if flag.Some? then 4 else 0;
            Flag(tokens, position) == Some((flag, after)) && Takes(tokens, after, ")") && after + 1 == |tokens|
  {
    UpperSymbol(tokens[position].text, ',');
    UpperSymbol(tokens[position].text, ')');
  }

  lemma {:induction false} FlagIsEnd(tokens: seq<Token>, position: nat, flag: Option<bool>)
    requires match Flag(tokens, position)
             case None => false
             case Some((f, after)) => f == flag && Takes(tokens, after, ")") && after + 1 == |tokens|
    ensures SpellsEnd(tokens, position, flag)
  {
  }

  // ---------------------------------------------------------------- literals

  function Double(s: string): string {
    if s == [] then []
    else if s[0] == '\'' then "''" + Double(s[1..])
    else [s[0]] + Double(s[1..])
  }

  function Quote(s: string): string {
    "'" + Double(s) + "'"
  }

  lemma {:induction false} UndoubleDouble(s: string)
    ensures Undouble(Double(s)) == s
  {
    if s != [] {
      UndoubleDouble(s[1..]);
      var rest := Double(s[1..]);
      if s[0] == '\'' {
        assert ("''" + rest)[2..] == rest;
      } else {
        assert ([s[0]] + rest)[1..] == rest;
      }
      assert [s[0]] + s[1..] == s;
    }
  }

  lemma {:induction false} DoubledRun(s: string, given: Option<nat>, at: nat)
    requires given.Some? ==> 0 < given.value <= at
    ensures QuoteRun(Double(s) + "'", '\'', given, at) == Some(at + |Double(s)| + 1)
    decreases s
  {
    var text := Double(s) + "'";
    if s != [] {
      var rest := Double(s[1..]) + "'";
      if s[0] == '\'' {
        assert text[2..] == rest;
        DoubledRun(s[1..], Some(at + 1), at + 2);
      } else {
        assert text[1..] == rest;
        DoubledRun(s[1..], given, at + 1);
      }
    }
  }

  /** A safe reference, quoted with its quotes doubled, is one literal token and reads back as itself. */
  lemma {:induction false} QuotedPathIsRead(path: string)
    requires LogicalParts(path, true).Some?
    ensures Lexical(Token(Literal, Quote(path)))
    ensures PathAt([Token(Literal, Quote(path))], 0) == Some(path)
  {
    var text := Quote(path);
    assert text[1..] == Double(path) + "'";
    DoubledRun(path, None, 1);
    UndoubleDouble(path);
    assert Inside(text) == Double(path);
  }

  // ---------------------------------------------------------- whole catalogs

  /** A view of a catalog: its name as written and the tokens of its body. */
  datatype Entry = Entry(name: string, body: seq<Token>)

  /** `CREATE [OR REPLACE] VIEW name AS body`, in any letter case. */
  ghost predicate SpellsEntry(tokens: seq<Token>, e: Entry) {
    && IsViewHead(tokens)
    && tokens[Prefix(tokens)].text == e.name
    && tokens[Prefix(tokens) + 2..] == e.body
  }

  function DefinitionIn(e: Entry): Option<Definition> {
    if IsSupportedName(Lower(e.name)) then DefinitionOf(e.body) else None
  }

  function NamesIn(entries: seq<Entry>): set<string> {
    set i | 0 <= i < |entries| :: Lower(entries[i].name)
  }

  /** The names of the views that are not understood, in catalog order. */
  function UnsupportedIn(entries: seq<Entry>): seq<string> {
    if entries == [] then []
    else
      var n := |entries| - 1;
      UnsupportedIn(entries[..n]) + if DefinitionIn(entries[n]).None? then [Lower(entries[n].name)] else []
  }

  function ReferencesIn(entries: seq<Entry>): nat {
    if entries == [] then 0
    else ReferencesIn(entries[..|entries| - 1]) + Literals(entries[|entries| - 1].body)
  }

  function FoundIn(entries: seq<Entry>, selected: string): Option<Definition> {
    if entries == [] then None
    else
      var n := |entries| - 1;
      if DefinitionIn(entries[n]).Some? && Lower(entries[n].name) == selected
      then DefinitionIn(entries[n])
      else FoundIn(entries[..n], selected)
  }

  function Tally(entries: seq<Entry>, selected: string): Progress {
    Progress(NamesIn(entries), UnsupportedIn(entries), FoundIn(entries, selected), ReferencesIn(entries))
  }

  ghost predicate DistinctNames(entries: seq<Entry>) {
    forall i, j :: 0 <= i < j < |entries| ==> Lower(entries[i].name) != Lower(entries[j].name)
  }

  /** Nothing in the catalog is refused on its own account. */
  ghost predicate Acceptable(entries: seq<Entry>, limits: Limits) {
    && DistinctNames(entries)
    && |entries| <= limits.definitions
    && ReferencesIn(entries) <= limits.references
    && forall i :: 0 <= i < |entries| ==> !exists k :: 0 <= k < |entries[i].body| && IsForbidden(entries[i].body[k])
  }

  lemma {:induction false} NamesSnoc(entries: seq<Entry>, k: nat)
    requires k < |entries|
    ensures NamesIn(entries[..k + 1]) == NamesIn(entries[..k]) + {Lower(entries[k].name)}
  {
    var longer := entries[..k + 1];
    forall name | name in NamesIn(longer)
      ensures name in NamesIn(entries[..k]) + {Lower(entries[k].name)}
    {
      var i :| 0 <= i < |longer| && name == Lower(longer[i].name);
      if i < k {
        assert longer[i] == entries[..k][i];
      }
    }
    forall name | name in NamesIn(entries[..k]) + {Lower(entries[k].name)}
      ensures name in NamesIn(longer)
    {
      if name == Lower(entries[k].name) {
        assert longer[k] == entries[k];
      } else {
        var i :| 0 <= i < k && name == Lower(entries[..k][i].name);
        assert longer[i] == entries[..k][i];
      }
    }
  }

  lemma {:induction false} NamesAreCounted(entries: seq<Entry>, k: nat)
    requires DistinctNames(entries) && k <= |entries|
    ensures |NamesIn(entries[..k])| == k
    ensures k < |entries| ==> Lower(entries[k].name) !in NamesIn(entries[..k])
  {
    hide NamesIn, Lower;
    if k == 0 {
      NoNames(entries[..0]);
    } else {
      NamesAreCounted(entries, k - 1);
      NamesSnoc(entries, k - 1);
    }
    if k < |entries| {
      NameIsNew(entries, k);
    }
  }

  lemma {:induction false} NoNames(entries: seq<Entry>)
    requires entries == []
    ensures NamesIn(entries) == {}
  {
  }

  lemma {:induction false} NameIsNew(entries: seq<Entry>, k: nat)
    requires DistinctNames(entries) && k < |entries|
    ensures Lower(entries[k].name) !in NamesIn(entries[..k])
  {
    hide Lower;
  }

  lemma {:induction false} ReferencesGrow(entries: seq<Entry>, k: nat)
    requires k <= |entries|
    ensures ReferencesIn(entries[..k]) <= ReferencesIn(entries)
    decreases |entries| - k
  {
    if k == |entries| {
      assert entries[..k] == entries;
    } else {
      ReferencesGrow(entries, k + 1);
      assert entries[..k + 1][..k] == entries[..k];
    }
  }

  lemma {:induction false} UnsupportedAreFew(entries: seq<Entry>)
    ensures |UnsupportedIn(entries)| <= |entries|
  {
    if entries != [] {
      UnsupportedAreFew(entries[..|entries| - 1]);
    }
  }

  lemma {:induction false} TallySnoc(entries: seq<Entry>, k: nat, selected: string)
    requires DistinctNames(entries) && k < |entries|
    ensures var p, q, e := Tally(entries[..k], selected), Tally(entries[..k + 1], selected), entries[k];
            && q.names == p.names + {Lower(e.name)}
            && q.references == p.references + Literals(e.body)
            && q.unsupported == (if DefinitionIn(e).None? then p.unsupported + [Lower(e.name)] else p.unsupported)
            && q.found == (if DefinitionIn(e).Some? && Lower(e.name) == selected then DefinitionIn(e) else p.found)
  {
    hide DefinitionIn, Literals;
    NamesSnoc(entries, k);
    assert entries[..k + 1][..k] == entries[..k];
  }

  lemma {:induction false} EntryIsAccounted(
    entries: seq<Entry>, k: nat, tokens: seq<Token>, selected: string, limits: Limits)
    requires Acceptable(entries, limits) && k < |entries| && SpellsEntry(tokens, entries[k])
    ensures Account(Tally(entries[..k], selected), tokens, selected, limits) == Ok(Tally(entries[..k + 1], selected))
  {
    hide DefinitionOf, IsViewHead, Literals, UnsupportedIn, ReferencesIn, FoundIn, NamesIn, IsSupportedName;
    TallySnoc(entries, k, selected);
    NamesAreCounted(entries, k);
    ReferencesGrow(entries, k + 1);
  }

  /** The text of a catalog: its statements and what follows the last terminator. */
  function TextOf(statements: seq<Written>): string {
    if statements == [] then [] else Text(statements[0]) + TextOf(statements[1..])
  }

  ghost predicate Writes(statements: seq<Written>, entries: seq<Entry>) {
    && |statements| == |entries|
    && forall i :: 0 <= i < |entries| ==>
         WellWritten(statements[i]) && SpellsEntry(Tokens(statements[i].pieces), entries[i])
  }

  ghost predicate ShortEnough(statements: seq<Written>, limits: Limits) {
    forall i :: 0 <= i < |statements| ==> |statements[i].pieces| <= limits.references * 2 + 32
  }

  /** Statements that are not refused are driven over one by one, whatever stands behind them. */
  lemma {:induction false} CatalogIsDriven(
    statements: seq<Written>, entries: seq<Entry>, k: nat, rest: string, selected: string, limits: Limits)
    requires Writes(statements, entries) && ShortEnough(statements, limits)
    requires Acceptable(entries, limits) && k <= |entries|
    ensures |UnsupportedIn(entries[..k])| <= |NamesIn(entries[..k])|
    ensures |UnsupportedIn(entries)| <= |NamesIn(entries)|
    ensures Drive(TextOf(statements[k..]) + rest, Tally(entries[..k], selected), selected, limits)
         == Drive(rest, Tally(entries, selected), selected, limits)
    decreases |entries| - k
  {
    hide Resume, Account, WellWritten, SpellsEntry, Acceptable, UnsupportedIn, ReferencesIn, FoundIn, NamesIn, Text;
    CountsFit(entries, k, limits);
    if k == |entries| {
      assert statements[k..] == [] && [] + rest == rest && entries[..k] == entries;
    } else {
      var w, later := statements[k], TextOf(statements[k + 1..]) + rest;
      assert statements[k..][1..] == statements[k + 1..];
      assert TextOf(statements[k..]) + rest == Text(w) + later;
      StatementIsRead(w, later, limits.references);
      EntryIsAccounted(entries, k, Tokens(w.pieces), selected, limits);
      CatalogIsDriven(statements, entries, k + 1, rest, selected, limits);
    }
  }

  lemma {:induction false} TailFinishes(tail: string, entries: seq<Entry>, selected: string, limits: Limits)
    requires IsTail(tail) && |UnsupportedIn(entries)| <= |NamesIn(entries)|
    ensures Drive(tail, Tally(entries, selected), selected, limits) == Finish(Tally(entries, selected), selected)
  {
    hide IsTail, Resume, UnsupportedIn, NamesIn;
    TailIsExhausted(tail, limits.references);
  }

  lemma {:induction false} CountsFit(entries: seq<Entry>, k: nat, limits: Limits)
    requires Acceptable(entries, limits) && k <= |entries|
    ensures |UnsupportedIn(entries[..k])| <= |NamesIn(entries[..k])| == k
    ensures |UnsupportedIn(entries)| <= |NamesIn(entries)| == |entries|
  {
    hide UnsupportedIn, NamesIn;
    NamesAreCounted(entries, k);
    NamesAreCounted(entries, |entries|);
    UnsupportedAreFew(entries[..k]);
    UnsupportedAreFew(entries);
    assert entries[..|entries|] == entries;
  }

  /**
    Any catalog of view statements, written with any whitespace and comments, letter case and
    optional `OR REPLACE`: parsing finds the selected view's definition exactly when the catalog has
    that view and understands it, and accounts for every other view in order.
   */
  lemma {:induction false} CatalogIsAccounted(
    statements: seq<Written>, entries: seq<Entry>, tail: string, selected: string, limits: Limits)
    requires Writes(statements, entries) && ShortEnough(statements, limits) && IsTail(tail)
    requires Acceptable(entries, limits) && IsSupportedName(selected)
    ensures |UnsupportedIn(entries)| <= |entries|
    ensures Parse(TextOf(statements) + tail, selected, limits) == Verdict(entries, Lower(selected))
  {
    hide *;
    var low := Lower(selected);
    CountsFit(entries, 0, limits);
    NothingTallied(entries, low);
    CatalogIsDriven(statements, entries, 0, tail, low, limits);
    TailFinishes(tail, entries, low, limits);
    assert statements[0..] == statements;
    ParseDrives(TextOf(statements) + tail, selected, limits);
    TallyFinishes(entries, low, limits);
  }

  /** The selected view's definition and the account of all views, or nothing when it is missing or not understood. */
  function Verdict(entries: seq<Entry>, selected: string): Result<(Definition, Accounting), Fault>
    requires |UnsupportedIn(entries)| <= |entries|
  {
    var found, n, unsupported := FoundIn(entries, selected), |entries|, UnsupportedIn(entries);
    if found.None? then Err(Invalid)
    else Ok((found.value, Accounting(n, n - |unsupported|, unsupported, ReferencesIn(entries))))
  }

  lemma {:induction false} ParseDrives(sql: string, selected: string, limits: Limits)
    requires IsSupportedName(selected)
    ensures Parse(sql, selected, limits) == Drive(sql, NOTHING, Lower(selected), limits)
  {
  }

  lemma {:induction false} TallyFinishes(entries: seq<Entry>, selected: string, limits: Limits)
    requires Acceptable(entries, limits)
    requires |UnsupportedIn(entries)| <= |NamesIn(entries)| == |entries|
    ensures Finish(Tally(entries, selected), selected) == Verdict(entries, selected)
  {
    FoundIsNamed(entries, selected);
    hide UnsupportedIn, NamesIn, FoundIn, ReferencesIn;
  }

  lemma {:induction false} NothingTallied(entries: seq<Entry>, selected: string)
    ensures Tally(entries[..0], selected) == NOTHING
  {
    assert entries[..0] == [];
    assert NamesIn([]) == {};
  }

  lemma {:induction false} FoundIsNamed(entries: seq<Entry>, selected: string)
    ensures FoundIn(entries, selected).Some? ==> selected in NamesIn(entries)
  {
    hide DefinitionIn;
    if entries != [] {
      var n := |entries| - 1;
      FoundIsNamed(entries[..n], selected);
      NamesSnoc(entries, n);
      assert entries[..n + 1] == entries;
    }
  }

  // --------------------------------------- catalogs of plain Parquet views

  ghost predicate AllLexical(tokens: seq<Token>) {
    forall i :: 0 <= i < |tokens| ==> Lexical(tokens[i])
  }

  lemma {:induction false} PiecesAreLexical(pieces: seq<Piece>, after: string)
    requires Spelled(pieces, after)
    ensures AllLexical(Tokens(pieces)) && |Tokens(pieces)| == |pieces|
    decreases pieces
  {
    hide Lexical, Ends, IsGap;
    if pieces != [] {
      PiecesAreLexical(pieces[1..], after);
    }
  }

  lemma {:induction false} LiteralsStep(tokens: seq<Token>, i: nat)
    requires i < |tokens|
    ensures Literals(tokens[i..]) == (if tokens[i].kind.Literal? then 1 else 0) + Literals(tokens[i + 1..])
  {
    assert tokens[i..][0] == tokens[i] && tokens[i..][1..] == tokens[i + 1..];
  }

  lemma {:induction false} PlainTokensAreNoLiterals(tokens: seq<Token>, i: nat, j: nat)
    requires i <= j <= |tokens| && forall k :: i <= k < j ==> !tokens[k].kind.Literal?
    ensures Literals(tokens[i..]) == Literals(tokens[j..])
    decreases j - i
  {
    if i < j {
      LiteralsStep(tokens, i);
      PlainTokensAreNoLiterals(tokens, i + 1, j);
    }
  }

  lemma {:induction false} MoreLiterals(tokens: seq<Token>, position: nat, paths: seq<string>)
    requires SpellsMore(tokens, position, paths)
    requires position + 2 * |paths| <= |tokens|
    ensures Literals(tokens[position..]) == |paths| + Literals(tokens[position + 2 * |paths|..])
    decreases paths
  {
    hide Literals, Upper, Undouble, LogicalParts;
    if paths != [] {
      LiteralsStep(tokens, position);
      LiteralsStep(tokens, position + 1);
      MoreLiterals(tokens, position + 2, paths[1..]);
    }
  }

  lemma {:induction false} FlagTokensAreNoLiterals(t: Token)
    requires Lexical(t)
    requires t.text == "=" || t.text == ":=" || Upper(t.text) == "TRUE" || Upper(t.text) == "FALSE"
    ensures !t.kind.Literal?
  {
    if Upper(t.text) == "TRUE" || Upper(t.text) == "FALSE" {
      assert Upper(t.text)[0] == UpperChar(t.text[0]);
    }
  }

  lemma {:induction false} EndLiterals(tokens: seq<Token>, position: nat, flag: Option<bool>)
    requires SpellsEnd(tokens, position, flag) && AllLexical(tokens)
    ensures position <= |tokens| && Literals(tokens[position..]) == 0
  {
    hide Lexical, Literals;
    if flag.Some? {
      FlagTokensAreNoLiterals(tokens[position + 2]);
      FlagTokensAreNoLiterals(tokens[position + 3]);
    }
    PlainTokensAreNoLiterals(tokens, position, |tokens|);
    NoTokensNoLiterals(tokens);
  }

  lemma {:induction false} NoTokensNoLiterals(tokens: seq<Token>)
    ensures Literals(tokens[|tokens|..]) == 0
  {
  }

  lemma {:induction false} TakenIsPlain(tokens: seq<Token>, position: nat, word: string)
    requires Takes(tokens, position, word)
    ensures position < |tokens| && !tokens[position].kind.Literal?
  {
  }

  lemma {:induction false} PathIsLiteral(tokens: seq<Token>, position: nat)
    requires PathAt(tokens, position).Some?
    ensures position < |tokens| && tokens[position].kind.Literal?
  {
  }

  lemma {:induction false} HeadIsPlain(tokens: seq<Token>)
    requires TakesHead(tokens)
    ensures Literals(tokens) == Literals(tokens[5..])
  {
    hide Literals;
    forall k | 0 <= k < 5
      ensures !tokens[k].kind.Literal?
    {
      assert Takes(tokens, k, HEAD[k]);
    }
    PlainTokensAreNoLiterals(tokens, 0, 5);
    assert tokens[0..] == tokens;
  }

  /** A definition has one literal for each of its paths, and a bounded number of other tokens. */
  lemma {:induction false} DefinitionIsMeasured(tokens: seq<Token>, d: Definition)
    requires SpellsDefinition(tokens, d) && AllLexical(tokens)
    ensures Literals(tokens) == |d.paths| && |tokens| <= 11 + 2 * |d.paths|
  {
    hide Literals, AllLexical, TakesHead, Takes, PathAt, SpellsMore;
    var n := |d.paths|;
    HeadIsPlain(tokens);
    if n == 1 && PathAt(tokens, 5) == Some(d.paths[0]) && SpellsEnd(tokens, 6, d.unionByName) {
      PathIsLiteral(tokens, 5);
      LiteralsStep(tokens, 5);
      EndLiterals(tokens, 6, d.unionByName);
    } else {
      TakenIsPlain(tokens, 5, "[");
      LiteralsStep(tokens, 5);
      PathIsLiteral(tokens, 6);
      LiteralsStep(tokens, 6);
      TakenIsPlain(tokens, 5 + 2 * n, "]");
      MoreLiterals(tokens, 7, d.paths[1..]);
      LiteralsStep(tokens, 5 + 2 * n);
      EndLiterals(tokens, 6 + 2 * n, d.unionByName);
    }
  }

  const SAFE: set<string> := {
    "SELECT", "*", "FROM", "READ_PARQUET", "(", "[", "]", ",", "UNION_BY_NAME", "=", ":=", "TRUE", "FALSE", ")"}

  lemma {:induction false} SafeIsNotForbidden(word: string)
    requires word in SAFE
    ensures word !in FORBIDDEN
  {
    assert word in FORBIDDEN ==> |word| >= 3 && word != "SELECT" && word != "FROM" && word != "TRUE" && word != "FALSE";
    assert |word| < 3 || word == "SELECT" || word == "FROM" || word == "TRUE" || word == "FALSE" || |word| > 10;
  }

  lemma {:induction false} EndIsSafe(tokens: seq<Token>, position: nat, flag: Option<bool>, k: nat)
    requires SpellsEnd(tokens, position, flag) && position <= k < |tokens|
    ensures Upper(tokens[k].text) in SAFE
  {
    assert Upper("=") == "=" && Upper(":=") == ":=";
  }

  lemma {:induction false} MoreIsSafe(tokens: seq<Token>, position: nat, paths: seq<string>, k: nat)
    requires SpellsMore(tokens, position, paths) && position <= k < position + 2 * |paths| && k < |tokens|
    ensures tokens[k].kind.Literal? || Upper(tokens[k].text) in SAFE
    decreases paths
  {
    hide Upper, Undouble, LogicalParts;
    if k > position + 1 {
      MoreIsSafe(tokens, position + 2, paths[1..], k);
    }
  }

  lemma {:induction false} DefinitionIsNotForbidden(tokens: seq<Token>, d: Definition, k: nat)
    requires SpellsDefinition(tokens, d) && k < |tokens|
    ensures !IsForbidden(tokens[k])
  {
    hide Upper, Undouble, LogicalParts, SpellsMore, SpellsEnd;
    var n := |d.paths|;
    if k < 5 {
      assert Takes(tokens, k, HEAD[k]);
    } else if n == 1 && PathAt(tokens, 5) == Some(d.paths[0]) && SpellsEnd(tokens, 6, d.unionByName) {
      if k > 5 {
        EndIsSafe(tokens, 6, d.unionByName, k);
      }
    } else if 6 + 2 * n <= k {
      EndIsSafe(tokens, 6 + 2 * n, d.unionByName, k);
    } else if 7 <= k < 5 + 2 * n {
      MoreIsSafe(tokens, 7, d.paths[1..], k);
    }
    if !tokens[k].kind.Literal? {
      SafeIsNotForbidden(Upper(tokens[k].text));
    }
  }

  function PathsIn(definitions: seq<Definition>): nat {
    if definitions == [] then 0
    else PathsIn(definitions[..|definitions| - 1]) + |definitions[|definitions| - 1].paths|
  }

  /** Every view has a supported name and spells a definition. */
  ghost predicate Defines(entries: seq<Entry>, definitions: seq<Definition>) {
    && |definitions| == |entries|
    && forall i :: 0 <= i < |entries| ==>
         && IsSupportedName(Lower(entries[i].name))
         && SpellsDefinition(entries[i].body, definitions[i])
         && AllLexical(entries[i].body)
  }

  lemma {:induction false} DefinedEntries(entries: seq<Entry>, definitions: seq<Definition>)
    requires Defines(entries, definitions)
    ensures UnsupportedIn(entries) == [] && ReferencesIn(entries) == PathsIn(definitions)
    ensures forall i :: 0 <= i < |entries| ==> DefinitionIn(entries[i]) == Some(definitions[i])
    decreases entries
  {
    hide IsSupportedName, SpellsDefinition, AllLexical, DefinitionOf, Literals;
    if entries != [] {
      var n := |entries| - 1;
      DefinedEntries(entries[..n], definitions[..n]);
      DefinitionIffSpelled(entries[n].body, definitions[n]);
      DefinitionIsMeasured(entries[n].body, definitions[n]);
      forall i | 0 <= i < |entries|
        ensures DefinitionIn(entries[i]) == Some(definitions[i])
      {
        if i < n {
          assert entries[..n][i] == entries[i];
        }
      }
    }
  }

  lemma {:induction false} SelectedIsFound(entries: seq<Entry>, k: nat)
    requires DistinctNames(entries) && k < |entries| && DefinitionIn(entries[k]).Some?
    ensures FoundIn(entries, Lower(entries[k].name)) == DefinitionIn(entries[k])
    decreases entries
  {
    hide DefinitionIn;
    var n := |entries| - 1;
    if k < n {
      assert Lower(entries[k].name) != Lower(entries[n].name);
      SelectedIsFound(entries[..n], k);
    }
  }

  lemma {:induction false} EachIsWithin(entries: seq<Entry>, k: nat)
    requires k < |entries|
    ensures Literals(entries[k].body) <= ReferencesIn(entries)
    decreases entries
  {
    hide Literals;
    if k < |entries| - 1 {
      EachIsWithin(entries[..|entries| - 1], k);
    }
  }

  lemma {:induction false} WrittenIsShort(w: Written, e: Entry, d: Definition, maximum: nat)
    requires WellWritten(w) && SpellsEntry(Tokens(w.pieces), e)
    requires SpellsDefinition(e.body, d) && AllLexical(e.body) && Literals(e.body) <= maximum
    ensures |w.pieces| <= maximum * 2 + 32
  {
    hide Literals, SpellsDefinition, AllLexical, Spelled, IsGap, Tokens;
    DefinitionIsMeasured(e.body, d);
    PiecesAreLexical(w.pieces, w.gap + ";");
  }

  /**
    The round trip: a catalog of views with distinct supported names, each a plain read of one or
    many safe references, parses to the selected view's own definition whatever whitespace,
    comments and letter case it is written with, and every view is accounted as supported.
   */
  lemma {:induction false} RoundTrip(statements: seq<Written>, entries: seq<Entry>, definitions: seq<Definition>,
                  tail: string, k: nat, limits: Limits)
    requires Writes(statements, entries) && IsTail(tail)
    requires Defines(entries, definitions) && DistinctNames(entries) && k < |entries|
    requires |entries| <= limits.definitions && PathsIn(definitions) <= limits.references
    requires IsSupportedName(entries[k].name)
    ensures Parse(TextOf(statements) + tail, entries[k].name, limits)
         == Ok((definitions[k], Accounting(|entries|, |entries|, [], PathsIn(definitions))))
  {
    hide *;
    DefinedEntries(entries, definitions);
    DefinedIsAcceptable(statements, entries, definitions, limits);
    SameLength(entries, definitions);
    SelectedIsFound(entries, k);
    CatalogIsAccounted(statements, entries, tail, entries[k].name, limits);
    AllSupported(entries, definitions, k);
  }

  lemma {:induction false} SameLength(entries: seq<Entry>, definitions: seq<Definition>)
    requires Defines(entries, definitions)
    ensures |entries| == |definitions|
  {
  }

  lemma {:induction false} AllSupported(entries: seq<Entry>, definitions: seq<Definition>, k: nat)
    requires k < |entries| == |definitions|
    requires UnsupportedIn(entries) == [] && ReferencesIn(entries) == PathsIn(definitions)
    requires FoundIn(entries, Lower(entries[k].name)) == Some(definitions[k])
    ensures Verdict(entries, Lower(entries[k].name))
         == Ok((definitions[k], Accounting(|entries|, |entries|, [], PathsIn(definitions))))
  {
  }

  lemma {:induction false} DefinedIsAcceptable(
    statements: seq<Written>, entries: seq<Entry>, definitions: seq<Definition>, limits: Limits)
    requires Writes(statements, entries) && Defines(entries, definitions) && DistinctNames(entries)
    requires |entries| <= limits.definitions && ReferencesIn(entries) <= limits.references
    ensures Acceptable(entries, limits) && ShortEnough(statements, limits)
  {
    hide IsSupportedName, SpellsDefinition, AllLexical, WellWritten, SpellsEntry, DistinctNames;
    hide ReferencesIn, Literals, IsForbidden;
    forall i | 0 <= i < |entries|
      ensures |statements[i].pieces| <= limits.references * 2 + 32
      ensures !exists j :: 0 <= j < |entries[i].body| && IsForbidden(entries[i].body[j])
    {
      EachIsWithin(entries, i);
      WrittenIsShort(statements[i], entries[i], definitions[i], limits.references);
      forall j | 0 <= j < |entries[i].body|
        ensures !IsForbidden(entries[i].body[j])
      {
        DefinitionIsNotForbidden(entries[i].body, definitions[i], j);
      }
    }
  }
}
