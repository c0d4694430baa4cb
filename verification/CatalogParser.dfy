/**
  The accounting of a copied catalog: every statement must be a view definition, and the selected
  view must be a plain read of Parquet references.
 */
module CatalogParser {
  import opened Wrappers
  import opened CatalogLexer
  import opened LogicalPath

  datatype Definition = Definition(paths: seq<string>, unionByName: Option<bool>)

  datatype Limits = Limits(definitions: nat, references: nat)

  // ---------------------------------------------------------------- words

  function UpperChar(c: char): char {
    if 'a' <= c <= 'z' then (c as int - 32) as char else c
  }

  function LowerChar(c: char): char {
    if 'A' <= c <= 'Z' then (c as int + 32) as char else c
  }

  function Upper(s: string): (r: string)
    ensures |r| == |s|
  {
    seq(|s|, i requires 0 <= i < |s| => UpperChar(s[i]))
  }

  function Lower(s: string): (r: string)
    ensures |r| == |s|
  {
    seq(|s|, i requires 0 <= i < |s| => LowerChar(s[i]))
  }

  const FORBIDDEN: set<string> := {
    "CREATE", "INSTALL", "LOAD", "ATTACH", "SET", "PRAGMA", "COPY",
    "INSERT", "UPDATE", "DELETE", "DROP", "EXPORT", "IMPORT"}

  predicate AllWordChars(s: string) {
    forall i :: 0 <= i < |s| ==> IsWordChar(s[i])
  }

  predicate IsWord(s: string) {
    s != [] && IsLetter(s[0]) && AllWordChars(s)
  }

  /** A view name that can be accounted for. */
  predicate IsName(s: string) {
    IsWord(s) && |s| <= 128
  }

  /** A view name whose definition is looked into. */
  predicate IsSupportedName(s: string) {
    && 6 <= |s| <= 127
    && (Lower(s[..5]) == "hist_" || Lower(s[..5]) == "live_")
    && AllWordChars(s)
  }

  /** The word a token stands for in a statement head; quoted tokens stand for none. */
  predicate Says(t: Token, word: string) {
    (t.kind.Word? || t.kind.Symbol?) && Upper(t.text) == word
  }

  // ----------------------------------------------------------- definitions

  /** Undoes the doubling of quotes inside a literal. */
  function Undouble(s: string): string {
    if s == [] then []
    else if |s| > 1 && s[0] == '\'' && s[1] == '\'' then "'" + Undouble(s[2..])
    else [s[0]] + Undouble(s[1..])
  }

  function Inside(text: string): string {
    if |text| < 2 then [] else text[1..|text| - 1]
  }

  predicate Takes(tokens: seq<Token>, position: nat, expected: string) {
    position < |tokens| && !tokens[position].kind.Literal? && Upper(tokens[position].text) == expected
  }

  /** The path at a position, if a safe reference stands there. */
  function PathAt(tokens: seq<Token>, position: nat): Option<string> {
    if position < |tokens| && tokens[position].kind.Literal?
    then
      var value := Undouble(Inside(tokens[position].text));
      if LogicalParts(value, true).Some? then Some(value) else None
    else None
  }

  /** The paths after a first one, each behind a comma, and the position after them. */
  function MorePaths(tokens: seq<Token>, position: nat): Option<(seq<string>, nat)>
    decreases |tokens| - position
  {
    if position < |tokens| && tokens[position].text == "," then
      if !Takes(tokens, position, ",") || PathAt(tokens, position + 1).None? then None
      else
        match MorePaths(tokens, position + 2)
        case None => None
        case Some((more, after)) => Some(([PathAt(tokens, position + 1).value] + more, after))
    else Some(([], position))
  }

  function Source(tokens: seq<Token>, position: nat): Option<(seq<string>, nat)> {
    if position < |tokens| && tokens[position].text == "[" then
      if !Takes(tokens, position, "[") || PathAt(tokens, position + 1).None? then None
      else
        match MorePaths(tokens, position + 2)
        case None => None
        case Some((more, after)) =>
          if Takes(tokens, after, "]") then Some(([PathAt(tokens, position + 1).value] + more, after + 1)) else None
    else if PathAt(tokens, position).Some? then Some(([PathAt(tokens, position).value], position + 1))
    else None
  }

  function Flag(tokens: seq<Token>, position: nat): Option<(Option<bool>, nat)> {
    if position < |tokens| && tokens[position].text == "," then
      if || !Takes(tokens, position, ",") || !Takes(tokens, position + 1, "UNION_BY_NAME")
         || position + 3 >= |tokens|
         || !(tokens[position + 2].text == "=" || tokens[position + 2].text == ":=")
         || !(Upper(tokens[position + 3].text) == "TRUE" || Upper(tokens[position + 3].text) == "FALSE")
      then None
      else Some((Some(Upper(tokens[position + 3].text) == "TRUE"), position + 4))
    else Some((None, position))
  }

  const HEAD: seq<string> := ["SELECT", "*", "FROM", "READ_PARQUET", "("]

  predicate TakesHead(tokens: seq<Token>) {
    |tokens| >= 5 && forall i :: 0 <= i < 5 ==> Takes(tokens, i, HEAD[i])
  }

  /** The definition a view body spells, or none when it is anything else. */
  function DefinitionOf(tokens: seq<Token>): Option<Definition> {
    if !TakesHead(tokens) then None
    else
      match Source(tokens, 5)
      case None => None
      case Some((paths, p)) =>
        match Flag(tokens, p)
        case None => None
        case Some((flag, q)) =>
          if Takes(tokens, q, ")") && q + 1 == |tokens| then Some(Definition(paths, flag)) else None
  }

  /** Reads a definition from left to right with one cursor over the tokens. */
  method ParseDefinition(tokens: seq<Token>) returns (r: Option<Definition>)
    ensures r == DefinitionOf(tokens)
  {
    hide Source, Flag;
    var position := 0;
    while position < 5
      invariant 0 <= position <= 5
      invariant forall i :: 0 <= i < position ==> Takes(tokens, i, HEAD[i])
    {
      if !Takes(tokens, position, HEAD[position]) {
        return None;
      }
      position := position + 1;
    }
    assert Takes(tokens, 4, HEAD[4]);
    var source := ParseSource(tokens, position);
    if source.None? {
      return None;
    }
    position := source.value.1;
    var flag := ParseFlag(tokens, position);
    if flag.None? {
      return None;
    }
    position := flag.value.1;
    if !Takes(tokens, position, ")") || position + 1 != |tokens| {
      return None;
    }
    return Some(Definition(source.value.0, flag.value.0));
  }

  method ParseSource(tokens: seq<Token>, start: nat) returns (r: Option<(seq<string>, nat)>)
    ensures r == Source(tokens, start)
  {
    hide PathAt, Takes;
    var position := start;
    if !(position < |tokens| && tokens[position].text == "[") {
      var path := PathAt(tokens, position);
      return if path.None? then None else Some(([path.value], position + 1));
    }
    var first := PathAt(tokens, position + 1);
    if !Takes(tokens, position, "[") || first.None? {
      return None;
    }
    position := position + 2;
    var more: seq<string> := [];
    ghost var all := MorePaths(tokens, position);
    BehindNone(all);
    while position < |tokens| && tokens[position].text == ","
      invariant all == Behind(more, MorePaths(tokens, position))
      decreases |tokens| - position
    {
      var path := PathAt(tokens, position + 1);
      if !Takes(tokens, position, ",") || path.None? {
        return None;
      }
      MoreStep(tokens, position, more);
      more := more + [path.value];
      position := position + 2;
    }
    MoreEnds(tokens, position, more);
    return if Takes(tokens, position, "]") then Some(([first.value] + more, position + 1)) else None;
  }

  method ParseFlag(tokens: seq<Token>, start: nat) returns (r: Option<(Option<bool>, nat)>)
    ensures r == Flag(tokens, start)
  {
    var position := start;
    if !(position < |tokens| && tokens[position].text == ",") {
      return Some((None, position));
    }
    if !Takes(tokens, position, ",") || !Takes(tokens, position + 1, "UNION_BY_NAME") {
      return None;
    }
    position := position + 2;
    if position >= |tokens| || !(tokens[position].text == "=" || tokens[position].text == ":=") {
      return None;
    }
    position := position + 1;
    if position >= |tokens|
       || !(Upper(tokens[position].text) == "TRUE" || Upper(tokens[position].text) == "FALSE") {
      return None;
    }
    return Some((Some(Upper(tokens[position].text) == "TRUE"), position + 1));
  }

  function Behind(paths: seq<string>, more: Option<(seq<string>, nat)>): Option<(seq<string>, nat)> {
    if more.None? then None else Some((paths + more.value.0, more.value.1))
  }

  lemma {:induction false} BehindNone(more: Option<(seq<string>, nat)>)
    ensures Behind([], more) == more
  {
    if more.Some? {
      assert [] + more.value.0 == more.value.0;
    }
  }

  lemma {:induction false} MoreStep(tokens: seq<Token>, position: nat, paths: seq<string>)
    requires position < |tokens| && tokens[position].text == ","
    requires Takes(tokens, position, ",") && PathAt(tokens, position + 1).Some?
    ensures Behind(paths, MorePaths(tokens, position))
         == Behind(paths + [PathAt(tokens, position + 1).value], MorePaths(tokens, position + 2))
  {
    hide PathAt, Takes;
    BehindOne(paths, PathAt(tokens, position + 1).value, MorePaths(tokens, position + 2));
  }

  lemma {:induction false} MoreEnds(tokens: seq<Token>, position: nat, paths: seq<string>)
    requires !(position < |tokens| && tokens[position].text == ",")
    ensures Behind(paths, MorePaths(tokens, position)) == Some((paths, position))
  {
    assert paths + [] == paths;
  }

  lemma {:induction false} BehindOne(paths: seq<string>, path: string, more: Option<(seq<string>, nat)>)
    ensures Behind(paths + [path], more) == Behind(paths, Behind([path], more))
    ensures Behind([path], more) == if more.None? then None else Some(([path] + more.value.0, more.value.1))
  {
    if more.Some? {
      assert (paths + [path]) + more.value.0 == paths + ([path] + more.value.0);
    }
  }

  // ------------------------------------------------------------- accounting

  datatype Progress = Progress(
    names: set<string>, unsupported: seq<string>, found: Option<Definition>, references: nat)

  const NOTHING := Progress({}, [], None, 0)

  datatype Accounting = Accounting(
    definitions: nat, supported: nat, unsupported: seq<string>, references: nat)

  function Literals(tokens: seq<Token>): nat {
    if tokens == [] then 0 else (if tokens[0].kind.Literal? then 1 else 0) + Literals(tokens[1..])
  }

  /** Where the view name of a statement stands. */
  function Prefix(tokens: seq<Token>): nat {
    if |tokens| >= 3 && Says(tokens[0], "CREATE") && Says(tokens[1], "OR") && Says(tokens[2], "REPLACE") then 4 else 2
  }

  predicate IsViewHead(tokens: seq<Token>) {
    var p := Prefix(tokens);
    && |tokens| > p + 1
    && (p == 2 ==> Says(tokens[0], "CREATE") && Says(tokens[1], "VIEW"))
    && (p == 4 ==> Says(tokens[3], "VIEW"))
    && tokens[p].kind.Word?
    && Says(tokens[p + 1], "AS")
    && IsName(tokens[p].text)
  }

  predicate IsForbidden(t: Token) {
    t.kind.Word? && Upper(t.text) in FORBIDDEN
  }

  /** Accounts for one statement. */
  function Account(p: Progress, tokens: seq<Token>, selected: string, limits: Limits): Result<Progress, Fault> {
    if !IsViewHead(tokens) then Err(Invalid)
    else
      var at := Prefix(tokens);
      var name, body := Lower(tokens[at].text), tokens[at + 2..];
      if name in p.names then Err(Invalid)
      else if |p.names| + 1 > limits.definitions then Err(Incomplete)
      else if exists i :: 0 <= i < |body| && IsForbidden(body[i]) then Err(Invalid)
      else if p.references + Literals(body) > limits.references then Err(Incomplete)
      else
        var definition := if IsSupportedName(name) then DefinitionOf(body) else None;
        var next := p.(names := p.names + {name}, references := p.references + Literals(body));
        Ok(if definition.None? then next.(unsupported := p.unsupported + [name])
           else if name == selected then next.(found := definition)
           else next)
  }

  function Finish(p: Progress, selected: string): Result<(Definition, Accounting), Fault>
    requires |p.unsupported| <= |p.names|
  {
    if selected !in p.names || p.found.None? then Err(Invalid)
    else Ok((p.found.value, Accounting(|p.names|, |p.names| - |p.unsupported|, p.unsupported, p.references)))
  }

  /** The loop over statements, from text `s` on. */
  function Drive(s: string, p: Progress, selected: string, limits: Limits): Result<(Definition, Accounting), Fault>
    requires |p.unsupported| <= |p.names|
    decreases |s|
  {
    match Resume(s, [], limits.references)
    case Err(f) => Err(f)
    case Ok(Exhausted) => Finish(p, selected)
    case Ok(Yielded(tokens, rest)) =>
      match Account(p, tokens, selected, limits)
      case Err(f) => Err(f)
      case Ok(next) =>
        Drive(rest, next, selected, limits)
  }

  function Parse(sql: string, selected: string, limits: Limits): Result<(Definition, Accounting), Fault> {
    if !IsSupportedName(selected) then Err(Invalid) else Drive(sql, NOTHING, Lower(selected), limits)
  }

  /** Reads statement after statement, keeping what was found so far and every view name seen. */
  method ParseCatalog(sql: string, selectedView: string, limits: Limits)
    returns (r: Result<(Definition, Accounting), Fault>)
    ensures r == Parse(sql, selectedView, limits)
  {
    if !IsSupportedName(selectedView) {
      return Err(Invalid);
    }
    hide Resume, Account;
    var selected := Lower(selectedView);
    var p := NOTHING;
    var position := 0;
    assert sql[0..] == sql;
    while true
      invariant position <= |sql|
      invariant |p.unsupported| <= |p.names|
      invariant Drive(sql[position..], p, selected, limits) == Parse(sql, selectedView, limits)
      decreases |sql| - position
    {
      var statement, next := NextStatement(sql, position, limits.references);
      if statement.Err? {
        return Err(statement.error);
      }
      if statement.value.None? {
        return Finish(p, selected);
      }
      var accounted := Account(p, statement.value.value, selected, limits);
      if accounted.Err? {
        return Err(accounted.error);
      }
      p := accounted.value;
      position := next;
    }
  }
}
