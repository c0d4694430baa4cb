/**
  The token pattern of copied catalog SQL: an ordered alternation matched at a position, with the
  backtracking a doubled quote at the end of the input brings about.
 */
module CatalogLexer {
  import opened Wrappers

  datatype Kind = Space | Line | Block | Quoted | Literal | Word | Symbol

  datatype Token = Token(kind: Kind, text: string)

  predicate IsSpace(c: char) {
    var n := c as int;
    9 <= n <= 13 || 28 <= n <= 32 || n == 0x85 || n == 0xA0 || n == 0x1680 || 0x2000 <= n <= 0x200A
    || n == 0x2028 || n == 0x2029 || n == 0x202F || n == 0x205F || n == 0x3000
  }

  predicate IsLetter(c: char) {
    'a' <= c <= 'z' || 'A' <= c <= 'Z' || c == '_'
  }

  predicate IsWordChar(c: char) {
    IsLetter(c) || '0' <= c <= '9'
  }

  predicate IsSymbolChar(c: char) {
    c == '(' || c == ')' || c == '[' || c == ']' || c == ',' || c == ';' || c == '*' || c == '=' || c == '.'
  }

  function SpaceRun(s: string): (n: nat)
    ensures n <= |s| && (s != [] && IsSpace(s[0]) ==> n > 0)
  {
    if s == [] || !IsSpace(s[0]) then 0 else 1 + SpaceRun(s[1..])
  }

  function WordRun(s: string): (n: nat)
    ensures n <= |s| && (s != [] && IsWordChar(s[0]) ==> n > 0)
  {
    if s == [] || !IsWordChar(s[0]) then 0 else 1 + WordRun(s[1..])
  }

  /** The length of a comment body up to and including its line end; the end of input ends it too. */
  function LineRun(s: string): (n: nat)
    ensures n <= |s|
  {
    if s == [] then 0
    else if s[0] == '\r' then (if |s| > 1 && s[1] == '\n' then 2 else 1)
    else if s[0] == '\n' then 1
    else 1 + LineRun(s[1..])
  }

  /** The length up to and including the first comment end. */
  function BlockRun(s: string): (n: Option<nat>)
    ensures n.Some? ==> 0 < n.value <= |s|
  {
    if |s| < 2 then None
    else if s[0] == '*' && s[1] == '/' then Some(2)
    else
      match BlockRun(s[1..])
      case None => None
      case Some(n) => Some(n + 1)
  }

  /**
    The length up to and including the closing quote `q`, doubled quotes belonging to the inside.
    `given` is where the match can still close, by giving the last doubled quote back, if the input
    ends first.
   */
  function QuoteRun(s: string, q: char, given: Option<nat>, at: nat): (n: Option<nat>)
    requires given.Some? ==> 0 < given.value <= at
    ensures n.Some? ==> 0 < n.value <= at + |s|
    decreases |s|
  {
    if s == [] then given
    else if s[0] != q then QuoteRun(s[1..], q, given, at + 1)
    else if |s| > 1 && s[1] == q then QuoteRun(s[2..], q, Some(at + 1), at + 2)
    else Some(at + 1)
  }

  /** What the pattern matches at the front of a nonempty text. */
  function Match(s: string): (m: Option<(Kind, nat)>)
    requires s != []
    ensures m.Some? ==> 0 < m.value.1 <= |s|
  {
    if IsSpace(s[0]) then Some((Space, SpaceRun(s)))
    else if |s| > 1 && s[0] == '-' && s[1] == '-' then Some((Line, 2 + LineRun(s[2..])))
    else if |s| > 1 && s[0] == '/' && s[1] == '*' then
      match BlockRun(s[2..]) { case None => None case Some(n) => Some((Block, n + 2)) }
    else if s[0] == '"' then
      match QuoteRun(s[1..], '"', None, 1) { case None => None case Some(n) => Some((Quoted, n)) }
    else if s[0] == '\'' then
      match QuoteRun(s[1..], '\'', None, 1) { case None => None case Some(n) => Some((Literal, n)) }
    else if IsLetter(s[0]) then Some((Word, WordRun(s)))
    else if |s| > 1 && s[0] == ':' && s[1] == '=' then Some((Symbol, 2))
    else if IsSymbolChar(s[0]) then Some((Symbol, 1))
    else None
  }

  predicate IsTrivia(k: Kind) {
    k.Space? || k.Line? || k.Block?
  }

  // --------------------------------------------------------- statements

  datatype Fault = Invalid | Incomplete

  /** Where the statement generator stands after one resumption. */
  datatype Resumed = Exhausted | Yielded(statement: seq<Token>, rest: string)

  const TERMINATOR := Token(Symbol, ";")

  /** Runs the generator on from text `s` with `statement` collected so far. */
  function Resume(s: string, statement: seq<Token>, maximum: nat): (r: Result<Resumed, Fault>)
    ensures r.Ok? && r.value.Yielded? ==> |r.value.rest| < |s|
    decreases |s|
  {
    if s == [] then (if statement == [] then Ok(Exhausted) else Err(Invalid))
    else
      match Match(s)
      case None => Err(Invalid)
      case Some((kind, n)) =>
        if IsTrivia(kind) then Resume(s[n..], statement, maximum)
        else if s[..n] == ";" then (if statement == [] then Err(Invalid) else Ok(Yielded(statement, s[n..])))
        else if |statement| + 1 > maximum * 2 + 32 then Err(Incomplete)
        else Resume(s[n..], statement + [Token(kind, s[..n])], maximum)
  }

  /** Reads one statement from a cursor and moves the cursor past its terminator. */
  method NextStatement(sql: string, start: nat, maximum: nat)
    returns (r: Result<Option<seq<Token>>, Fault>, position: nat)
    requires start <= |sql|
    ensures start <= position <= |sql|
    ensures match Resume(sql[start..], [], maximum)
            case Err(f) => r == Err(f)
            case Ok(Exhausted) => r == Ok(None) && position == |sql|
            case Ok(Yielded(statement, rest)) =>
              r == Ok(Some(statement)) && position > start && rest == sql[position..]
  {
    hide Match;
    position := start;
    var statement := [];
    ghost var answer := Resume(sql[start..], [], maximum);
    while position < |sql|
      invariant start <= position <= |sql|
      invariant Resume(sql[position..], statement, maximum) == answer
    {
      var m := Match(sql[position..]);
      if m.None? {
        return Err(Invalid), position;
      }
      var (kind, n) := m.value;
      var text := sql[position..position + n];
      assert text == sql[position..][..n] && sql[position + n..] == sql[position..][n..];
      position := position + n;
      if IsTrivia(kind) {
        continue;
      }
      if text == ";" {
        if statement == [] {
          return Err(Invalid), position;
        }
        return Ok(Some(statement)), position;
      }
      statement := statement + [Token(kind, text)];
      if |statement| > maximum * 2 + 32 {
        return Err(Incomplete), position;
      }
    }
    assert sql[position..] == [];
    if statement != [] {
      return Err(Invalid), position;
    }
    return Ok(None), position;
  }

  // --------------------------------------------------------- losslessness

  /** All that one resumption reads, trivia and terminator included. */
  function Reading(s: string): Option<seq<Token>>
    decreases |s|
  {
    if s == [] then Some([])
    else
      match Match(s)
      case None => None
      case Some((kind, n)) =>
        var t := Token(kind, s[..n]);
        if t == TERMINATOR then Some([t])
        else
          match Reading(s[n..])
          case None => None
          case Some(ts) => Some([t] + ts)
  }

  function Joined(tokens: seq<Token>): string {
    if tokens == [] then [] else tokens[0].text + Joined(tokens[1..])
  }

  /** The tokens that are not trivia. */
  function Significant(tokens: seq<Token>): seq<Token> {
    if tokens == [] then []
    else if IsTrivia(tokens[0].kind) then Significant(tokens[1..])
    else [tokens[0]] + Significant(tokens[1..])
  }

  lemma {:induction false} SemicolonIsTerminator(s: string)
    requires s != [] && Match(s).Some?
    ensures !IsTrivia(Match(s).value.0) && s[..Match(s).value.1] == ";" <==>
              Token(Match(s).value.0, s[..Match(s).value.1]) == TERMINATOR
  {
    if s[..Match(s).value.1] == ";" {
      assert s[0] == s[..Match(s).value.1][0] == ';';
    }
  }

  /** `tokens` is a lossless reading of `s` up to where `out` stops, and what it keeps completes `statement`. */
  ghost predicate Accounts(s: string, statement: seq<Token>, tokens: seq<Token>, out: Resumed) {
    && (forall i :: 0 <= i < |tokens| ==> tokens[i].text != [])
    && match out
       case Exhausted => Joined(tokens) == s && statement + Significant(tokens) == []
       case Yielded(handed, rest) =>
         Joined(tokens) + rest == s && statement + Significant(tokens) == handed + [TERMINATOR]
  }

  lemma {:induction false} AccountsBackwards(
    s: string, statement: seq<Token>, t: Token, later: seq<Token>, out: Resumed)
    requires 0 < |t.text| <= |s| && s[..|t.text|] == t.text
    requires Accounts(s[|t.text|..], if IsTrivia(t.kind) then statement else statement + [t], later, out)
    ensures Accounts(s, statement, [t] + later, out)
  {
    ReadingStep(t, later);
    hide Joined, Significant;
    assert s == t.text + s[|t.text|..];
    assert statement + ([t] + Significant(later)) == statement + [t] + Significant(later);
    if out.Yielded? {
      assert t.text + Joined(later) + out.rest == t.text + (Joined(later) + out.rest);
    }
  }

  lemma {:induction false} ReadingStep(t: Token, later: seq<Token>)
    ensures Joined([t] + later) == t.text + Joined(later)
    ensures Significant([t] + later) == if IsTrivia(t.kind) then Significant(later) else [t] + Significant(later)
  {
    assert ([t] + later)[1..] == later;
  }

  /**
    Whatever a resumption hands over, it has read the text from where it stood up to where it stops
    token by token, every token nonempty and none skipped; the statement is what is left of that
    reading without the trivia and the terminator.
   */
  lemma {:induction false} ReadingIsLossless(s: string, statement: seq<Token>, maximum: nat)
    requires Resume(s, statement, maximum).Ok?
    ensures Reading(s).Some?
    ensures Accounts(s, statement, Reading(s).value, Resume(s, statement, maximum).value)
    decreases |s|
  {
    hide Match, Joined, Significant, Accounts;
    if s == [] {
      NothingIsAccounted();
    } else {
      var (kind, n) := Match(s).value;
      var t := Token(kind, s[..n]);
      SemicolonIsTerminator(s);
      if t == TERMINATOR {
        TerminatorIsAccounted(s, statement);
      } else {
        ReadingIsLossless(s[n..], if IsTrivia(kind) then statement else statement + [t], maximum);
        AccountsBackwards(s, statement, t, Reading(s[n..]).value, Resume(s, statement, maximum).value);
      }
    }
  }

  lemma {:induction false} NothingIsAccounted()
    ensures Accounts([], [], [], Exhausted)
  {
  }

  lemma {:induction false} TerminatorIsAccounted(s: string, statement: seq<Token>)
    requires s != [] && s[..1] == TERMINATOR.text
    ensures Accounts(s, statement, [TERMINATOR], Yielded(statement, s[1..]))
  {
    var ts := [TERMINATOR];
    assert ts[1..] == [];
    assert Joined(ts) == TERMINATOR.text + Joined(ts[1..]) && Significant(ts) == ts + Significant(ts[1..]);
    assert Joined(ts) == TERMINATOR.text && Significant(ts) == ts;
    assert s == s[..1] + s[1..];
  }
}
