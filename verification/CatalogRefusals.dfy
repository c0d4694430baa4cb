/**
  The exact account of every printed catalog: one name that is too long or written twice has the
  whole catalog refused, and nothing else has, within the limits.
 */
module CatalogRefusals {
  import opened Wrappers
  import opened CatalogLexer
  import opened CatalogRendering
  import opened CatalogParser
  import opened CatalogRoundTrip
  import opened CatalogPieces
  import opened CatalogWriter

  /** Every name is short enough to be accounted for, and no two are the same. */
  ghost predicate WellNamed(views: seq<View>) {
    Printable(views) && DistinctViews(views)
  }

  lemma {:induction false} DistinctEntries(views: seq<View>)
    ensures DistinctViews(views) <==> DistinctNames(EntriesOf(views))
  {
    hide Lower, EntryOf;
    forall i | 0 <= i < |views| ensures EntriesOf(views)[i].name == views[i].name {
      EntryBody(views[i]);
    }
  }

  /** The view that the refusal is about: the first with a name too long or seen before. */
  ghost predicate FirstRefused(views: seq<View>, n: nat) {
    && n < |views|
    && WellNamed(views[..n])
    && (|views[n].name| > 128 || exists i :: 0 <= i < n && Lower(views[i].name) == Lower(views[n].name))
  }

  lemma {:induction false} OneMore(views: seq<View>)
    requires Writable(views) && views != []
    ensures var n := |views| - 1;
            WellNamed(views[..n]) ==> (WellNamed(views) <==> !FirstRefused(views, n))
  {
    hide Lower, IsWord;
    var n := |views| - 1;
    assert forall i :: 0 <= i < n ==> views[..n][i] == views[i];
  }

  lemma {:induction false} SomeIsRefused(views: seq<View>) returns (n: nat)
    requires Writable(views) && !WellNamed(views)
    ensures FirstRefused(views, n)
    decreases |views|
  {
    hide IsWord;
    assert views != [];
    OneMore(views);
    n := |views| - 1;
    if !WellNamed(views[..n]) {
      var last := n;
      n := SomeIsRefused(views[..last]);
      assert views[..last][..n] == views[..n];
    }
  }

  lemma {:induction false} LongNameIsNoHead(lead: string, v: View)
    requires v.definition.paths != [] && |v.name| > 128
    ensures !IsViewHead(Tokens(Spelling(lead, v).pieces))
  {
    var create, body := CreatePieces(lead, v.name), BodyPieces(v.definition);
    TokensOfAll(create + body);
    hide BodyPieces, Tokens;
    var tokens := Tokens(create + body);
    CapitalsStay("CREATE");
    CapitalsStay("OR");
    CapitalsStay("REPLACE");
    assert forall i :: 0 <= i < 6 ==> tokens[i] == create[i].token;
  }

  lemma {:induction false} RefusedByAccount(
    views: seq<View>, n: nat, lead: string, selected: string, limits: Limits)
    requires FirstRefused(views, n) && views[n].definition.paths != [] && IsWord(views[n].name)
    ensures Account(Tally(EntriesOf(views[..n]), selected), Tokens(Spelling(lead, views[n]).pieces), selected, limits)
         == Err(Invalid)
  {
    var v, before := views[n], EntriesOf(views[..n]);
    hide UnsupportedIn, FoundIn, ReferencesIn, DefinitionOf, Literals, Tokens, Spelling, EntryOf;
    if |v.name| > 128 {
      LongNameIsNoHead(lead, v);
    } else {
      ViewSpellsEntry(lead, v);
      EntryBody(v);
      var i :| 0 <= i < n && Lower(views[i].name) == Lower(v.name);
      EntryBody(views[i]);
      assert before[i] == EntryOf(views[i]);
      assert Lower(before[i].name) in NamesIn(before);
    }
  }

  lemma {:induction false} PathsGrow(definitions: seq<Definition>, n: nat)
    requires n <= |definitions|
    ensures PathsIn(definitions[..n]) <= PathsIn(definitions)
    decreases |definitions|
  {
    if n < |definitions| {
      PathsGrow(definitions[..|definitions| - 1], n);
      assert definitions[..|definitions| - 1][..n] == definitions[..n];
    } else {
      assert definitions[..n] == definitions;
    }
  }

  lemma {:induction false} FirstAreAcceptable(views: seq<View>, n: nat, limits: Limits)
    requires n <= |views| && WellNamed(views[..n])
    requires |views| <= limits.definitions && PathsIn(DefinitionsOf(views)) <= limits.references
    ensures Acceptable(EntriesOf(views[..n]), limits)
  {
    var before := views[..n];
    PathsGrow(DefinitionsOf(views), n);
    assert DefinitionsOf(views)[..n] == DefinitionsOf(before);
    DistinctEntries(before);
    assert [] + EntriesOf(before) == EntriesOf(before);
    NothingIsAcceptable(limits);
    hide *;
    ViewsAreAcceptable([], before, limits);
  }

  lemma {:induction false} NothingIsAcceptable(limits: Limits)
    ensures Acceptable([], limits) && ReferencesIn([]) == 0
  {
  }

  lemma {:induction false} SpellingsBefore(lead: string, views: seq<View>, n: nat)
    requires n <= |views|
    ensures Spellings(lead, views)[..n] == Spellings(lead, views[..n])
  {
    hide Spelling;
    forall i | 0 <= i < n ensures Spellings(lead, views)[i] == Spellings(lead, views[..n])[i] {
      SpellingAt(lead, views, i);
      SpellingAt(lead, views[..n], i);
    }
  }

  lemma {:induction false} TextsSplit(statements: seq<Written>, n: nat, tail: string)
    requires n < |statements|
    ensures TextOf(statements) + tail ==
            TextOf(statements[..n]) + (Text(statements[n]) + (TextOf(statements[n + 1..]) + tail))
  {
    hide Text;
    TextsAppend(statements[..n], statements[n..]);
    assert statements[..n] + statements[n..] == statements;
    assert statements[n..][1..] == statements[n + 1..];
    var a, b, c := TextOf(statements[..n]), Text(statements[n]), TextOf(statements[n + 1..]);
    assert a + (b + c) + tail == a + (b + (c + tail));
  }

  /** A refused statement ends the reading, whatever stands behind it. */
  lemma {:induction false} RefusalEndsReading(w: Written, rest: string, p: Progress, selected: string, limits: Limits)
    requires WellWritten(w) && |w.pieces| <= limits.references * 2 + 32 && |p.unsupported| <= |p.names|
    requires Account(p, Tokens(w.pieces), selected, limits) == Err(Invalid)
    ensures Drive(Text(w) + rest, p, selected, limits) == Err(Invalid)
  {
    hide Resume, Account, WellWritten, Text, Tokens;
    StatementIsRead(w, rest, limits.references);
  }

  lemma {:induction false} RefusedIsRefused(views: seq<View>, n: nat, selected: string, limits: Limits)
    requires Writable(views) && FirstRefused(views, n) && IsSupportedName(selected)
    requires |views| <= limits.definitions && PathsIn(DefinitionsOf(views)) <= limits.references
    ensures Parse(Merged("", ViewTexts(views)), selected, limits) == Err(Invalid)
  {
    assert n <= |views|;
    hide *;
    var all, low, tail := Spellings(START, views), Lower(selected), Tail("", "", views);
    var before, entries := Spellings(START, views[..n]), EntriesOf(views[..n]);
    AtRefused(views, n);
    var lead := if n == 0 then START else "\n";
    var rest := TextOf(all[n + 1..]) + tail;
    StartIsGap(views);
    NothingEarlier(views);
    TextsSplit(all, n, tail);
    SpellingsBefore(START, views, n);
    SpellingAt(START, views, n);
    ParseDrives(TextOf(all) + tail, selected, limits);
    ViewsAreWritten(START, views);
    ViewsAreWritten(START, views[..n]);
    SpellingsAreShort(START, views, limits);
    ShortAt(all, n, limits);
    FirstAreAcceptable(views, n, limits);
    NothingTallied(entries, low);
    CatalogIsDriven(before, entries, 0, Text(all[n]) + rest, low, limits);
    assert before[0..] == before;
    RefusedByAccount(views, n, lead, low, limits);
    TallyCounts(entries, low);
    RefusalEndsReading(all[n], rest, Tally(entries, low), low, limits);
  }

  lemma {:induction false} AtRefused(views: seq<View>, n: nat)
    requires Writable(views) && FirstRefused(views, n)
    ensures n < |views| && Printable(views[..n]) && Writable(views[..n]) && WellNamed(views[..n])
    ensures IsWord(views[n].name) && views[n].definition.paths != []
  {
  }

  lemma {:induction false} ShortAt(statements: seq<Written>, n: nat, limits: Limits)
    requires ShortEnough(statements, limits) && n < |statements|
    ensures |statements[n].pieces| <= limits.references * 2 + 32 && ShortEnough(statements[..n], limits)
  {
  }

  lemma {:induction false} TallyCounts(entries: seq<Entry>, selected: string)
    ensures Tally(entries, selected).names == NamesIn(entries)
    ensures Tally(entries, selected).unsupported == UnsupportedIn(entries)
  {
  }

  /**
    The exact account of a printed catalog: that of its views when all names are short enough and
    different, and otherwise nothing at all.
   */
  lemma {:induction false} PrintedIsAccounted(views: seq<View>, selected: string, limits: Limits)
    requires Writable(views) && IsSupportedName(selected)
    requires |views| <= limits.definitions && PathsIn(DefinitionsOf(views)) <= limits.references
    ensures |UnsupportedIn(EntriesOf(views))| <= |EntriesOf(views)|
    ensures Parse(Merged("", ViewTexts(views)), selected, limits) ==
            if WellNamed(views) then Verdict(EntriesOf(views), Lower(selected)) else Err(Invalid)
  {
    hide *;
    UnsupportedAreFew(EntriesOf(views));
    if WellNamed(views) {
      AtWellNamed(views);
      assert views[..|views|] == views;
      FirstAreAcceptable(views, |views|, limits);
      StartIsGap(views);
      NothingEarlier(views);
      ViewsAreWritten(START, views);
      SpellingsAreShort(START, views, limits);
      GapIsTail(Tail("", "", views));
      CatalogIsAccounted(
        Spellings(START, views), EntriesOf(views), Tail("", "", views), selected, limits);
    } else {
      var n := SomeIsRefused(views);
      RefusedIsRefused(views, n, selected, limits);
    }
  }

  lemma {:induction false} AtWellNamed(views: seq<View>)
    requires WellNamed(views)
    ensures Printable(views) && DistinctViews(views)
  {
  }
}
