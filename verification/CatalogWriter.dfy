/**
  Catalogs as the pipeline writes them: a generated block of comments and printed views behind what
  was there before. What the reader makes of such a text.
 */
module CatalogWriter {
  import opened Wrappers
  import opened CatalogLexer
  import opened CatalogGaps
  import opened CatalogRendering
  import opened CatalogParser
  import opened CatalogRoundTrip
  import opened CatalogPieces
  import opened LogicalPath

  // -------------------------------------------------------------- the writer

  function ViewTexts(views: seq<View>): string
    requires forall i :: 0 <= i < |views| ==> views[i].definition.paths != []
  {
    if views == [] then "" else ViewText(views[0]) + ViewTexts(views[1..])
  }

  const BEGIN := Comment(" BEGIN research.hist_etl")
  const GENERATED := " Generated by python -m research.hist_etl." + " Do not edit inside this block."
  const NOTE := Comment(GENERATED)
  const NO_FILES := Comment(" No pipeline parquet files yet.")
  const END := Comment(" END research.hist_etl")

  /** The generated block behind what is kept of the catalog that was there before. */
  function Merged(prefix: string, statements: string): string {
    var body := BEGIN + NOTE + (if statements == "" then NO_FILES else statements) + END;
    if prefix == "" then body else prefix + "\n\n" + body
  }

  // ------------------------------------------------------------ whole catalogs

  /** The views in order, the first behind `lead`, each other one on a new line. */
  function Spellings(lead: string, views: seq<View>): (r: seq<Written>)
    ensures |r| == |views|
    decreases |views|
  {
    if views == [] then [] else [Spelling(lead, views[0])] + Spellings("\n", views[1..])
  }

  function EntriesOf(views: seq<View>): seq<Entry> {
    seq(|views|, i requires 0 <= i < |views| => EntryOf(views[i]))
  }

  /** Every view is named by a word and reads something. */
  predicate Writable(views: seq<View>) {
    forall i :: 0 <= i < |views| ==> IsWord(views[i].name) && views[i].definition.paths != []
  }

  /** Every view has a name that is accounted for, and reads something. */
  predicate Printable(views: seq<View>) {
    Writable(views) && forall i :: 0 <= i < |views| ==> IsName(views[i].name)
  }

  lemma {:induction false} PrintableIsWritable(views: seq<View>)
    requires Printable(views)
    ensures Writable(views)
  {
  }

  lemma {:induction false} TextsAreSpelled(lead: string, views: seq<View>)
    requires Writable(views) && views != []
    ensures TextOf(Spellings(lead, views)) + "\n" == lead + ViewTexts(views)
    decreases |views|
  {
    hide Spelling, ViewText, Text, IsWord;
    var first, rest := Spelling(lead, views[0]), Spellings("\n", views[1..]);
    assert ([first] + rest)[1..] == rest;
    ViewTextIsSpelled(lead, views[0]);
    if |views| == 1 {
      assert rest == [] && TextOf(rest) == [] && ViewTexts(views[1..]) == "";
      assert TextOf([first] + rest) == Text(first) && ViewTexts(views) == ViewText(views[0]);
    } else {
      TextsAreSpelled("\n", views[1..]);
      Shifted(Text(first), TextOf(rest), "\n", ViewTexts(views[1..]));
      assert Text(first) + "\n" + ViewTexts(views[1..]) == lead + ViewText(views[0]) + ViewTexts(views[1..]);
    }
  }

  lemma {:induction false} Shifted(a: string, b: string, line: string, c: string)
    requires b + line == line + c
    ensures a + b + line == a + line + c
  {
    assert a + b + line == a + (b + line);
  }

  /** Printed views are well written, and those with short enough names spell their entries. */
  lemma {:induction false} ViewsAreWritten(lead: string, views: seq<View>)
    requires Writable(views) && IsGap(lead)
    ensures forall i :: 0 <= i < |views| ==> WellWritten(Spellings(lead, views)[i])
    ensures Printable(views) ==> Writes(Spellings(lead, views), EntriesOf(views))
  {
    hide Spelling, EntryOf, WellWritten, SpellsEntry, IsName, IsWord, IsGap, Tokens;
    LineIsGap();
    forall i | 0 <= i < |views|
      ensures WellWritten(Spellings(lead, views)[i])
      ensures Printable(views) ==> SpellsEntry(Tokens(Spellings(lead, views)[i].pieces), EntriesOf(views)[i])
    {
      var before := if i == 0 then lead else "\n";
      SpellingAt(lead, views, i);
      ViewIsWritten(before, views[i]);
      if Printable(views) {
        ViewSpellsEntry(before, views[i]);
      }
    }
  }

  lemma {:induction false} LineIsGap()
    ensures IsGap("\n")
  {
    SpacesAreGap("\n");
  }

  // --------------------------------------------------------- the generated block

  lemma {:induction false} CommentsAreLines()
    ensures OneLine(" BEGIN research.hist_etl") && OneLine(" END research.hist_etl")
    ensures OneLine(" No pipeline parquet files yet.") && OneLine(GENERATED)
  {
    var a, b := " Generated by python -m research.hist_etl.", " Do not edit inside this block.";
    assert OneLine(a) && OneLine(b);
    forall i | 0 <= i < |GENERATED| ensures GENERATED[i] != '\n' && GENERATED[i] != '\r' {
      assert GENERATED[i] == if i < |a| then a[i] else b[i - |a|];
    }
  }

  /** What stands before the first view of the block; `kept` is what was kept behind the last earlier statement. */
  function Lead(prefix: string, kept: string): string {
    if prefix == "" then BEGIN + NOTE else kept + ("\n\n" + (BEGIN + NOTE))
  }

  lemma {:induction false} NoteIsGap()
    ensures IsGap(BEGIN + NOTE) && IsGap("\n" + (BEGIN + NOTE))
  {
    hide IsGap, Comment, OneLine;
    CommentsAreLines();
    SpacesAreGap("");
    CommentIsGap(GENERATED, "");
    assert NOTE + "" == NOTE;
    CommentIsGap(" BEGIN research.hist_etl", NOTE);
    NewLineIsGap(BEGIN + NOTE);
  }

  lemma {:induction false} LeadIsGap(prefix: string, g: string)
    requires IsTail(g)
    ensures IsGap(Lead(prefix, Stripped(g)))
  {
    hide IsGap, BEGIN, NOTE, IsTail, Stripped;
    NoteIsGap();
    StrippedTailGoesOn(g, "\n" + (BEGIN + NOTE));
    assert "\n" + ("\n" + (BEGIN + NOTE)) == "\n\n" + (BEGIN + NOTE);
  }

  /** What stands behind the last view of the block. */
  function Tail(prefix: string, kept: string, views: seq<View>): string {
    if views == [] then Lead(prefix, kept) + (NO_FILES + END) else "\n" + END
  }

  lemma {:induction false} TailIsGap(prefix: string, g: string, views: seq<View>)
    requires IsTail(g)
    ensures IsGap(Tail(prefix, Stripped(g), views))
  {
    hide IsGap, Comment, OneLine, IsTail, Stripped, Lead;
    CommentsAreLines();
    EndIsGap();
    LeadIsGap(prefix, g);
    NewLineIsGap(END);
    CommentIsGap(" No pipeline parquet files yet.", END);
    GapAppend(Lead(prefix, Stripped(g)), NO_FILES + END);
  }

  lemma {:induction false} EndIsGap()
    ensures IsGap(END)
  {
    hide IsGap, Comment, OneLine;
    CommentsAreLines();
    SpacesAreGap("");
    CommentIsGap(" END research.hist_etl", "");
    assert END + "" == END;
  }

  lemma {:induction false} TextsAppend(a: seq<Written>, b: seq<Written>)
    ensures TextOf(a + b) == TextOf(a) + TextOf(b)
    decreases |a|
  {
    hide Text;
    if a == [] {
      assert a + b == b;
    } else {
      assert (a + b)[1..] == a[1..] + b;
      TextsAppend(a[1..], b);
    }
  }

  lemma {:induction false} Between(prefix: string, lead: string, texts: string, spelled: string, end: string)
    requires spelled + "\n" == lead + texts
    ensures prefix + spelled + ("\n" + end) == prefix + (lead + (texts + end))
  {
    assert spelled + ("\n" + end) == spelled + "\n" + end;
    assert prefix + spelled + ("\n" + end) == prefix + (spelled + ("\n" + end));
    assert lead + texts + end == lead + (texts + end);
  }

  lemma {:induction false} MergedIs(text: string, kept: string, texts: string)
    ensures var prefix := text + kept;
            Merged(prefix, texts) == text + (Lead(prefix, kept) + ((if texts == "" then NO_FILES else texts) + END))
  {
    hide Comment;
    var prefix, inner := text + kept, if texts == "" then NO_FILES else texts;
    assert BEGIN + NOTE + inner + END == BEGIN + NOTE + (inner + END);
    if prefix == "" {
      assert text + (Lead(prefix, kept) + (inner + END)) == Lead(prefix, kept) + (inner + END);
    } else {
      Regrouped(text, kept, BEGIN + NOTE, inner + END);
    }
  }

  lemma {:induction false} Regrouped(text: string, kept: string, note: string, inner: string)
    ensures text + kept + "\n\n" + (note + inner) == text + (kept + ("\n\n" + note) + inner)
  {
    assert kept + ("\n\n" + note) + inner == kept + ("\n\n" + (note + inner));
    assert text + kept + "\n\n" == text + (kept + "\n\n");
  }

  lemma {:induction false} SomeText(views: seq<View>)
    requires Writable(views) && views != []
    ensures ViewTexts(views) != ""
  {
    hide BodyText, IsWord;
    assert |CreateText(views[0].name)| > 0;
    assert |ViewTexts(views)| >= |ViewText(views[0])|;
  }

  /** The merged catalog is the earlier statements and the views, written one behind the other. */
  lemma {:induction false} MergedIsSpelled(earlier: seq<Written>, kept: string, views: seq<View>)
    requires Writable(views)
    ensures var prefix := TextOf(earlier) + kept;
            Merged(prefix, ViewTexts(views)) ==
            TextOf(earlier + Spellings(Lead(prefix, kept), views)) + Tail(prefix, kept, views)
  {
    hide ViewText, Text, IsWord, Comment, Spelling, Merged, Lead;
    var prefix, texts := TextOf(earlier) + kept, ViewTexts(views);
    var lead := Lead(prefix, kept);
    MergedIs(TextOf(earlier), kept, texts);
    TextsAppend(earlier, Spellings(lead, views));
    if views == [] {
      assert TextOf(earlier) + [] == TextOf(earlier);
    } else {
      SomeText(views);
      TextsAreSpelled(lead, views);
      Between(TextOf(earlier), lead, texts, TextOf(Spellings(lead, views)), END);
    }
  }

  // ----------------------------------------------------------- what is counted

  lemma {:induction false} PathLiterals(tokens: seq<Token>, d: Definition, i: nat)
    requires PrintedBody(tokens, d) && AllLexical(tokens) && i <= |d.paths|
    ensures Literals(tokens[6 + 2 * i..]) == |d.paths| - i
    decreases |d.paths| - i
  {
    hide Literals, AllLexical, Quote, FlagPieces;
    var k := 6 + 2 * i;
    if i == |d.paths| {
      EndIsPrinted(tokens, d);
      EndLiterals(tokens, k, d.unionByName);
    } else {
      assert tokens[k] == Token(Literal, Quote(d.paths[i]));
      assert tokens[k + 1] == Token(Symbol, ",") || tokens[k + 1] == Token(Symbol, "]");
      LiteralsStep(tokens, k);
      LiteralsStep(tokens, k + 1);
      PathLiterals(tokens, d, i + 1);
    }
  }

  /** A printed body has one literal for each path and no forbidden word, whatever its paths are. */
  lemma {:induction false} PrintedIsClean(d: Definition)
    requires d.paths != []
    ensures var tokens := Tokens(BodyPieces(d));
            && Literals(tokens) == |d.paths|
            && AllLexical(tokens)
            && |tokens| <= 11 + 2 * |d.paths|
            && !exists k :: 0 <= k < |tokens| && IsForbidden(tokens[k])
  {
    var tokens := Tokens(BodyPieces(d));
    BodyIsPrinted(d);
    BodyIsLexical(d);
    hide Tokens, BodyPieces, Literals, AllLexical, Quote, PrintedBody, FlagPieces;
    PathLiterals(tokens, d, 0);
    HeadIsPrinted(tokens, d);
    HeadIsPlain(tokens);
    LiteralsStep(tokens, 5);
    forall k | 0 <= k < |tokens| ensures !IsForbidden(tokens[k]) {
      PrintedIsNotForbidden(tokens, d, k);
    }
  }

  lemma {:induction false} BodyIsLexical(d: Definition)
    requires d.paths != []
    ensures AllLexical(Tokens(BodyPieces(d)))
  {
    BodyIsSound(d);
    hide BodyPieces, Sound, Spelled, AllLexical;
    SoundIsSpelled(BodyPieces(d), ";");
    PiecesAreLexical(BodyPieces(d), ";");
  }

  lemma {:induction false} PrintedIsNotForbidden(tokens: seq<Token>, d: Definition, k: nat)
    requires PrintedBody(tokens, d) && k < |tokens|
    ensures !IsForbidden(tokens[k])
  {
    HeadIsPrinted(tokens, d);
    EndIsPrinted(tokens, d);
    hide Upper, Quote, FlagPieces;
    if k < 5 {
      assert Takes(tokens, k, HEAD[k]);
      SafeIsNotForbidden(HEAD[k]);
    } else if k >= 6 + 2 * |d.paths| {
      hide PrintedBody;
      EndIsSafe(tokens, 6 + 2 * |d.paths|, d.unionByName, k);
      SafeIsNotForbidden(Upper(tokens[k].text));
    } else if k == 5 {
      assert tokens[5] == SELECT_PIECES[5].token;
    }
  }

  function DefinitionsOf(views: seq<View>): seq<Definition> {
    seq(|views|, i requires 0 <= i < |views| => views[i].definition)
  }

  lemma {:induction false} ReferencesAppend(earlier: seq<Entry>, views: seq<View>)
    requires Printable(views)
    ensures ReferencesIn(earlier + EntriesOf(views)) == ReferencesIn(earlier) + PathsIn(DefinitionsOf(views))
    decreases |views|
  {
    hide Literals, EntryOf, IsName;
    if views == [] {
      assert earlier + EntriesOf(views) == earlier;
    } else {
      var n := |views| - 1;
      ReferencesAppend(earlier, views[..n]);
      var all := earlier + EntriesOf(views);
      assert all[..|all| - 1] == earlier + EntriesOf(views[..n]);
      assert DefinitionsOf(views)[..n] == DefinitionsOf(views[..n]);
      assert Literals(EntryOf(views[n]).body) == |views[n].definition.paths| by {
        PrintedIsClean(views[n].definition);
        EntryBody(views[n]);
      }
    }
  }

  lemma {:induction false} EntryBody(v: View)
    ensures EntryOf(v).body == Tokens(BodyPieces(v.definition)) && EntryOf(v).name == v.name
  {
  }

  // -------------------------------------------------------------- main claims

  lemma {:induction false} LowerIsSupported(name: string)
    requires IsSupportedName(name)
    ensures IsSupportedName(Lower(name)) && IsName(name)
  {
    assert Lower(Lower(name)[..5]) == Lower(name[..5]);
    assert IsLetter(name[0]) by {
      assert Lower(name[..5])[0] == LowerChar(name[0]);
      assert "hist_"[0] == 'h' && "live_"[0] == 'l';
    }
  }

  lemma {:induction false} SupportedIsLowered(name: string)
    ensures IsSupportedName(Lower(name)) <==> IsSupportedName(name)
  {
    if IsSupportedName(Lower(name)) {
      assert Lower(Lower(name)[..5]) == Lower(name[..5]);
      forall i | 0 <= i < |name| ensures IsWordChar(name[i]) {
        assert IsWordChar(Lower(name)[i]);
      }
    }
    if IsSupportedName(name) {
      LowerIsSupported(name);
    }
  }

  /** What the reader makes of one view: its definition exactly when the name is supported and every reference safe. */
  lemma {:induction false} ViewIsUnderstoodIff(v: View)
    requires v.definition.paths != []
    ensures DefinitionIn(EntryOf(v)) ==
            if IsSupportedName(v.name) && AllSafe(v.definition.paths) then Some(v.definition) else None
  {
    hide IsSupportedName, DefinitionOf, AllSafe, BodyPieces, Tokens;
    SupportedIsLowered(v.name);
    PrintedIsUnderstoodIffSafe(v.definition);
  }

  lemma {:induction false} SpellingIsShort(lead: string, v: View)
    requires v.definition.paths != []
    ensures |Spelling(lead, v).pieces| <= 17 + 2 * |v.definition.paths|
  {
    var n := |BodyPieces(v.definition)|;
    TokensOfAll(BodyPieces(v.definition));
    PrintedIsClean(v.definition);
    hide BodyPieces, Tokens;
  }

  lemma {:induction false} SpellingsAreShort(lead: string, views: seq<View>, limits: Limits)
    requires Writable(views) && PathsIn(DefinitionsOf(views)) <= limits.references
    ensures ShortEnough(Spellings(lead, views), limits)
  {
    hide IsWord;
    forall i | 0 <= i < |views| ensures |Spellings(lead, views)[i].pieces| <= limits.references * 2 + 32 {
      SpellingAt(lead, views, i);
      SpellingIsShort(if i == 0 then lead else "\n", views[i]);
      PathsAreWithin(DefinitionsOf(views), i);
    }
  }

  lemma {:induction false} SpellingAt(lead: string, views: seq<View>, i: nat)
    requires i < |views|
    ensures Spellings(lead, views)[i] == Spelling(if i == 0 then lead else "\n", views[i])
    decreases |views|
  {
    hide Spelling;
    if i > 0 {
      SpellingAt("\n", views[1..], i - 1);
    }
  }

  lemma {:induction false} PathsAreWithin(definitions: seq<Definition>, k: nat)
    requires k < |definitions|
    ensures |definitions[k].paths| <= PathsIn(definitions)
    decreases |definitions|
  {
    if k < |definitions| - 1 {
      PathsAreWithin(definitions[..|definitions| - 1], k);
    }
  }

  /** Earlier statements that are acceptable by themselves stay so with printed views behind them, within the limits. */
  lemma {:induction false} ViewsAreAcceptable(earlier: seq<Entry>, views: seq<View>, limits: Limits)
    requires Acceptable(earlier, limits) && Printable(views)
    requires DistinctNames(earlier + EntriesOf(views)) && |earlier| + |views| <= limits.definitions
    requires ReferencesIn(earlier) + PathsIn(DefinitionsOf(views)) <= limits.references
    ensures Acceptable(earlier + EntriesOf(views), limits)
  {
    hide IsForbidden, ReferencesIn, DistinctNames, IsName, EntryOf;
    ReferencesAppend(earlier, views);
    var all := earlier + EntriesOf(views);
    forall i | 0 <= i < |all| ensures !exists k :: 0 <= k < |all[i].body| && IsForbidden(all[i].body[k]) {
      if i < |earlier| {
        assert all[i] == earlier[i];
      } else {
        var v := views[i - |earlier|];
        assert all[i] == EntryOf(v);
        EntryBody(v);
        PrintedIsClean(v.definition);
      }
    }
  }

  lemma {:induction false} WritesBoth(
    earlier: seq<Written>, earlierEntries: seq<Entry>, more: seq<Written>, moreEntries: seq<Entry>, limits: Limits)
    requires Writes(earlier, earlierEntries) && Writes(more, moreEntries)
    requires ShortEnough(earlier, limits) && ShortEnough(more, limits)
    ensures Writes(earlier + more, earlierEntries + moreEntries) && ShortEnough(earlier + more, limits)
  {
    hide WellWritten, SpellsEntry, Tokens;
  }

  lemma {:induction false} TextEnds(statements: seq<Written>)
    ensures TextOf(statements) == [] || !IsSpace(TextOf(statements)[|TextOf(statements)| - 1])
    decreases |statements|
  {
    hide Render;
    if statements != [] {
      TextEnds(statements[1..]);
      assert Text(statements[0])[|Text(statements[0])| - 1] == ';';
    }
  }

  /**
    The reader on what the writer merges: whatever catalog stood there before, with whitespace and
    comments behind its last statement or nothing but them, the account is that of the earlier views
    followed by the printed ones.
   */
  lemma {:induction false} MergedIsAccounted(earlier: seq<Written>, earlierEntries: seq<Entry>, g: string,
                                             views: seq<View>, selected: string, limits: Limits)
    requires Writes(earlier, earlierEntries) && ShortEnough(earlier, limits) && Acceptable(earlierEntries, limits)
    requires IsTail(g)
    requires Printable(views) && DistinctNames(earlierEntries + EntriesOf(views))
    requires |earlierEntries| + |views| <= limits.definitions
    requires ReferencesIn(earlierEntries) + PathsIn(DefinitionsOf(views)) <= limits.references
    requires IsSupportedName(selected)
    ensures var all, existing := earlierEntries + EntriesOf(views), TextOf(earlier) + g;
            && |UnsupportedIn(all)| <= |all|
            && Parse(Merged(Stripped(existing), ViewTexts(views)), selected, limits) == Verdict(all, Lower(selected))
  {
    hide *;
    var prefix := TextOf(earlier) + Stripped(g);
    var lead, tail := Lead(prefix, Stripped(g)), Tail(prefix, Stripped(g), views);
    TextEnds(earlier);
    StrippedBehind(TextOf(earlier), g);
    LeadIsGap(prefix, g);
    PrintableIsWritable(views);
    ViewsAreWritten(lead, views);
    SpellingsAreShort(lead, views, limits);
    WritesBoth(earlier, earlierEntries, Spellings(lead, views), EntriesOf(views), limits);
    ViewsAreAcceptable(earlierEntries, views, limits);
    MergedIsSpelled(earlier, Stripped(g), views);
    TailIsGap(prefix, g, views);
    GapIsTail(tail);
    CatalogIsAccounted(
      earlier + Spellings(lead, views), earlierEntries + EntriesOf(views), tail, selected, limits);
  }

  lemma {:induction false} GapIsTail(g: string)
    requires IsGap(g)
    ensures IsTail(g)
  {
  }

  /** A view that can be both written and understood. */
  ghost predicate Understood(v: View) {
    IsSupportedName(v.name) && v.definition.paths != [] && AllSafe(v.definition.paths)
  }

  ghost predicate DistinctViews(views: seq<View>) {
    forall i, j :: 0 <= i < j < |views| ==> Lower(views[i].name) != Lower(views[j].name)
  }

  /**
    The round trip through text: every list of distinct supported names and valid definitions can be
    printed, and what is printed parses to the selected view's own definition, every view supported.
   */
  lemma {:induction false} PrintedIsRead(views: seq<View>, k: nat, limits: Limits)
    requires (forall i :: 0 <= i < |views| ==> Understood(views[i])) && DistinctViews(views) && k < |views|
    requires |views| <= limits.definitions && PathsIn(DefinitionsOf(views)) <= limits.references
    ensures Printable(views)
    ensures Parse(Merged("", ViewTexts(views)), views[k].name, limits)
         == Ok((views[k].definition, Accounting(|views|, |views|, [], PathsIn(DefinitionsOf(views)))))
  {
    hide *;
    AllPrintable(views);
    PrintableIsWritable(views);
    StartIsGap(views);
    ViewsAreWritten(START, views);
    AllDefined(views);
    AtEntry(views, k);
    NothingEarlier(views);
    GapIsTail(Tail("", "", views));
    RoundTrip(Spellings(START, views), EntriesOf(views), DefinitionsOf(views), Tail("", "", views), k, limits);
  }

  lemma {:induction false} AllPrintable(views: seq<View>)
    requires forall i :: 0 <= i < |views| ==> Understood(views[i])
    ensures Printable(views)
  {
    hide IsSupportedName, AllSafe, IsWord;
    forall i | 0 <= i < |views| ensures IsName(views[i].name) && IsWord(views[i].name) {
      LowerIsSupported(views[i].name);
    }
  }

  lemma {:induction false} AllDefined(views: seq<View>)
    requires (forall i :: 0 <= i < |views| ==> Understood(views[i])) && DistinctViews(views)
    ensures Defines(EntriesOf(views), DefinitionsOf(views)) && DistinctNames(EntriesOf(views))
    ensures |EntriesOf(views)| == |views|
  {
    hide IsSupportedName, IsName, AllSafe, SpellsDefinition, AllLexical, DefinitionOf, Lower;
    hide Tokens, BodyPieces;
    forall i | 0 <= i < |views|
      ensures IsSupportedName(Lower(views[i].name))
      ensures SpellsDefinition(EntryOf(views[i]).body, views[i].definition)
      ensures AllLexical(EntryOf(views[i]).body)
    {
      var d := views[i].definition;
      LowerIsSupported(views[i].name);
      PrintedIsUnderstoodIffSafe(d);
      DefinitionIffSpelled(Tokens(BodyPieces(d)), d);
      BodyIsLexical(d);
    }
  }

  lemma {:induction false} AtEntry(views: seq<View>, k: nat)
    requires k < |views| && Understood(views[k])
    ensures |EntriesOf(views)| == |views| && EntriesOf(views)[k].name == views[k].name
    ensures |DefinitionsOf(views)| == |views| && DefinitionsOf(views)[k] == views[k].definition
    ensures IsSupportedName(views[k].name)
  {
  }

  const START := BEGIN + NOTE

  lemma {:induction false} StartIsGap(views: seq<View>)
    ensures IsGap(START) && IsGap(Tail("", "", views))
  {
    hide IsGap, BEGIN, NOTE, Tail;
    SpacesAreGap("");
    NoteIsGap();
    GapIsTail("");
    TailIsGap("", "", views);
  }

  lemma {:induction false} NothingEarlier(views: seq<View>)
    requires Writable(views)
    ensures Merged("", ViewTexts(views)) == TextOf(Spellings(START, views)) + Tail("", "", views)
  {
    hide Writable, Merged, ViewTexts, BEGIN, NOTE, Tail, Spellings;
    MergedIsSpelled([], "", views);
    assert TextOf([]) + "" == "";
    assert [] + Spellings(START, views) == Spellings(START, views);
  }
}
