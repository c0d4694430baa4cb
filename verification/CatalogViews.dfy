/**
  The views the archive pipeline writes: their names and files, the statement rendered for each, and
  exactly which of them the reader understands.
 */
module CatalogViews {
  import opened Wrappers
  import opened CatalogLexer
  import opened CatalogParser
  import opened CatalogRoundTrip
  import opened CatalogPieces
  import opened CatalogWriter
  import opened CatalogRefusals
  import opened LogicalPath

  // ---------------------------------------------------------------- statements

  predicate IsNameChar(c: char) {
    'a' <= c <= 'z' || '0' <= c <= '9' || c == '_'
  }

  /** A view name the pipeline writes. */
  predicate IsViewName(name: string) {
    name != [] && 'a' <= name[0] <= 'z' && forall i :: 0 <= i < |name| ==> IsNameChar(name[i])
  }

  /** A path below the archive root that the pipeline writes. */
  predicate IsRelative(path: string) {
    '\'' !in path && ".." !in Split(path)
  }

  function ListedLines(relative: seq<string>): string
    requires relative != []
  {
    var line := "    '__HIST__/" + relative[0] + "'";
    if |relative| == 1 then line else line + ",\n" + ListedLines(relative[1..])
  }

  /** The statement the pipeline renders for a view; `None` when it refuses the name or the list of files. */
  function Rendered(name: string, relative: seq<string>): Option<string> {
    if !IsViewName(name) || relative == [] then None
    else
      var select := "\nSELECT * FROM read_parquet([" + ("\n" + ListedLines(relative)) + "\n])";
      Some(CreateText(name) + select + ";\n")
  }

  function InArchive(relative: seq<string>): (paths: seq<string>)
    ensures |paths| == |relative|
  {
    seq(|relative|, i requires 0 <= i < |relative| => "__HIST__/" + relative[i])
  }

  lemma {:induction false} NothingToDouble(s: string)
    requires '\'' !in s
    ensures Double(s) == s
  {
    if s != [] {
      NothingToDouble(s[1..]);
      assert [s[0]] + s[1..] == s;
    }
  }

  lemma {:induction false} LinesAreListed(relative: seq<string>)
    requires relative != [] && forall i :: 0 <= i < |relative| ==> IsRelative(relative[i])
    ensures Lines(InArchive(relative)) == ListedLines(relative)
    decreases |relative|
  {
    hide Split, Double;
    var path := "__HIST__/" + relative[0];
    NothingToDouble(path);
    assert "    " + ("'" + path + "'") == "    '__HIST__/" + relative[0] + "'";
    if |relative| > 1 {
      LinesAreListed(relative[1..]);
      assert InArchive(relative)[1..] == InArchive(relative[1..]);
    }
  }

  function ViewOver(name: string, relative: seq<string>): View {
    View(name, Definition(InArchive(relative), None))
  }

  /** The pipeline's statement is the printed view over its files, without the option. */
  lemma {:induction false} RenderedIsPrinted(name: string, relative: seq<string>)
    requires forall i :: 0 <= i < |relative| ==> IsRelative(relative[i])
    ensures Rendered(name, relative) ==
            if !IsViewName(name) || relative == [] then None else Some(ViewText(ViewOver(name, relative)))
  {
    hide IsViewName, IsRelative, Lines, ListedLines, InArchive, CreateText;
    if relative != [] {
      LinesAreListed(relative);
      Closed("\nSELECT * FROM read_parquet([" + ("\n" + ListedLines(relative)));
    }
  }

  lemma {:induction false} Closed(s: string)
    ensures s + "\n])" == s + "\n]" + "" + ")"
  {
    assert "\n]" + ")" == "\n])";
  }

  // ---------------------------------------------------------------- the archive

  /** What one or two views are made of: a directory of month files. */
  datatype Feed =
    | Binance(market: string, slug: string, symbol: string)
    | Kraken(pair: string, interval: string)
    | Funding(coin: string)

  /** A month of a feed; funding files are told apart by their dataset too. */
  datatype Month = Month(stamp: string, dataset: string)

  /** A feed with the month files that count, in the order of their names. */
  datatype Shelf = Shelf(feed: Feed, months: seq<Month>)

  /** A name a directory can list. */
  predicate IsListed(name: string) {
    |name| <= 255 && !IsDots(name) && '/' !in name
  }

  predicate IsCode(s: string) {
    s != [] && forall i :: 0 <= i < |s| ==> 'A' <= s[i] <= 'Z' || '0' <= s[i] <= '9'
  }

  predicate IsFeed(feed: Feed) {
    match feed
    case Binance(market, slug, symbol) => IsListed(market) && IsListed(slug) && IsCode(symbol)
    case Kraken(pair, interval) => IsListed(pair) && IsListed(interval)
    case Funding(coin) => IsCode(coin) && |coin| <= 20
  }

  /** A decimal digit; the other scripts' digits all come after the Latin ones. */
  predicate IsDigit(c: char) {
    '0' <= c <= '9' || c as int >= 0x660
  }

  /** A year and a month, as in 2024-05. */
  predicate IsStamp(s: string) {
    |s| == 7 && s[4] == '-' && forall i :: 0 <= i < 7 && i != 4 ==> IsDigit(s[i])
  }

  predicate IsDataset(id: string) {
    && id != [] && id[0] != '-'
    && forall i :: 0 <= i < |id| ==> 'a' <= id[i] <= 'z' || '0' <= id[i] <= '9' || id[i] == '-'
  }

  function FileName(feed: Feed, month: Month): string {
    match feed
    case Binance(_, _, symbol) => symbol + "-" + month.stamp + ".parquet"
    case Kraken(_, _) => month.stamp + ".parquet"
    case Funding(_) => month.stamp + "." + month.dataset + ".parquet"
  }

  predicate IsMonth(feed: Feed, month: Month) {
    IsStamp(month.stamp) && (feed.Funding? ==> IsDataset(month.dataset)) && IsListed(FileName(feed, month))
  }

  predicate IsShelf(shelf: Shelf) {
    IsFeed(shelf.feed) && forall i :: 0 <= i < |shelf.months| ==> IsMonth(shelf.feed, shelf.months[i])
  }

  function Folder(feed: Feed): seq<string> {
    match feed
    case Binance(market, slug, _) => ["parquet", "hist_etl", "binance", market, slug]
    case Kraken(pair, interval) => ["parquet", "hist_etl", "kraken", "ohlcvt", pair, interval]
    case Funding(coin) => ["parquet", "hist_etl", "hyperliquid", "funding", coin]
  }

  function Relative(feed: Feed, month: Month): string {
    Join(Folder(feed) + [FileName(feed, month)])
  }

  function Files(shelf: Shelf): seq<string> {
    seq(|shelf.months|, i requires 0 <= i < |shelf.months| => Relative(shelf.feed, shelf.months[i]))
  }

  /**
    The small letter of a letter of any script, as far as it can be one of a view name: only the Latin
    capitals and the Kelvin sign have such a small letter.
   */
  function SmallChar(c: char): char {
    if c == '\U{212A}' then 'k' else LowerChar(c)
  }

  function Small(s: string): (r: string)
    ensures |r| == |s|
  {
    seq(|s|, i requires 0 <= i < |s| => SmallChar(s[i]))
  }

  /** The names of a feed's views: its own and, on request, the one it had before. */
  function Names(feed: Feed, replaceLegacy: bool): seq<string> {
    match feed
    case Binance(market, slug, symbol) =>
      ["hist_bn_" + (market + ("_" + (Small(symbol) + ("_" + slug))))]
      + if replaceLegacy && symbol == "BTCUSDT" then ["hist_bn_" + (market + ("_" + slug))] else []
    case Kraken(pair, interval) =>
      ["hist_kr_ohlcvt_" + (Small(pair) + ("_" + interval))]
      + if replaceLegacy then ["hist_kr_" + (Small(pair) + ("_" + interval))] else []
    case Funding(coin) => ["hist_hl_funding_" + Small(coin)]
  }

  function ViewsOf(shelf: Shelf, replaceLegacy: bool): seq<View> {
    var names, files := Names(shelf.feed, replaceLegacy), Files(shelf);
    if shelf.months == [] then []
    else seq(|names|, i requires 0 <= i < |names| => ViewOver(names[i], files))
  }

  function AllViews(shelves: seq<Shelf>, replaceLegacy: bool): seq<View> {
    if shelves == [] then []
    else AllViews(shelves[..|shelves| - 1], replaceLegacy) + ViewsOf(shelves[|shelves| - 1], replaceLegacy)
  }

  /** No name is refused. */
  predicate AllNamed(views: seq<View>) {
    forall i :: 0 <= i < |views| ==> IsViewName(views[i].name)
  }

  // ---------------------------------------------------------------- plain paths

  /** A character that a path may hold without being refused for it. */
  predicate IsPlainChar(c: char) {
    c as int >= 32 && c as int != 127 && c != '\\' && c != ':' && c != '*' && c != '\''
  }

  predicate IsPlain(s: string) {
    forall i :: 0 <= i < |s| ==> IsPlainChar(s[i])
  }

  /** A component of a path that is neither refused nor left out. */
  predicate IsPart(part: string) {
    IsPlain(part) && |part| <= 255 && '/' !in part && !IsDots(part)
  }

  lemma {:induction false} OfNameIsPlain(s: string)
    requires forall i :: 0 <= i < |s| ==> IsNameChar(SmallChar(s[i]))
    ensures IsPlain(s)
  {
  }

  lemma {:induction false} OfName(a: string, b: string)
    requires forall i :: 0 <= i < |a + b| ==> IsNameChar((a + b)[i])
    ensures forall i :: 0 <= i < |a| ==> IsNameChar(a[i])
    ensures forall i :: 0 <= i < |b| ==> IsNameChar(b[i])
  {
    forall i | 0 <= i < |a| ensures IsNameChar(a[i]) {
      assert (a + b)[i] == a[i];
    }
    forall i | 0 <= i < |b| ensures IsNameChar(b[i]) {
      assert (a + b)[|a| + i] == b[i];
    }
  }

  lemma {:induction false} SmallOfName(s: string)
    requires forall i :: 0 <= i < |Small(s)| ==> IsNameChar(Small(s)[i])
    ensures IsPlain(s)
  {
    forall i | 0 <= i < |s| ensures IsNameChar(SmallChar(s[i])) {
      assert Small(s)[i] == SmallChar(s[i]);
    }
    OfNameIsPlain(s);
  }

  lemma {:induction false} PlainOfName(s: string)
    requires forall i :: 0 <= i < |s| ==> IsNameChar(s[i])
    ensures IsPlain(s)
  {
  }

  lemma {:induction false} PlainAppend(a: string, b: string)
    requires IsPlain(a) && IsPlain(b)
    ensures IsPlain(a + b)
  {
    hide IsPlainChar;
  }

  /** Of an accepted name the directories a feed is named after are plain. */
  lemma {:induction false} FolderIsPlain(feed: Feed, replaceLegacy: bool, k: nat)
    requires IsFeed(feed) && k < |Names(feed, replaceLegacy)| && IsViewName(Names(feed, replaceLegacy)[k])
    ensures forall i :: 0 <= i < |Folder(feed)| ==> IsPart(Folder(feed)[i])
  {
    hide IsNameChar, IsPlain, Small;
    match feed
    case Binance(market, slug, symbol) =>
      var named := Small(symbol) + ("_" + slug);
      if k == 0 {
        OfName("hist_bn_", market + ("_" + named));
        OfName(market, "_" + named);
        OfName("_", named);
        OfName(Small(symbol), "_" + slug);
      } else {
        OfName("hist_bn_", market + ("_" + slug));
        OfName(market, "_" + slug);
      }
      OfName("_", slug);
      PlainOfName(market);
      PlainOfName(slug);
      WordsArePlain();
    case Kraken(pair, interval) =>
      OfName(if k == 0 then "hist_kr_ohlcvt_" else "hist_kr_", Small(pair) + ("_" + interval));
      OfName(Small(pair), "_" + interval);
      OfName("_", interval);
      SmallOfName(pair);
      PlainOfName(interval);
      WordsArePlain();
    case Funding(coin) =>
      CodeIsPlain(coin);
      WordsArePlain();
  }

  lemma {:induction false} WordsArePlain()
    ensures forall word | word in ["parquet", "hist_etl", "binance", "kraken", "ohlcvt", "hyperliquid", "funding"] ::
              IsPart(word)
  {
    var words := ["parquet", "hist_etl", "binance", "kraken", "ohlcvt", "hyperliquid", "funding"];
    forall word | word in words ensures IsPart(word) {
      assert forall i :: 0 <= i < |word| ==> IsPlainChar(word[i]) && word[i] != '/';
    }
  }

  lemma {:induction false} CodeIsPlain(code: string)
    requires IsCode(code)
    ensures IsPlain(code) && '/' !in code && (|code| <= 255 ==> IsPart(code))
  {
    assert code[0] != '.';
  }

  lemma {:induction false} FileIsPlain(feed: Feed, month: Month)
    requires IsFeed(feed) && IsMonth(feed, month)
    ensures IsPart(FileName(feed, month)) && EndsWith(FileName(feed, month), ".parquet")
  {
    hide IsPlainChar;
    StampIsPlain(month.stamp);
    hide IsStamp, IsPlain, IsDots;
    match feed
    case Binance(_, _, symbol) =>
      CodeIsPlain(symbol);
      PlainAppend(symbol, "-");
      PlainAppend(symbol + "-", month.stamp);
      PlainAppend(symbol + "-" + month.stamp, ".parquet");
    case Kraken(_, _) =>
      PlainAppend(month.stamp, ".parquet");
    case Funding(_) =>
      DatasetIsPlain(month.dataset);
      PlainAppend(month.stamp, ".");
      PlainAppend(month.stamp + ".", month.dataset);
      PlainAppend(month.stamp + "." + month.dataset, ".parquet");
  }

  lemma {:induction false} StampIsPlain(stamp: string)
    requires IsStamp(stamp)
    ensures IsPlain(stamp) && IsPlain("-") && IsPlain(".") && IsPlain(".parquet")
  {
    var extension := ".parquet";
    assert IsPlain(extension);
  }

  lemma {:induction false} DatasetIsPlain(id: string)
    requires IsDataset(id)
    ensures IsPlain(id)
  {
  }

  lemma {:induction false} JoinIsPlain(parts: seq<string>)
    requires forall i :: 0 <= i < |parts| ==> IsPart(parts[i])
    ensures IsPlain(Join(parts)) && |Join(parts)| <= 256 * |parts|
    decreases |parts|
  {
    assert IsPlain("/");
    hide IsPlainChar;
    if |parts| > 1 {
      JoinIsPlain(parts[1..]);
      hide IsPlain;
      PlainAppend(parts[0], "/");
      PlainAppend(parts[0] + "/", Join(parts[1..]));
    }
  }

  lemma {:induction false} JoinEnds(parts: seq<string>, tail: string)
    requires parts != [] && EndsWith(parts[|parts| - 1], tail)
    ensures EndsWith(Join(parts), tail)
    decreases |parts|
  {
    if |parts| > 1 {
      JoinEnds(parts[1..], tail);
      var later := Join(parts[1..]);
      assert Join(parts)[|Join(parts)| - |tail|..] == later[|later| - |tail|..];
    }
  }

  lemma {:induction false} NotContained(s: string, needle: string)
    requires needle != [] && needle[0] !in s
    ensures !Contains(s, needle)
  {
    if s != [] {
      NotContained(s[1..], needle);
      assert |needle| <= |s| ==> s[..|needle|][0] == s[0];
    }
  }

  lemma {:induction false} PathIsSplit(feed: Feed, month: Month)
    requires forall i :: 0 <= i < |Folder(feed)| ==> IsPart(Folder(feed)[i])
    requires IsPart(FileName(feed, month))
    ensures Split("__HIST__/" + Relative(feed, month)) == ["__HIST__"] + (Folder(feed) + [FileName(feed, month)])
    ensures Split(Relative(feed, month)) == Folder(feed) + [FileName(feed, month)]
  {
    hide FileName, Folder, IsPlain, Split, Join;
    SplitJoin(Folder(feed) + [FileName(feed, month)]);
    AliasIsPlain();
    SplitFirst("__HIST__", Relative(feed, month));
    assert "__HIST__" + "/" == "__HIST__/";
  }

  lemma {:induction false} PathIsPlain(feed: Feed, month: Month)
    requires IsFeed(feed) && IsMonth(feed, month)
    requires forall i :: 0 <= i < |Folder(feed)| ==> IsPart(Folder(feed)[i])
    ensures var path := "__HIST__/" + Relative(feed, month);
            IsPlain(path) && |path| <= 4096 && EndsWith(path, ".parquet")
    ensures IsRelative(Relative(feed, month))
  {
    var parts := Folder(feed) + [FileName(feed, month)];
    assert |parts| <= 7;
    FileIsPlain(feed, month);
    PathIsSplit(feed, month);
    hide FileName, IsMonth, IsFeed, Folder, IsPlain, IsPlainChar, Split, Join;
    JoinIsPlain(parts);
    JoinEnds(parts, ".parquet");
    AliasIsPlain();
    PlainAppend("__HIST__/", Join(parts));
    PlainHasNoQuote(Join(parts));
  }

  lemma {:induction false} AliasIsPlain()
    ensures IsPlain("__HIST__/") && '/' !in "__HIST__"
  {
  }

  lemma {:induction false} PlainHasNoQuote(s: string)
    requires IsPlain(s)
    ensures '\'' !in s && ':' !in s && '*' !in s && '\\' !in s
    ensures !exists i :: 0 <= i < |s| && IsControl(s[i])
  {
  }

  /** Every file of a feed with an accepted name is a safe reference. */
  lemma {:induction false} FileIsSafe(feed: Feed, month: Month, replaceLegacy: bool, k: nat)
    requires IsFeed(feed) && IsMonth(feed, month)
    requires k < |Names(feed, replaceLegacy)| && IsViewName(Names(feed, replaceLegacy)[k])
    ensures LogicalParts("__HIST__/" + Relative(feed, month), true).Some?
    ensures IsRelative(Relative(feed, month))
  {
    var path := "__HIST__/" + Relative(feed, month);
    FolderIsPlain(feed, replaceLegacy, k);
    PathIsPlain(feed, month);
    FileIsPlain(feed, month);
    PathIsSplit(feed, month);
    hide IsFeed, IsMonth, Names, IsViewName, Relative, IsPlain, Folder, FileName;
    PlainHasNoQuote(path);
    NotContained(path, "://");
    NotContained(path, "**");
    hide Split, Contains, EndsWith;
    var parts := ["__HIST__"] + (Folder(feed) + [FileName(feed, month)]);
    forall i | 1 <= i < |parts| ensures !IsDots(parts[i]) {
      assert i < |parts| - 1 ==> parts[i] == Folder(feed)[i - 1];
    }
  }

  lemma {:induction false} NamedIsRelative(shelf: Shelf, replaceLegacy: bool)
    requires IsShelf(shelf) && AllNamed(ViewsOf(shelf, replaceLegacy))
    ensures forall i :: 0 <= i < |shelf.months| ==> IsRelative(Files(shelf)[i])
  {
    hide IsViewName, IsRelative, Relative, IsFeed, IsMonth;
    forall i | 0 <= i < |shelf.months| ensures IsRelative(Files(shelf)[i]) {
      assert ViewsOf(shelf, replaceLegacy)[0].name == Names(shelf.feed, replaceLegacy)[0];
      FileIsSafe(shelf.feed, shelf.months[i], replaceLegacy, 0);
    }
  }

  // ---------------------------------------------------------------- rendering

  ghost predicate Statements(statements: seq<(string, string)>, views: seq<View>) {
    && |statements| == |views|
    && forall i :: 0 <= i < |views| ==>
         && views[i].definition.paths != []
         && statements[i] == (views[i].name, ViewText(views[i]))
  }

  /** The paths of a shelf's files below the archive root; `None` when one of them is not to be written. */
  method RelativeFiles(shelf: Shelf) returns (r: Option<seq<string>>)
    ensures r.Some? <==> forall i :: 0 <= i < |shelf.months| ==> IsRelative(Files(shelf)[i])
    ensures r.Some? ==> r.value == Files(shelf)
  {
    hide Relative, IsRelative;
    var relative: seq<string> := [];
    for k := 0 to |shelf.months|
      invariant relative == Files(shelf)[..k]
      invariant forall i :: 0 <= i < k ==> IsRelative(Files(shelf)[i])
    {
      var path := Relative(shelf.feed, shelf.months[k]);
      assert path == Files(shelf)[k];
      if !IsRelative(path) {
        return None;
      }
      relative := relative + [path];
    }
    assert Files(shelf)[..|shelf.months|] == Files(shelf);
    return Some(relative);
  }

  /** The statements of one shelf's views behind those already rendered. */
  method RenderShelf(shelf: Shelf, replaceLegacy: bool, before: seq<(string, string)>)
    returns (r: Option<seq<(string, string)>>)
    requires IsShelf(shelf)
    ensures r.Some? <==> AllNamed(ViewsOf(shelf, replaceLegacy))
    ensures r.Some? ==>
      |before| <= |r.value| && r.value[..|before|] == before
      && Statements(r.value[|before|..], ViewsOf(shelf, replaceLegacy))
  {
    hide IsRelative, IsViewName, Relative, Names, ViewText, IsShelf;
    ghost var views := ViewsOf(shelf, replaceLegacy);
    if shelf.months == [] {
      assert before[..|before|] == before && before[|before|..] == [];
      return Some(before);
    }
    var files := RelativeFiles(shelf);
    if AllNamed(views) {
      NamedIsRelative(shelf, replaceLegacy);
    }
    if files.None? {
      return None;
    }
    var names, rendered := Names(shelf.feed, replaceLegacy), before;
    for k := 0 to |names|
      invariant |rendered| == |before| + k && rendered[..|before|] == before
      invariant forall i :: 0 <= i < k ==> IsViewName(names[i])
      invariant Statements(rendered[|before|..], views[..k])
    {
      RenderedIsPrinted(names[k], files.value);
      var statement := Rendered(names[k], files.value);
      assert views[k].name == names[k];
      if statement.None? {
        return None;
      }
      var more := rendered + [(names[k], statement.value)];
      assert more[|before|..] == rendered[|before|..] + [(names[k], statement.value)];
      assert views[..k + 1] == views[..k] + [views[k]];
      rendered := more;
    }
    assert views[..|names|] == views;
    return Some(rendered);
  }

  /**
    The statements of all views in the order of the walk; `None` when the pipeline refuses one of the
    names, and with it the whole catalog.
   */
  method RenderStatements(shelves: seq<Shelf>, replaceLegacy: bool) returns (r: Option<seq<(string, string)>>)
    requires forall i :: 0 <= i < |shelves| ==> IsShelf(shelves[i])
    ensures r.Some? <==> AllNamed(AllViews(shelves, replaceLegacy))
    ensures r.Some? ==> Statements(r.value, AllViews(shelves, replaceLegacy))
  {
    hide IsViewName, ViewsOf, IsShelf, ViewText;
    var statements: seq<(string, string)> := [];
    for k := 0 to |shelves|
      invariant AllNamed(AllViews(shelves[..k], replaceLegacy))
      invariant Statements(statements, AllViews(shelves[..k], replaceLegacy))
    {
      ghost var views := AllViews(shelves[..k], replaceLegacy);
      assert shelves[..k + 1][..k] == shelves[..k];
      assert AllViews(shelves[..k + 1], replaceLegacy) == views + ViewsOf(shelves[k], replaceLegacy);
      var more := RenderShelf(shelves[k], replaceLegacy, statements);
      if more.None? {
        RefusedForAll(shelves, replaceLegacy, k);
        return None;
      }
      assert more.value == statements + more.value[|statements|..];
      statements := more.value;
    }
    assert shelves[..|shelves|] == shelves;
    return Some(statements);
  }

  lemma {:induction false} RefusedForAll(shelves: seq<Shelf>, replaceLegacy: bool, k: nat)
    requires k < |shelves| && !AllNamed(ViewsOf(shelves[k], replaceLegacy))
    ensures !AllNamed(AllViews(shelves, replaceLegacy))
    decreases |shelves|
  {
    hide IsViewName, ViewsOf;
    var n := |shelves| - 1;
    var before, last := AllViews(shelves[..n], replaceLegacy), ViewsOf(shelves[n], replaceLegacy);
    if k < n {
      RefusedForAll(shelves[..n], replaceLegacy, k);
      var i :| 0 <= i < |before| && !IsViewName(before[i].name);
      assert (before + last)[i] == before[i];
    } else {
      var i :| 0 <= i < |last| && !IsViewName(last[i].name);
      assert (before + last)[|before| + i] == last[i];
    }
  }

  // ---------------------------------------------------------------- main claims

  lemma {:induction false} NameIsSupportedIff(feed: Feed, replaceLegacy: bool, k: nat)
    requires k < |Names(feed, replaceLegacy)| && IsViewName(Names(feed, replaceLegacy)[k])
    ensures var name := Names(feed, replaceLegacy)[k];
            && IsWord(name) && Lower(name) == name
            && (IsSupportedName(name) <==> |name| <= 127)
  {
    var name := Names(feed, replaceLegacy)[k];
    assert |name| >= 6 && name[..5] == "hist_" by {
      hide Small;
    }
    hide Names;
    assert Lower("hist_") == "hist_";
  }

  /** A rendered view is understood exactly when its name has at most 127 characters, whatever its files. */
  lemma {:induction false} RenderedIsUnderstoodIff(shelf: Shelf, replaceLegacy: bool, k: nat)
    requires IsShelf(shelf) && k < |Names(shelf.feed, replaceLegacy)|
    requires Rendered(Names(shelf.feed, replaceLegacy)[k], Files(shelf)).Some?
    ensures var v := ViewOver(Names(shelf.feed, replaceLegacy)[k], Files(shelf));
            && Rendered(v.name, Files(shelf)) == Some(ViewText(v))
            && DefinitionIn(EntryOf(v)) == if |v.name| <= 127 then Some(v.definition) else None
  {
    hide IsFeed, IsMonth, IsViewName, Names, IsRelative, Relative, ListedLines, LogicalParts, DefinitionIn, ViewText;
    var v := ViewOver(Names(shelf.feed, replaceLegacy)[k], Files(shelf));
    forall i | 0 <= i < |shelf.months|
      ensures LogicalParts(v.definition.paths[i], true).Some? && IsRelative(Files(shelf)[i])
    {
      FileIsSafe(shelf.feed, shelf.months[i], replaceLegacy, k);
    }
    RenderedIsPrinted(v.name, Files(shelf));
    NameIsSupportedIff(shelf.feed, replaceLegacy, k);
    ViewIsUnderstoodIff(v);
  }

  ghost predicate IsArchive(shelves: seq<Shelf>) {
    forall i :: 0 <= i < |shelves| ==> IsShelf(shelves[i])
  }

  /** A view as it is rendered: named by a word in small letters, and understood if its name is not too long. */
  ghost predicate IsArchiveView(v: View) {
    && IsWord(v.name) && Lower(v.name) == v.name && v.definition.paths != []
    && (IsSupportedName(v.name) <==> |v.name| <= 127)
    && DefinitionIn(EntryOf(v)) == if |v.name| <= 127 then Some(v.definition) else None
  }

  lemma {:induction false} ShelfViews(shelf: Shelf, replaceLegacy: bool, k: nat)
    requires IsShelf(shelf) && AllNamed(ViewsOf(shelf, replaceLegacy)) && k < |ViewsOf(shelf, replaceLegacy)|
    ensures IsArchiveView(ViewsOf(shelf, replaceLegacy)[k])
  {
    hide IsShelf, IsViewName, Names, Relative, ListedLines, DefinitionIn, EntryOf;
    var name := Names(shelf.feed, replaceLegacy)[k];
    assert ViewsOf(shelf, replaceLegacy)[k] == ViewOver(name, Files(shelf));
    NameIsSupportedIff(shelf.feed, replaceLegacy, k);
    RenderedIsUnderstoodIff(shelf, replaceLegacy, k);
  }

  lemma {:induction false} ArchiveViews(shelves: seq<Shelf>, replaceLegacy: bool)
    requires IsArchive(shelves) && AllNamed(AllViews(shelves, replaceLegacy))
    ensures var views := AllViews(shelves, replaceLegacy);
            forall i :: 0 <= i < |views| ==> IsArchiveView(views[i])
    decreases |shelves|
  {
    hide IsShelf, IsViewName, ViewsOf, IsArchiveView;
    if shelves != [] {
      var n := |shelves| - 1;
      var before, last := AllViews(shelves[..n], replaceLegacy), ViewsOf(shelves[n], replaceLegacy);
      forall i | 0 <= i < |before| ensures IsViewName(before[i].name) {
        assert (before + last)[i] == before[i];
      }
      forall i | 0 <= i < |last| ensures IsViewName(last[i].name) {
        assert (before + last)[|before| + i] == last[i];
      }
      ArchiveViews(shelves[..n], replaceLegacy);
      forall i | 0 <= i < |last| ensures IsArchiveView(last[i]) {
        ShelfViews(shelves[n], replaceLegacy, i);
      }
    }
  }

  ghost predicate ShortNamed(views: seq<View>) {
    forall i :: 0 <= i < |views| ==> |views[i].name| <= 128
  }

  ghost predicate NamedApart(views: seq<View>) {
    forall i, j :: 0 <= i < j < |views| ==> views[i].name != views[j].name
  }

  /** The names too long to be looked into. */
  function LongNames(views: seq<View>): seq<string> {
    if views == [] then []
    else
      var n := |views| - 1;
      LongNames(views[..n]) + if |views[n].name| > 127 then [views[n].name] else []
  }

  lemma {:induction false} UnsupportedAreLong(views: seq<View>)
    requires forall i :: 0 <= i < |views| ==> IsArchiveView(views[i])
    ensures UnsupportedIn(EntriesOf(views)) == LongNames(views)
    decreases |views|
  {
    hide IsSupportedName, IsWord, DefinitionIn, EntryOf, Lower;
    if views != [] {
      var n := |views| - 1;
      UnsupportedAreLong(views[..n]);
      EntryBody(views[n]);
      assert EntriesOf(views)[..n] == EntriesOf(views[..n]);
    }
  }

  lemma {:induction false} WellNamedIff(views: seq<View>)
    requires forall i :: 0 <= i < |views| ==> IsArchiveView(views[i])
    ensures Writable(views) && forall i :: 0 <= i < |views| ==> views[i].definition.paths != []
    ensures WellNamed(views) <==> ShortNamed(views) && NamedApart(views)
  {
    hide IsSupportedName, IsWord, DefinitionIn, EntryOf, Lower;
  }

  lemma {:induction false} AtView(views: seq<View>, k: nat)
    requires k < |views| && IsArchiveView(views[k])
    ensures |EntriesOf(views)| == |views| && EntriesOf(views)[k].name == views[k].name
    ensures IsSupportedName(views[k].name) <==> |views[k].name| <= 127
    ensures Lower(views[k].name) == views[k].name
    ensures |views[k].name| <= 127 ==> DefinitionIn(EntriesOf(views)[k]) == Some(views[k].definition)
  {
    hide IsWord, IsSupportedName, DefinitionIn, Lower, EntryOf;
    EntryBody(views[k]);
  }

  lemma {:induction false} References(views: seq<View>)
    requires Printable(views)
    ensures ReferencesIn(EntriesOf(views)) == PathsIn(DefinitionsOf(views))
  {
    hide Printable, PathsIn, EntryOf;
    ReferencesAppend([], views);
    assert [] + EntriesOf(views) == EntriesOf(views);
  }

  lemma {:induction false} VerdictIs(entries: seq<Entry>, selected: string, d: Definition)
    requires |UnsupportedIn(entries)| <= |entries| && FoundIn(entries, selected) == Some(d)
    ensures var n, unsupported := |entries|, UnsupportedIn(entries);
            Verdict(entries, selected) == Ok((d, Accounting(n, n - |unsupported|, unsupported, ReferencesIn(entries))))
  {
    hide UnsupportedIn, FoundIn, ReferencesIn;
  }

  lemma {:induction false} UnsupportedIsRefused(sql: string, selected: string, limits: Limits)
    requires !IsSupportedName(selected)
    ensures Parse(sql, selected, limits) == Err(Invalid)
  {
  }

  lemma {:induction false} RefusedUnless(views: seq<View>, k: nat, limits: Limits)
    requires k < |views| && forall i :: 0 <= i < |views| ==> IsArchiveView(views[i])
    requires |views| <= limits.definitions && PathsIn(DefinitionsOf(views)) <= limits.references
    requires !(|views[k].name| <= 127 && ShortNamed(views) && NamedApart(views))
    ensures Writable(views) && Parse(Merged("", ViewTexts(views)), views[k].name, limits) == Err(Invalid)
  {
    hide *;
    WellNamedIff(views);
    AtView(views, k);
    if IsSupportedName(views[k].name) {
      PrintedIsAccounted(views, views[k].name, limits);
    } else {
      UnsupportedIsRefused(Merged("", ViewTexts(views)), views[k].name, limits);
    }
  }

  lemma {:induction false} ReadIf(views: seq<View>, k: nat, limits: Limits)
    requires k < |views| && forall i :: 0 <= i < |views| ==> IsArchiveView(views[i])
    requires |views| <= limits.definitions && PathsIn(DefinitionsOf(views)) <= limits.references
    requires |views[k].name| <= 127 && ShortNamed(views) && NamedApart(views)
    ensures var n, long := |views|, LongNames(views);
            && Writable(views) && |long| <= n
            && Parse(Merged("", ViewTexts(views)), views[k].name, limits)
            == Ok((views[k].definition, Accounting(n, n - |long|, long, PathsIn(DefinitionsOf(views)))))
  {
    hide *;
    var entries := EntriesOf(views);
    WellNamedIff(views);
    AtWellNamed(views);
    AtView(views, k);
    PrintedIsAccounted(views, views[k].name, limits);
    DistinctEntries(views);
    SelectedIsFound(entries, k);
    References(views);
    UnsupportedAreLong(views);
    VerdictIs(entries, views[k].name, views[k].definition);
  }

  /**
    The catalog of an archive whose names are accepted: a view read from it gives that view's own files,
    every view accounted for, exactly when that view's name has at most 127 characters, no other has
    more than 128 and no two are the same. Otherwise nothing is read.
   */
  lemma {:induction false} ArchiveIsReadIff(shelves: seq<Shelf>, replaceLegacy: bool, k: nat, limits: Limits)
    requires IsArchive(shelves) && AllNamed(AllViews(shelves, replaceLegacy))
    requires k < |AllViews(shelves, replaceLegacy)| <= limits.definitions
    requires PathsIn(DefinitionsOf(AllViews(shelves, replaceLegacy))) <= limits.references
    ensures var views := AllViews(shelves, replaceLegacy);
            var n, long := |views|, LongNames(views);
            && Writable(views) && |long| <= n
            && Parse(Merged("", ViewTexts(views)), views[k].name, limits) ==
               if |views[k].name| <= 127 && ShortNamed(views) && NamedApart(views)
               then Ok((views[k].definition, Accounting(n, n - |long|, long, PathsIn(DefinitionsOf(views)))))
               else Err(Invalid)
  {
    var views := AllViews(shelves, replaceLegacy);
    ArchiveViews(shelves, replaceLegacy);
    hide *;
    if |views[k].name| <= 127 && ShortNamed(views) && NamedApart(views) {
      ReadIf(views, k, limits);
    } else {
      RefusedUnless(views, k, limits);
      UnsupportedAreLong(views);
      UnsupportedAreFew(EntriesOf(views));
      AtView(views, k);
    }
  }

  // ---------------------------------------------------------------- witnesses

  const JANUARY := Month("2024-01", "")

  const PLAIN_PAIR := Shelf(Kraken("XBTUSD", "60"), [JANUARY])

  /** A pair of the same letters in another case. */
  const TWIN_PAIR := Shelf(Kraken("xbtusd", "60"), [JANUARY])

  const LONG_PAIR := Shelf(Kraken(seq(120, i => 'a'), "60"), [JANUARY])

  lemma {:induction false} JanuaryIsMonth(feed: Feed)
    requires feed.Kraken?
    ensures IsMonth(feed, JANUARY)
  {
    var file := "2024-01.parquet";
    assert FileName(feed, JANUARY) == file && IsListed(file);
  }

  lemma {:induction false} PlainPairs(pair: string)
    requires pair == "XBTUSD" || pair == "xbtusd" || pair == LONG_PAIR.feed.pair
    ensures IsShelf(Shelf(Kraken(pair, "60"), [JANUARY]))
  {
    JanuaryIsMonth(Kraken(pair, "60"));
    hide IsMonth;
    assert IsListed("60");
    assert IsListed(pair);
  }

  lemma {:induction false} PairName(shelf: Shelf)
    requires shelf.feed.Kraken? && shelf.feed.interval == "60" && shelf.months == [JANUARY]
    requires forall i :: 0 <= i < |shelf.feed.pair| ==> IsNameChar(Small(shelf.feed.pair)[i])
    ensures |ViewsOf(shelf, false)| == 1 && |Files(shelf)| == 1
    ensures ViewsOf(shelf, false)[0] == ViewOver("hist_kr_ohlcvt_" + (Small(shelf.feed.pair) + "_60"), Files(shelf))
    ensures AllNamed(ViewsOf(shelf, false))
  {
    var start, pair := "hist_kr_ohlcvt_", Small(shelf.feed.pair);
    var name := start + (pair + "_60");
    assert "_" + "60" == "_60" && Names(shelf.feed, false)[0] == name;
    forall i | 0 <= i < |name| ensures IsNameChar(name[i]) {
      assert i < |start| ==> name[i] == start[i];
      assert |start| <= i < |start| + |pair| ==> name[i] == pair[i - |start|];
      assert |start| + |pair| <= i ==> name[i] == "_60"[i - |start| - |pair|];
    }
    hide Small, Relative;
  }

  lemma {:induction false} TwoShelves(first: Shelf, second: Shelf)
    requires |ViewsOf(first, false)| == |ViewsOf(second, false)| == 1
    ensures AllViews([first, second], false) == [ViewsOf(first, false)[0], ViewsOf(second, false)[0]]
  {
    var a, b := ViewsOf(first, false), ViewsOf(second, false);
    hide ViewsOf;
    assert [first, second][..1] == [first] && [first][..0] == [];
    assert AllViews([first], false) == AllViews([first][..0], false) + a;
    assert AllViews([first, second], false) == AllViews([first, second][..1], false) + b;
  }

  /** Two directories that differ in the case of their letters, or one whose name is long, close the catalog to all. */
  lemma {:induction false} OneViewClosesTheCatalog(other: Shelf, limits: Limits)
    requires other == TWIN_PAIR || other == LONG_PAIR
    requires 2 <= limits.definitions && 2 <= limits.references
    ensures var views := AllViews([PLAIN_PAIR, other], false);
            && IsArchive([PLAIN_PAIR, other]) && AllNamed(views) && |views| == 2
            && IsSupportedName(views[0].name) && Writable(views)
            && Parse(Merged("", ViewTexts(views)), views[0].name, limits) == Err(Invalid)
  {
    var shelves := [PLAIN_PAIR, other];
    PlainPairs(PLAIN_PAIR.feed.pair);
    PlainPairs(other.feed.pair);
    SmallPairs();
    PairName(PLAIN_PAIR);
    PairName(other);
    TwoShelves(PLAIN_PAIR, other);
    var views := AllViews(shelves, false);
    hide IsShelf, IsViewName, ViewsOf, AllViews, Small, Relative, Names, ViewTexts, Parse, LongNames;
    assert |views[0].name| == 24;
    assert if other == TWIN_PAIR then views[1].name == views[0].name else |views[1].name| == 138;
    TwoPaths(views);
    assert !(ShortNamed(views) && NamedApart(views));
    ArchiveViews(shelves, false);
    hide ShortNamed, NamedApart;
    ArchiveIsReadIff(shelves, false, 0, limits);
  }

  lemma {:induction false} TwoPaths(views: seq<View>)
    requires |views| == 2 && |views[0].definition.paths| == |views[1].definition.paths| == 1
    ensures PathsIn(DefinitionsOf(views)) == 2
  {
    var ds := DefinitionsOf(views);
    assert PathsIn(ds[..1]) == PathsIn(ds[..1][..0]) + |ds[..1][0].paths|;
    assert ds[..1][..0] == [] && ds[..1][0] == ds[0] && ds[1] == DefinitionsOf(views)[1];
  }

  lemma {:induction false} SmallPairs()
    ensures Small(PLAIN_PAIR.feed.pair) == "xbtusd" && Small(TWIN_PAIR.feed.pair) == "xbtusd"
    ensures Small(LONG_PAIR.feed.pair) == LONG_PAIR.feed.pair
  {
  }
}
