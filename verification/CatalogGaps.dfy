/**
  Gaps put together and cut: what stands behind the last statement of a catalog stays a gap when its
  trailing whitespace is cut off and further lines are written behind it.
 */
module CatalogGaps {
  import opened Wrappers
  import opened CatalogLexer
  import opened CatalogRendering

  // ------------------------------------------------------------ line comments

  function Comment(text: string): string {
    "--" + text + "\n"
  }

  predicate OneLine(text: string) {
    forall i :: 0 <= i < |text| ==> text[i] != '\n' && text[i] != '\r'
  }

  lemma {:induction false} LineRunOf(text: string, rest: string)
    requires OneLine(text)
    ensures LineRun(text + "\n" + rest) == |text| + 1
  {
    if text == [] {
      assert text + "\n" + rest == "\n" + rest;
    } else {
      assert (text + "\n" + rest)[1..] == text[1..] + "\n" + rest;
      LineRunOf(text[1..], rest);
    }
  }

  lemma {:induction false} CommentIsGap(text: string, rest: string)
    requires OneLine(text) && IsGap(rest)
    ensures IsGap(Comment(text) + rest)
  {
    var g := Comment(text) + rest;
    LineRunOf(text, rest);
    assert g[2..] == text + "\n" + rest;
    assert (text + "\n" + rest)[|text|] == '\n';
    assert g[2 + (|text| + 1)..] == rest;
    hide LineRun;
  }

  lemma {:induction false} NewLineIsGap(rest: string)
    requires IsGap(rest)
    ensures IsGap("\n" + rest)
  {
    assert ("\n" + rest)[1..] == rest;
  }

  // ------------------------------------------------------------ two gaps

  lemma {:induction false} BlockRunWithin(s: string)
    requires BlockRun(s).Some?
    ensures var n := BlockRun(s).value;
            n >= 2 && s[n - 1] == '/' && BlockRun(s[..n]) == Some(n)
  {
    if !(s[0] == '*' && s[1] == '/') {
      BlockRunWithin(s[1..]);
      var n := BlockRun(s).value;
      assert s[..n][1..] == s[1..][..n - 1];
    }
  }

  lemma {:induction false} SpaceIsGap(c: char, rest: string)
    requires IsSpace(c) && IsGap(rest)
    ensures IsGap([c] + rest)
  {
    assert ([c] + rest)[1..] == rest;
  }

  lemma {:induction false} GapStarts(g: string)
    requires IsGap(g) && g != [] && g[0] == '-'
    ensures |g| > 1 && g[1] == '-' && EndsLine(g[2..]) && IsGap(g[2 + LineRun(g[2..])..])
  {
    hide LineRun, EndsLine;
  }

  lemma {:induction false} BlockIsGap(block: string, rest: string)
    requires |block| > 1 && block[0] == '/' && block[1] == '*' && BlockRun(block[2..]) == Some(|block| - 2)
    requires IsGap(rest)
    ensures IsGap(block + rest)
  {
    BlockRunStable(block[2..], rest);
    hide BlockRun;
    assert (block + rest)[2..] == block[2..] + rest && (block + rest)[|block|..] == rest;
  }

  /** Where the first whitespace or block comment of a gap ends. */
  function PartEnd(g: string): nat
    requires IsGap(g) && g != [] && g[0] != '-'
  {
    if IsSpace(g[0]) then 1 else 2 + BlockRun(g[2..]).value
  }

  lemma {:induction false} PartOfGap(g: string)
    requires IsGap(g) && g != [] && g[0] != '-'
    ensures 0 < PartEnd(g) <= |g| && IsGap(g[PartEnd(g)..])
    ensures PartEnd(g) == 1 || !IsSpace(g[PartEnd(g) - 1])
  {
    if !IsSpace(g[0]) {
      BlockRunWithin(g[2..]);
      hide BlockRun;
      assert g[PartEnd(g) - 1] == g[2..][PartEnd(g) - 3];
    }
  }

  lemma {:induction false} PartGoesOn(g: string, rest: string)
    requires IsGap(g) && g != [] && g[0] != '-' && IsGap(rest)
    ensures PartEnd(g) <= |g| && IsGap(g[..PartEnd(g)] + rest)
  {
    var n := PartEnd(g);
    if IsSpace(g[0]) {
      SpaceIsGap(g[0], rest);
      assert g[..n] == [g[0]];
    } else {
      BlockRunWithin(g[2..]);
      hide BlockRun;
      assert g[..n][2..] == g[2..][..n - 2];
      BlockIsGap(g[..n], rest);
    }
  }

  lemma {:induction false} GapAppend(g: string, rest: string)
    requires IsGap(g) && IsGap(rest)
    ensures IsGap(g + rest)
    decreases |g|
  {
    hide *;
    if g == [] {
      assert g + rest == rest;
    } else if g[0] == '-' {
      GapStarts(g);
      GapAppend(g[2 + LineRun(g[2..])..], rest);
      LineAppend(g, rest);
    } else {
      PartOfGap(g);
      var n := PartEnd(g);
      GapAppend(g[n..], rest);
      PartGoesOn(g, g[n..] + rest);
      assert g + rest == g[..n] + (g[n..] + rest);
    }
  }

  lemma {:induction false} LineAppend(g: string, rest: string)
    requires |g| > 1 && g[0] == '-' && g[1] == '-' && EndsLine(g[2..])
    requires IsGap(g[2 + LineRun(g[2..])..] + rest) && IsGap(rest)
    ensures IsGap(g + rest)
  {
    var n, m := LineRun(g[2..]), LineRun(g[2..] + rest);
    LineRunStable(g[2..], rest);
    hide LineRun;
    assert (g + rest)[2..] == g[2..] + rest && EndsLine(g[2..] + rest);
    if m == n {
      assert (g + rest)[2 + m..] == g[2 + n..] + rest;
    } else {
      assert (g + rest)[2 + m..] == rest[1..];
    }
  }

  /** A line break closes whatever the text may end in. */
  lemma {:induction false} TailCloses(g: string)
    requires IsTail(g)
    ensures IsGap(g + "\n")
  {
    assert IsGap("");
    NewLineIsGap("");
    assert "\n" + "" == "\n";
    hide IsGap;
    if IsGap(g) {
      GapAppend(g, "\n");
    } else {
      var k :| 0 <= k < |g| - 1 && IsGap(g[..k]) && g[k] == '-' && g[k + 1] == '-' && !EndsLine(g[k + 2..]);
      var text := g[k + 2..];
      CommentIsGap(text, "");
      assert Comment(text) + "" == g[k..] + "\n";
      GapAppend(g[..k], g[k..] + "\n");
      assert g[..k] + (g[k..] + "\n") == g + "\n";
    }
  }

  // ------------------------------------------------------------ cutting a gap

  /** The text without its trailing whitespace. */
  function Stripped(s: string): (r: string)
    ensures r <= s
    ensures r == [] || !IsSpace(r[|r| - 1])
    ensures forall i :: |r| <= i < |s| ==> IsSpace(s[i])
    decreases |s|
  {
    if s != [] && IsSpace(s[|s| - 1]) then Stripped(s[..|s| - 1]) else s
  }

  /** Where a text is cut: only whitespace is cut off, and all of it at the end. */
  predicate CutAt(s: string, n: nat) {
    n <= |s| && (n > 0 ==> !IsSpace(s[n - 1])) && forall i :: n <= i < |s| ==> IsSpace(s[i])
  }

  lemma {:induction false} StrippedBehind(a: string, b: string)
    requires a == [] || !IsSpace(a[|a| - 1])
    ensures Stripped(a + b) == a + Stripped(b)
    decreases |b|
  {
    if b != [] && IsSpace(b[|b| - 1]) {
      StrippedBehind(a, b[..|b| - 1]);
      assert (a + b)[..|a + b| - 1] == a + b[..|b| - 1];
    } else if b == [] {
      assert a + b == a && a + Stripped(b) == a;
    }
  }

  lemma {:induction false} LineRunEnds(s: string)
    requires EndsLine(s)
    ensures LineRun(s) > 0 && IsSpace(s[LineRun(s) - 1])
  {
    if s[0] != '\r' && s[0] != '\n' {
      LineRunEnds(s[1..]);
    }
  }

  lemma {:induction false} LineRunBefore(s: string, n: nat)
    requires n < LineRun(s) && (n > 0 ==> !IsSpace(s[n - 1]))
    ensures OneLine(s[..n])
  {
    if n > 0 && s[0] != '\r' && s[0] != '\n' {
      LineRunBefore(s[1..], n - 1);
      assert s[..n] == [s[0]] + s[1..][..n - 1];
    }
  }

  lemma {:induction false} LineRunWithin(s: string, n: nat, rest: string)
    requires EndsLine(s) && LineRun(s) < n <= |s|
    ensures LineRun(s[..n] + rest) == LineRun(s) && EndsLine(s[..n] + rest)
  {
    var t := s[..n] + rest;
    assert t[0] == s[0];
    if s[0] != '\r' && s[0] != '\n' {
      LineRunWithin(s[1..], n - 1, rest);
      assert t[1..] == s[1..][..n - 1] + rest;
    } else {
      assert n > 1 ==> t[1] == s[1];
    }
  }

  lemma {:induction false} CutBehind(s: string, n: nat, k: nat)
    requires CutAt(s, n) && 0 < n && 0 < k <= |s| && (k == 1 || !IsSpace(s[k - 1]))
    ensures k <= n && CutAt(s[k..], n - k)
  {
  }

  lemma {:induction false} Regrouped(s: string, k: nat, n: nat, more: string)
    requires k <= n <= |s|
    ensures s[..n] + more == s[..k] + (s[k..][..n - k] + more)
  {
    assert s[..n] == s[..k] + s[k..][..n - k];
  }

  lemma {:induction false} LineIsGap(line: string, rest: string)
    requires |line| > 1 && line[0] == '-' && line[1] == '-'
    requires EndsLine(line[2..] + rest) && LineRun(line[2..] + rest) == |line| - 2
    requires IsGap(rest)
    ensures IsGap(line + rest)
  {
    hide LineRun, EndsLine;
    assert (line + rest)[2..] == line[2..] + rest && (line + rest)[|line|..] == rest;
  }

  /** A gap whose trailing whitespace is cut off goes on behind a line break. */
  lemma {:induction false} CutGapGoesOn(g: string, n: nat, rest: string)
    requires IsGap(g) && CutAt(g, n) && IsGap(rest)
    ensures IsGap(g[..n] + ("\n" + rest))
    decreases |g|
  {
    var more := "\n" + rest;
    NewLineIsGap(rest);
    hide *;
    if n == 0 {
      assert g[..n] + more == more;
    } else if g != [] && g[0] == '-' {
      CutLineGoesOn(g, n, rest);
    } else {
      CutIsWithin(g, n);
      PartOfGap(g);
      var m := PartEnd(g);
      CutBehind(g, n, m);
      CutGapGoesOn(g[m..], n - m, rest);
      PartGoesOn(g, g[m..][..n - m] + more);
      Regrouped(g, m, n, more);
    }
  }

  lemma {:induction false} CutIsWithin(s: string, n: nat)
    requires CutAt(s, n)
    ensures n <= |s|
  {
  }

  lemma {:induction false} CutLineGoesOn(g: string, n: nat, rest: string)
    requires IsGap(g) && CutAt(g, n) && IsGap(rest) && g != [] && g[0] == '-'
    ensures IsGap(g[..n] + ("\n" + rest))
    decreases |g|, 0
  {
    hide LineRun, EndsLine, IsGap;
    GapStarts(g);
    var m, more := 2 + LineRun(g[2..]), "\n" + rest;
    LineRunEnds(g[2..]);
    assert n >= 2 && g[m - 1] == g[2..][m - 3];
    if n > m {
      var later := g[m..][..n - m] + more;
      LineRunWithin(g[2..], n - 2, more);
      CutGapGoesOn(g[m..], n - m, rest);
      assert g[2..][..n - 2] + more == g[..m][2..] + later;
      LineIsGap(g[..m], later);
      assert g[..n] + more == g[..m] + later;
    } else {
      LineRunBefore(g[2..], n - 2);
      assert g[2..n] == g[2..][..n - 2];
      CommentIsGap(g[2..n], rest);
      assert Comment(g[2..n]) + rest == g[..n] + more;
    }
  }

  /** Whatever may end a catalog goes on behind a line break once its trailing whitespace is cut off. */
  lemma {:induction false} StrippedTailGoesOn(g: string, rest: string)
    requires IsTail(g) && IsGap(rest)
    ensures IsGap(Stripped(g) + ("\n" + rest))
  {
    hide IsGap;
    var n := |Stripped(g)|;
    TailCloses(g);
    CutGapGoesOn(g + "\n", n, rest);
    assert (g + "\n")[..n] == Stripped(g);
  }
}
