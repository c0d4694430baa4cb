/**
  Expansion of a logical reference over a directory tree: a stack of directories still to be looked
  into, against the declarative matcher for single files.
 */
module GlobExpand {
  import opened Wrappers
  import opened LogicalPath

  /** What a name can stand for; `Special` covers symbolic links, devices and foreign mounts. */
  datatype Node = File | Special | Dir(children: seq<Child>)
  datatype Child = Child(name: string, node: Node)

  type Path = seq<string>

  datatype Fault = UnsafeReference | TooDeep | UnboundRoot | EntryLimit | Missing | Refused
    | NoMatch | Overlap | TooManyFiles

  /** The components to match, with the host's single-component pattern matching. */
  datatype Query = Query(parts: seq<string>, glob: (string, string) -> bool)

  datatype Pending = Pending(path: Path, node: Node)

  predicate HasMeta(component: string) {
    '*' in component || '?' in component || '[' in component
  }

  /** Pattern matching as the traversal relies on it: a component without wildcards matches itself only. */
  ghost predicate Literally(glob: (string, string) -> bool) {
    forall name, component :: !HasMeta(component) ==> (glob(name, component) <==> name == component)
  }

  predicate PlainName(name: string) {
    !IsDots(name) && '/' !in name
  }

  /** A directory lists each name once. */
  ghost predicate WellFormed(node: Node)
    decreases node
  {
    node.Dir? ==>
      && (forall i, j :: 0 <= i < j < |node.children| ==> node.children[i].name != node.children[j].name)
      && (forall i :: 0 <= i < |node.children| ==>
            PlainName(node.children[i].name) && WellFormed(node.children[i].node))
  }

  function Find(children: seq<Child>, name: string): Option<Node> {
    if children == [] then None
    else if children[0].name == name then Some(children[0].node)
    else Find(children[1..], name)
  }

  function Lookup(node: Node, path: Path): Option<Node>
    decreases path
  {
    if path == [] then Some(node)
    else if !node.Dir? then None
    else
      match Find(node.children, path[0])
      case None => None
      case Some(child) => Lookup(child, path[1..])
  }

  // ------------------------------------------------------------- one directory

  datatype Scan = Scan(files: seq<Path>, dirs: seq<Pending>)

  /** What a directory at `path` contributes: matched files at the last level, matched directories above it. */
  function ScanOf(q: Query, path: Path, children: seq<Child>): Result<Scan, Fault>
    requires |path| < |q.parts|
    decreases children
  {
    if children == [] then Ok(Scan([], []))
    else
      var n := |children| - 1;
      match ScanOf(q, path, children[..n])
      case Err(f) => Err(f)
      case Ok(before) => Visit(q, path, before, children[n])
  }

  function Visit(q: Query, path: Path, before: Scan, child: Child): Result<Scan, Fault>
    requires |path| < |q.parts|
  {
    if !q.glob(child.name, q.parts[|path|]) then Ok(before)
    else if child.node.Special? then Err(Refused)
    else if |path| == |q.parts| - 1 then
      if child.node.File? then Ok(before.(files := before.files + [path + [child.name]])) else Err(Refused)
    else if child.node.Dir? then Ok(before.(dirs := before.dirs + [Pending(path + [child.name], child.node)]))
    else Err(Refused)
  }

  function Size(node: Node): nat
    decreases node
  {
    if node.Dir? then 1 + Sizes(node.children) else 0
  }

  function Sizes(children: seq<Child>): nat
    decreases children
  {
    if children == [] then 0 else Sizes(children[..|children| - 1]) + Size(children[|children| - 1].node)
  }

  function Load(pending: seq<Pending>): nat {
    if pending == [] then 0 else Load(pending[..|pending| - 1]) + Size(pending[|pending| - 1].node)
  }

  // ------------------------------------------------------------- the frontier

  /** A file below a pending directory that matches the rest of the query. */
  ghost predicate Below(q: Query, p: Pending, file: Path) {
    && |file| == |q.parts|
    && p.path <= file
    && Lookup(p.node, file[|p.path|..]) == Some(File)
    && forall i :: |p.path| <= i < |file| ==> q.glob(file[i], q.parts[i])
  }

  ghost predicate Apart(a: Path, b: Path) {
    !(a <= b) && !(b <= a)
  }

  ghost predicate Distinct(files: seq<Path>) {
    forall i, j :: 0 <= i < j < |files| ==> files[i] != files[j]
  }

  ghost predicate Ready(q: Query, p: Pending) {
    p.node.Dir? && WellFormed(p.node) && |p.path| < |q.parts|
  }

  ghost predicate BelowAny(q: Query, pending: seq<Pending>, file: Path) {
    exists k :: 0 <= k < |pending| && Below(q, pending[k], file)
  }

  ghost predicate AllReady(q: Query, pending: seq<Pending>) {
    forall k :: 0 <= k < |pending| ==> Ready(q, pending[k])
  }

  ghost predicate AllApart(pending: seq<Pending>) {
    forall j, k :: 0 <= j < k < |pending| ==> Apart(pending[j].path, pending[k].path)
  }

  /** What is yielded and what is pending share the wanted files out between them, each file once. */
  ghost predicate Frontier(q: Query, start: Pending, yielded: seq<Path>, pending: seq<Pending>) {
    && AllReady(q, pending)
    && AllApart(pending)
    && Distinct(yielded)
    && (forall f :: Below(q, start, f) <==> f in yielded || BelowAny(q, pending, f))
    && (forall f :: f in yielded ==> !BelowAny(q, pending, f))
  }

  /** What a scan of the directory `top` has to deliver. */
  ghost predicate Splits(q: Query, top: Pending, scan: Scan) {
    && Distinct(scan.files)
    && AllReady(q, scan.dirs)
    && (forall k :: 0 <= k < |scan.dirs| ==>
          |scan.dirs[k].path| == |top.path| + 1 && top.path <= scan.dirs[k].path)
    && (forall j, k :: 0 <= j < k < |scan.dirs| ==> scan.dirs[j].path != scan.dirs[k].path)
    && (scan.files == [] || scan.dirs == [])
    && (forall f :: Below(q, top, f) <==> f in scan.files || BelowAny(q, scan.dirs, f))
  }

  lemma {:induction false} BelowAppend(q: Query, xs: seq<Pending>, ys: seq<Pending>, file: Path)
    ensures BelowAny(q, xs + ys, file) <==> BelowAny(q, xs, file) || BelowAny(q, ys, file)
  {
    hide Below;
    var all := xs + ys;
    if BelowAny(q, xs, file) {
      var k :| 0 <= k < |xs| && Below(q, xs[k], file);
      assert all[k] == xs[k];
    } else if BelowAny(q, ys, file) {
      var k :| 0 <= k < |ys| && Below(q, ys[k], file);
      assert all[|xs| + k] == ys[k];
    }
  }

  lemma {:induction false} BelowOne(q: Query, top: Pending, file: Path)
    ensures BelowAny(q, [top], file) <==> Below(q, top, file)
  {
    hide Below;
    assert [top][0] == top;
  }

  lemma {:induction false} ApartExcludes(q: Query, a: Pending, b: Pending, file: Path)
    requires Apart(a.path, b.path)
    ensures !(Below(q, a, file) && Below(q, b, file))
  {
  }

  lemma {:induction false} StillApart(q: Query, rest: seq<Pending>, top: Pending, scan: Scan)
    requires AllApart(rest + [top]) && Splits(q, top, scan)
    ensures AllApart(rest + scan.dirs)
  {
    hide AllReady, BelowAny;
    var before, after, n := rest + [top], rest + scan.dirs, |rest|;
    forall j, k | 0 <= j < k < |after|
      ensures Apart(after[j].path, after[k].path)
    {
      if k < n {
        assert after[j] == before[j] && after[k] == before[k];
      } else if j < n {
        assert before[j] == after[j] && before[n] == top;
      } else {
        var a, b := scan.dirs[j - n].path, scan.dirs[k - n].path;
        assert a != b && |a| == |b|;
      }
    }
  }

  lemma {:induction false} NotBelowOthers(q: Query, rest: seq<Pending>, top: Pending, file: Path)
    requires AllApart(rest + [top]) && Below(q, top, file)
    ensures !BelowAny(q, rest, file)
  {
    hide Below;
    var all := rest + [top];
    forall k | 0 <= k < |rest|
      ensures !Below(q, rest[k], file)
    {
      assert all[k] == rest[k] && all[|rest|] == top;
      ApartExcludes(q, rest[k], top, file);
    }
  }

  lemma {:induction false} FrontierAdvances(
    q: Query, start: Pending, yielded: seq<Path>, rest: seq<Pending>, top: Pending, scan: Scan)
    requires Frontier(q, start, yielded, rest + [top])
    requires Splits(q, top, scan)
    ensures Frontier(q, start, yielded + scan.files, rest + scan.dirs)
  {
    hide Below, BelowAny, Ready, Apart;
    StillApart(q, rest, top, scan);
    assert AllReady(q, rest + scan.dirs) by {
      assert forall k :: 0 <= k < |rest| ==> (rest + [top])[k] == rest[k];
    }
    forall f
      ensures Below(q, start, f) <==> f in yielded + scan.files || BelowAny(q, rest + scan.dirs, f)
      ensures f in yielded + scan.files ==> !BelowAny(q, rest + scan.dirs, f)
      ensures f in scan.files ==> f !in yielded
    {
      BelowAppend(q, rest, [top], f);
      BelowOne(q, top, f);
      BelowAppend(q, rest, scan.dirs, f);
      if f in scan.files {
        NotBelowOthers(q, rest, top, f);
        NoDirsNothingBelow(q, scan, f);
      }
    }
    DistinctAppend(yielded, scan.files);
  }

  lemma {:induction false} NoDirsNothingBelow(q: Query, scan: Scan, f: Path)
    requires f in scan.files && (scan.files == [] || scan.dirs == [])
    ensures !BelowAny(q, scan.dirs, f)
  {
    hide Below;
  }

  lemma {:induction false} DistinctAppend(xs: seq<Path>, ys: seq<Path>)
    requires Distinct(xs) && Distinct(ys) && forall f :: f in ys ==> f !in xs
    ensures Distinct(xs + ys)
  {
    var all := xs + ys;
    forall i, j | 0 <= i < j < |all|
      ensures all[i] != all[j]
    {
      if i < |xs| <= j {
        assert all[i] in xs && all[j] in ys;
      }
    }
  }

  // -------------------------------------------------------- scanning delivers

  lemma {:induction false} FindIsUnique(children: seq<Child>, i: nat)
    requires i < |children| && forall j, k :: 0 <= j < k < |children| ==> children[j].name != children[k].name
    ensures Find(children, children[i].name) == Some(children[i].node)
    decreases children
  {
    if i > 0 {
      assert children[0].name != children[i].name;
      FindIsUnique(children[1..], i - 1);
    }
  }

  lemma {:induction false} FindIsThere(children: seq<Child>, name: string) returns (i: nat)
    requires Find(children, name).Some?
    ensures i < |children| && children[i].name == name && Find(children, name) == Some(children[i].node)
    decreases children
  {
    if children[0].name == name {
      i := 0;
    } else {
      i := FindIsThere(children[1..], name);
      i := i + 1;
    }
  }

  predicate AtLastLevel(q: Query, path: Path) {
    |path| + 1 == |q.parts|
  }

  predicate Wanted(q: Query, path: Path, name: string)
    requires |path| < |q.parts|
  {
    q.glob(name, q.parts[|path|])
  }

  ghost predicate DistinctNames(children: seq<Child>) {
    forall i, j :: 0 <= i < j < |children| ==> children[i].name != children[j].name
  }

  /** `f` is the file some wanted child stands for. */
  ghost predicate Yields(q: Query, path: Path, children: seq<Child>, f: Path)
    requires |path| < |q.parts|
  {
    exists k :: 0 <= k < |children| && Wanted(q, path, children[k].name) && f == path + [children[k].name]
  }

  /** `d` is the directory some wanted child stands for. */
  ghost predicate Opens(q: Query, path: Path, children: seq<Child>, d: Pending)
    requires |path| < |q.parts|
  {
    exists k :: 0 <= k < |children| && Wanted(q, path, children[k].name)
                && d == Pending(path + [children[k].name], children[k].node)
  }

  /** What a successful scan is made of. */
  ghost predicate Scanned(q: Query, path: Path, children: seq<Child>, scan: Scan)
    requires |path| < |q.parts|
  {
    && (forall k :: 0 <= k < |children| && Wanted(q, path, children[k].name) ==>
          if AtLastLevel(q, path) then children[k].node.File? else children[k].node.Dir?)
    && (forall f :: f in scan.files <==> AtLastLevel(q, path) && Yields(q, path, children, f))
    && (forall d :: d in scan.dirs <==> !AtLastLevel(q, path) && Opens(q, path, children, d))
    && Distinct(scan.files)
    && (forall j, k :: 0 <= j < k < |scan.dirs| ==> scan.dirs[j].path != scan.dirs[k].path)
  }

  lemma {:induction false} NameIsNew(q: Query, path: Path, children: seq<Child>, f: Path, d: Pending)
    requires |path| < |q.parts| && children != [] && DistinctNames(children)
    ensures var n := |children| - 1;
            && (Yields(q, path, children[..n], f) ==> f != path + [children[n].name])
            && (Opens(q, path, children[..n], d) ==> d.path != path + [children[n].name])
  {
    var n := |children| - 1;
    forall k | 0 <= k < n
      ensures path + [children[..n][k].name] != path + [children[n].name]
    {
      assert (path + [children[k].name])[|path|] != (path + [children[n].name])[|path|];
    }
  }

  lemma {:induction false} ScanIsScanned(q: Query, path: Path, children: seq<Child>)
    requires |path| < |q.parts| && DistinctNames(children)
    ensures var r := ScanOf(q, path, children); r.Ok? ==> Scanned(q, path, children, r.value)
    decreases children
  {
    var r := ScanOf(q, path, children);
    if r.Ok? && children != [] {
      var n := |children| - 1;
      ScanIsScanned(q, path, children[..n]);
      ScanGrows(q, path, children, ScanOf(q, path, children[..n]).value);
    }
  }

  lemma {:induction false} ScanGrows(q: Query, path: Path, children: seq<Child>, before: Scan)
    requires |path| < |q.parts| && children != [] && DistinctNames(children)
    requires Scanned(q, path, children[..|children| - 1], before)
    requires Visit(q, path, before, children[|children| - 1]).Ok?
    ensures Scanned(q, path, children, Visit(q, path, before, children[|children| - 1]).value)
  {
    var n := |children| - 1;
    var earlier, last := children[..n], children[n];
    var after := Visit(q, path, before, last).value;
    assert forall k :: 0 <= k < n ==> earlier[k] == children[k];
    forall f
      ensures f in after.files <==> AtLastLevel(q, path) && Yields(q, path, children, f)
    {
    }
    forall d
      ensures d in after.dirs <==> !AtLastLevel(q, path) && Opens(q, path, children, d)
    {
    }
    if after.files != before.files {
      NewFileIsDistinct(q, path, children, before);
    } else if after.dirs != before.dirs {
      NewDirIsDistinct(q, path, children, before);
    }
  }

  lemma {:induction false} NewFileIsDistinct(q: Query, path: Path, children: seq<Child>, before: Scan)
    requires |path| < |q.parts| && children != [] && DistinctNames(children)
    requires Scanned(q, path, children[..|children| - 1], before)
    ensures Distinct(before.files + [path + [children[|children| - 1].name]])
  {
    var last := path + [children[|children| - 1].name];
    forall i | 0 <= i < |before.files|
      ensures before.files[i] != last
    {
      assert before.files[i] in before.files;
      NameIsNew(q, path, children, before.files[i], Pending([], File));
    }
  }

  lemma {:induction false} NewDirIsDistinct(q: Query, path: Path, children: seq<Child>, before: Scan)
    requires |path| < |q.parts| && children != [] && DistinctNames(children)
    requires Scanned(q, path, children[..|children| - 1], before)
    ensures var last := path + [children[|children| - 1].name];
            forall i :: 0 <= i < |before.dirs| ==> before.dirs[i].path != last
  {
    forall i | 0 <= i < |before.dirs|
      ensures before.dirs[i].path != path + [children[|children| - 1].name]
    {
      assert before.dirs[i] in before.dirs;
      NameIsNew(q, path, children, [], before.dirs[i]);
    }
  }

  /** A list of children in which every wanted name of the directory occurs. */
  ghost predicate Offers(q: Query, top: Pending, children: seq<Child>)
    requires Ready(q, top)
  {
    && DistinctNames(children)
    && (forall k :: 0 <= k < |children| ==>
          Find(top.node.children, children[k].name) == Some(children[k].node) && WellFormed(children[k].node))
    && (forall name :: Find(top.node.children, name).Some? && Wanted(q, top.path, name) ==>
          exists k :: 0 <= k < |children| && children[k].name == name)
  }

  lemma {:induction false} ListingOffers(q: Query, top: Pending)
    requires Ready(q, top)
    ensures Offers(q, top, top.node.children)
  {
    var children := top.node.children;
    forall k | 0 <= k < |children|
      ensures Find(children, children[k].name) == Some(children[k].node)
    {
      FindIsUnique(children, k);
    }
    forall name | Find(children, name).Some?
      ensures exists k :: 0 <= k < |children| && children[k].name == name
    {
      var k := FindIsThere(children, name);
    }
  }

  lemma {:induction false} LiteralOffers(q: Query, top: Pending, child: Node)
    requires Ready(q, top) && Literally(q.glob) && !HasMeta(q.parts[|top.path|])
    requires Find(top.node.children, q.parts[|top.path|]) == Some(child)
    ensures Offers(q, top, [Child(q.parts[|top.path|], child)])
  {
    var k := FindIsThere(top.node.children, q.parts[|top.path|]);
    var one := [Child(q.parts[|top.path|], child)];
    assert one[0].name == q.parts[|top.path|];
  }

  lemma {:induction false} ScannedSplits(q: Query, top: Pending, children: seq<Child>, scan: Scan)
    requires Ready(q, top) && Offers(q, top, children) && Scanned(q, top.path, children, scan)
    ensures Splits(q, top, scan)
  {
    hide Below, BelowAny, WellFormed;
    forall k | 0 <= k < |scan.dirs|
      ensures Ready(q, scan.dirs[k])
      ensures |scan.dirs[k].path| == |top.path| + 1 && top.path <= scan.dirs[k].path
    {
      assert scan.dirs[k] in scan.dirs;
    }
    NothingOnBothLevels(q, top.path, children, scan);
    forall f
      ensures Below(q, top, f) <==> f in scan.files || BelowAny(q, scan.dirs, f)
    {
      if AtLastLevel(q, top.path) {
        LastLevelSplits(q, top, children, scan, f);
      } else {
        UpperLevelSplits(q, top, children, scan, f);
      }
    }
  }

  lemma {:induction false} NothingOnBothLevels(q: Query, path: Path, children: seq<Child>, scan: Scan)
    requires |path| < |q.parts| && Scanned(q, path, children, scan)
    ensures AtLastLevel(q, path) ==> scan.dirs == []
    ensures !AtLastLevel(q, path) ==> scan.files == []
  {
    assert scan.dirs != [] ==> scan.dirs[0] in scan.dirs;
    assert scan.files != [] ==> scan.files[0] in scan.files;
  }

  lemma {:induction false} FirstStep(q: Query, top: Pending, f: Path)
    requires Ready(q, top) && |f| == |q.parts| && top.path <= f
    ensures var name, n := f[|top.path|], |top.path|;
            && Lookup(top.node, f[n..]) ==
                 (match Find(top.node.children, name) case None => None case Some(c) => Lookup(c, f[n + 1..]))
            && f[..n + 1] == top.path + [name]
  {
    var n := |top.path|;
    assert f[n..][0] == f[n] && f[n..][1..] == f[n + 1..];
  }

  lemma {:induction false} LastLevelSplits(q: Query, top: Pending, children: seq<Child>, scan: Scan, f: Path)
    requires Ready(q, top) && Offers(q, top, children) && Scanned(q, top.path, children, scan)
    requires AtLastLevel(q, top.path)
    ensures Below(q, top, f) <==> f in scan.files
    ensures scan.dirs == [] && !BelowAny(q, scan.dirs, f)
  {
    hide WellFormed;
    NothingOnBothLevels(q, top.path, children, scan);
    if |f| == |q.parts| && top.path <= f {
      FirstStep(q, top, f);
      assert f[|f|..] == [] && f[..|f|] == f;
    }
  }

  lemma {:induction false} UpperLevelSplits(q: Query, top: Pending, children: seq<Child>, scan: Scan, f: Path)
    requires Ready(q, top) && Offers(q, top, children) && Scanned(q, top.path, children, scan)
    requires !AtLastLevel(q, top.path)
    ensures Below(q, top, f) <==> BelowAny(q, scan.dirs, f)
    ensures f !in scan.files
  {
    hide WellFormed;
    if |f| == |q.parts| && top.path <= f {
      FirstStep(q, top, f);
    }
    if Below(q, top, f) {
      var name := f[|top.path|];
      var k :| 0 <= k < |children| && children[k].name == name;
      var d := Pending(top.path + [name], children[k].node);
      assert d in scan.dirs;
      assert Below(q, d, f);
    }
    if BelowAny(q, scan.dirs, f) {
      var i :| 0 <= i < |scan.dirs| && Below(q, scan.dirs[i], f);
      assert scan.dirs[i] in scan.dirs;
      var k :| 0 <= k < |children| && Wanted(q, top.path, children[k].name)
               && scan.dirs[i] == Pending(top.path + [children[k].name], children[k].node);
      assert f[|top.path|] == children[k].name;
    }
  }

  // -------------------------------------------------------------- termination

  lemma {:induction false} LoadAppend(xs: seq<Pending>, ys: seq<Pending>)
    ensures Load(xs + ys) == Load(xs) + Load(ys)
    decreases ys
  {
    if ys == [] {
      assert xs + ys == xs;
    } else {
      var n := |ys| - 1;
      LoadAppend(xs, ys[..n]);
      assert (xs + ys)[..|xs| + n] == xs + ys[..n];
    }
  }

  lemma {:induction false} ScanIsLighter(q: Query, path: Path, children: seq<Child>)
    requires |path| < |q.parts|
    ensures var r := ScanOf(q, path, children); r.Ok? ==> Load(r.value.dirs) <= Sizes(children)
    decreases children
  {
    if children != [] && ScanOf(q, path, children).Ok? {
      var n := |children| - 1;
      ScanIsLighter(q, path, children[..n]);
      var before := ScanOf(q, path, children[..n]).value;
      LoadAppend(before.dirs, [Pending(path + [children[n].name], children[n].node)]);
    }
  }

  lemma {:induction false} SizesSplit(children: seq<Child>)
    requires children != []
    ensures Sizes(children) == Size(children[0].node) + Sizes(children[1..])
    decreases children
  {
    var n := |children| - 1;
    if n == 0 {
      assert children[..0] == [] && children[1..] == [];
    } else {
      SizesSplit(children[..n]);
      assert children[1..][..n - 1] == children[..n][1..];
    }
  }

  lemma {:induction false} FoundIsLighter(children: seq<Child>, name: string)
    requires Find(children, name).Some?
    ensures Size(Find(children, name).value) <= Sizes(children)
    decreases children
  {
    SizesSplit(children);
    if children[0].name != name {
      FoundIsLighter(children[1..], name);
    }
  }

  // ------------------------------------------- which trees can be expanded

  /** Everything the component names has the kind its level asks for. */
  ghost predicate Clean(q: Query, path: Path, children: seq<Child>)
    requires |path| < |q.parts|
  {
    forall k :: 0 <= k < |children| && Wanted(q, path, children[k].name) ==>
      if AtLastLevel(q, path) then children[k].node.File? else children[k].node.Dir?
  }

  /** Nothing below stops the traversal: literal names exist, and every named entry has the right kind. */
  ghost predicate Good(q: Query, path: Path, node: Node)
    requires |path| < |q.parts|
    decreases node
  {
    && node.Dir?
    && (HasMeta(q.parts[|path|]) || Find(node.children, q.parts[|path|]).Some?)
    && Clean(q, path, node.children)
    && forall k :: 0 <= k < |node.children| && Wanted(q, path, node.children[k].name) && !AtLastLevel(q, path) ==>
         Good(q, path + [node.children[k].name], node.children[k].node)
  }

  ghost predicate AllGood(q: Query, pending: seq<Pending>)
    requires AllReady(q, pending)
  {
    forall k :: 0 <= k < |pending| ==> Good(q, pending[k].path, pending[k].node)
  }

  /** How many entries the traversal lists at and below a directory. */
  function Cost(q: Query, path: Path, node: Node): nat
    decreases node
  {
    if !node.Dir? || |path| >= |q.parts| then 0 else Own(q, path, node) + Costs(q, path, node.children)
  }

  function Own(q: Query, path: Path, node: Node): nat
    requires node.Dir? && |path| < |q.parts|
  {
    if HasMeta(q.parts[|path|]) then |node.children| else 0
  }

  function Costs(q: Query, path: Path, children: seq<Child>): nat
    requires |path| < |q.parts|
    decreases children
  {
    if children == [] then 0
    else
      var last := children[|children| - 1];
      Costs(q, path, children[..|children| - 1])
      + (if Wanted(q, path, last.name) then Cost(q, path + [last.name], last.node) else 0)
  }

  function CostAll(q: Query, pending: seq<Pending>): nat {
    if pending == [] then 0
    else CostAll(q, pending[..|pending| - 1]) + Cost(q, pending[|pending| - 1].path, pending[|pending| - 1].node)
  }

  lemma {:induction false} CostAppend(q: Query, xs: seq<Pending>, ys: seq<Pending>)
    ensures CostAll(q, xs + ys) == CostAll(q, xs) + CostAll(q, ys)
    decreases ys
  {
    hide Cost;
    if ys == [] {
      assert xs + ys == xs;
    } else {
      var n := |ys| - 1;
      CostAppend(q, xs, ys[..n]);
      assert (xs + ys)[..|xs| + n] == xs + ys[..n];
    }
  }

  lemma {:induction false} CostOne(q: Query, p: Pending)
    ensures CostAll(q, [p]) == Cost(q, p.path, p.node)
  {
    hide Cost;
    assert [p][..0] == [];
    assert CostAll(q, []) == 0;
  }

  /** A scan succeeds exactly on a clean list, and refuses any other. */
  lemma {:induction false} ScanIffClean(q: Query, path: Path, children: seq<Child>)
    requires |path| < |q.parts|
    ensures var r := ScanOf(q, path, children);
            (r.Ok? <==> Clean(q, path, children)) && (r.Err? ==> r.error == Refused)
    decreases children
  {
    if children != [] {
      var n := |children| - 1;
      ScanIffClean(q, path, children[..n]);
      assert forall k :: 0 <= k < n ==> children[..n][k] == children[k];
    }
  }

  lemma {:induction false} ScanCosts(q: Query, path: Path, children: seq<Child>)
    requires |path| < |q.parts| && ScanOf(q, path, children).Ok?
    ensures CostAll(q, ScanOf(q, path, children).value.dirs) == Costs(q, path, children)
    decreases children
  {
    hide CostAll;
    if children == [] {
      NothingCosts(q);
    } else {
      var n := |children| - 1;
      var before, child := ScanOf(q, path, children[..n]).value, children[n];
      ScanCosts(q, path, children[..n]);
      var deeper := Pending(path + [child.name], child.node);
      CostAppend(q, before.dirs, [deeper]);
      CostOne(q, deeper);
    }
  }

  lemma {:induction false} NothingCosts(q: Query)
    ensures CostAll(q, []) == 0
  {
  }

  /** Among distinct names a literal component wants one, so only that one costs anything. */
  lemma {:induction false} LiteralCosts(q: Query, path: Path, children: seq<Child>, k: nat)
    requires |path| < |q.parts| && DistinctNames(children) && Literally(q.glob) && !HasMeta(q.parts[|path|])
    requires k < |children| && children[k].name == q.parts[|path|]
    ensures Costs(q, path, children) == Costs(q, path, [children[k]])
    decreases children
  {
    hide Cost;
    var n := |children| - 1;
    assert [children[k]][..0] == [];
    assert Costs(q, path, []) == 0;
    if k < n {
      LiteralCosts(q, path, children[..n], k);
    } else {
      UnwantedCostNothing(q, path, children[..n]);
    }
  }

  lemma {:induction false} UnwantedCostNothing(q: Query, path: Path, children: seq<Child>)
    requires |path| < |q.parts| && forall k :: 0 <= k < |children| ==> !Wanted(q, path, children[k].name)
    ensures Costs(q, path, children) == 0
    decreases children
  {
    if children != [] {
      UnwantedCostNothing(q, path, children[..|children| - 1]);
    }
  }

  /** The children that are visited: the listing, or the one literal name, which must be there. */
  ghost predicate VisitedOf(q: Query, top: Pending, children: seq<Child>)
    requires Ready(q, top)
  {
    var component := q.parts[|top.path|];
    if HasMeta(component) then children == top.node.children
    else
      var found := Find(top.node.children, component);
      found.Some? && children == [Child(component, found.value)]
  }

  /** A directory is good exactly when its visited children are clean and what they open is good. */
  lemma {:induction false} ScanDecidesGood(q: Query, top: Pending, children: seq<Child>, scan: Scan)
    requires Ready(q, top) && Literally(q.glob) && VisitedOf(q, top, children)
    requires Scanned(q, top.path, children, scan) && AllReady(q, scan.dirs)
    ensures Good(q, top.path, top.node) <==> AllGood(q, scan.dirs)
  {
    WantedAreVisited(q, top, children);
    if AllGood(q, scan.dirs) {
      forall k |
        && 0 <= k < |top.node.children| && Wanted(q, top.path, top.node.children[k].name)
        && !AtLastLevel(q, top.path)
        ensures Good(q, top.path + [top.node.children[k].name], top.node.children[k].node)
      {
        assert top.node.children[k] in children;
        assert Pending(top.path + [top.node.children[k].name], top.node.children[k].node) in scan.dirs;
      }
    }
    if Good(q, top.path, top.node) {
      forall i | 0 <= i < |scan.dirs| ensures Good(q, scan.dirs[i].path, scan.dirs[i].node) {
        assert scan.dirs[i] in scan.dirs;
        var k :| 0 <= k < |children| && Wanted(q, top.path, children[k].name)
                 && scan.dirs[i] == Pending(top.path + [children[k].name], children[k].node);
        assert children[k] in top.node.children;
      }
    }
  }

  lemma {:induction false} WantedAreVisited(q: Query, top: Pending, children: seq<Child>)
    requires Ready(q, top) && Literally(q.glob) && VisitedOf(q, top, children)
    ensures forall c :: c in children ==> c in top.node.children
    ensures forall c :: c in top.node.children && Wanted(q, top.path, c.name) ==> c in children
    ensures Clean(q, top.path, top.node.children) <==> Clean(q, top.path, children)
    ensures Costs(q, top.path, top.node.children) == Costs(q, top.path, children)
  {
    var component := q.parts[|top.path|];
    if !HasMeta(component) {
      var k := FindIsThere(top.node.children, component);
      LiteralCosts(q, top.path, top.node.children, k);
      assert top.node.children[k] == children[0];
    }
  }

  // ------------------------------------------------------------- the traversal

  /** The loop over the children of one directory; a listing counts every entry it hands out. */
  method VisitAll(q: Query, path: Path, children: seq<Child>, listing: bool, entries: nat, maxEntries: nat)
    returns (r: Result<Scan, Fault>, listed: nat)
    requires |path| < |q.parts| && entries <= maxEntries
    ensures r.Ok? ==> ScanOf(q, path, children) == r
    ensures r.Ok? ==> listed == entries + (if listing then |children| else 0) <= maxEntries
    ensures r == Err(EntryLimit) ==> listing && entries + |children| > maxEntries
    ensures r.Err? && !r.error.EntryLimit? ==> r.error.Refused? && !Clean(q, path, children)
  {
    hide Clean;
    listed := entries;
    var scan := Scan([], []);
    for i := 0 to |children|
      invariant ScanOf(q, path, children[..i]) == Ok(scan)
      invariant listed == entries + (if listing then i else 0) <= maxEntries
    {
      if listing {
        if listed >= maxEntries {
          return Err(EntryLimit), listed;
        }
        listed := listed + 1;
      }
      assert children[..i + 1][..i] == children[..i];
      var visited := Visit(q, path, scan, children[i]);
      if visited.Err? {
        ScanIffClean(q, path, children[..i + 1]);
        PrefixDecides(q, path, children, i + 1);
        return Err(visited.error), listed;
      }
      scan := visited.value;
    }
    assert children[..|children|] == children;
    return Ok(scan), listed;
  }

  /** One directory: its listing when the component has wildcards, otherwise the one name. */
  method ScanDirectory(q: Query, top: Pending, entries: nat, maxEntries: nat)
    returns (r: Result<Scan, Fault>, listed: nat)
    requires Ready(q, top) && Literally(q.glob) && entries <= maxEntries
    ensures r.Ok? ==> Splits(q, top, r.value) && Load(r.value.dirs) < Size(top.node)
    ensures r.Ok? ==> listed <= maxEntries && listed + CostAll(q, r.value.dirs) == entries + Cost(q, top.path, top.node)
    ensures r.Ok? ==> (Good(q, top.path, top.node) <==> AllReady(q, r.value.dirs) && AllGood(q, r.value.dirs))
    ensures r == Err(EntryLimit) ==> entries + Cost(q, top.path, top.node) > maxEntries
    ensures r.Err? && !r.error.EntryLimit? ==> (r.error.Missing? || r.error.Refused?) && !Good(q, top.path, top.node)
  {
    var component := q.parts[|top.path|];
    var children := top.node.children;
    if !HasMeta(component) {
      var child := Find(children, component);
      if child.None? {
        return Err(Missing), entries;
      }
      children := [Child(component, child.value)];
    }
    r, listed := VisitAll(q, top.path, children, HasMeta(component), entries, maxEntries);
    assert VisitedOf(q, top, children);
    hide *;
    if r.Ok? {
      VisitedAreOffered(q, top, children);
      WantedAreVisited(q, top, children);
      ScanIsScanned(q, top.path, children);
      ScannedSplits(q, top, children, r.value);
      ScanIsLighter(q, top.path, children);
      ScanCosts(q, top.path, children);
      ScanDecidesGood(q, top, children, r.value);
    } else {
      WantedAreVisited(q, top, children);
    }
  }

  /** What is visited offers every wanted name, and weighs less than the directory. */
  lemma {:induction false} VisitedAreOffered(q: Query, top: Pending, children: seq<Child>)
    requires Ready(q, top) && Literally(q.glob) && VisitedOf(q, top, children)
    ensures Offers(q, top, children) && Sizes(children) < Size(top.node)
  {
    var component := q.parts[|top.path|];
    if HasMeta(component) {
      ListingOffers(q, top);
    } else {
      var child := Find(top.node.children, component).value;
      LiteralOffers(q, top, child);
      FoundIsLighter(top.node.children, component);
    }
  }

  lemma {:induction false} PrefixDecides(q: Query, path: Path, children: seq<Child>, n: nat)
    requires |path| < |q.parts| && n <= |children| && ScanOf(q, path, children[..n]).Err?
    ensures !Clean(q, path, children)
  {
    ScanIffClean(q, path, children[..n]);
    assert forall k :: 0 <= k < n ==> children[..n][k] == children[k];
  }

  lemma {:induction false} StartsAtRoot(q: Query, root: Node)
    requires root.Dir? && WellFormed(root) && q.parts != []
    ensures var start := Pending([], root); Frontier(q, start, [], [start])
  {
    var start := Pending([], root);
    forall f
      ensures BelowAny(q, [start], f) <==> Below(q, start, f)
    {
      BelowOne(q, start, f);
    }
  }

  /** What is still pending decides whether all is good, and accounts for the entries still to list. */
  ghost predicate Accounted(q: Query, start: Pending, pending: seq<Pending>, used: nat, entries: nat) {
    && Ready(q, start) && AllReady(q, pending)
    && (Good(q, start.path, start.node) <==> AllGood(q, pending))
    && entries + CostAll(q, pending) == used + Cost(q, start.path, start.node)
  }

  lemma {:induction false} AccountStarts(q: Query, start: Pending, used: nat)
    requires Ready(q, start)
    ensures Accounted(q, start, [start], used, used)
  {
    hide Good, Cost, CostAll, Ready;
    OneIsGood(q, start);
    CostOne(q, start);
  }

  lemma {:induction false} AccountAdvances(
    q: Query, start: Pending, rest: seq<Pending>, top: Pending, used: nat, entries: nat, scan: Scan, listed: nat)
    requires Accounted(q, start, rest + [top], used, entries) && Ready(q, top) && Splits(q, top, scan)
    requires Good(q, top.path, top.node) <==> (AllReady(q, scan.dirs) && AllGood(q, scan.dirs))
    requires listed + CostAll(q, scan.dirs) == entries + Cost(q, top.path, top.node)
    ensures Accounted(q, start, rest + scan.dirs, used, listed)
  {
    hide Good, Cost, CostAll, Ready;
    BothReady(q, rest, top, scan.dirs);
    GoodAppend(q, rest, [top]);
    OneIsGood(q, top);
    GoodAppend(q, rest, scan.dirs);
    CostAppend(q, rest, [top]);
    CostOne(q, top);
    CostAppend(q, rest, scan.dirs);
  }

  lemma {:induction false} BothReady(q: Query, rest: seq<Pending>, top: Pending, dirs: seq<Pending>)
    requires AllReady(q, rest + [top]) && AllReady(q, dirs)
    ensures AllReady(q, rest + dirs)
  {
    hide Ready;
    assert forall k :: 0 <= k < |rest| ==> (rest + [top])[k] == rest[k];
  }

  lemma {:induction false} LoadFalls(rest: seq<Pending>, top: Pending, dirs: seq<Pending>)
    requires Load(dirs) < Size(top.node)
    ensures Load(rest + dirs) < Load(rest + [top])
  {
    LoadAppend(rest, dirs);
    LoadAppend(rest, [top]);
  }

  /** The stack of directories still to be looked into, from the root down. */
  method Traverse(q: Query, root: Node, used: nat, maxEntries: nat) returns (r: Result<seq<Path>, Fault>, entries: nat)
    requires Ready(q, Pending([], root)) && Literally(q.glob) && used <= maxEntries
    ensures r.Ok? <==> Good(q, [], root) && used + Cost(q, [], root) <= maxEntries
    ensures r.Ok? ==> entries == used + Cost(q, [], root)
    ensures r == Err(EntryLimit) ==> used + Cost(q, [], root) > maxEntries
    ensures r.Err? && !r.error.EntryLimit? ==> (r.error.Missing? || r.error.Refused?) && !Good(q, [], root)
    ensures r.Ok? ==> Distinct(r.value) && forall f :: f in r.value <==> Below(q, Pending([], root), f)
  {
    ghost var start := Pending([], root);
    var pending, yielded := [Pending([], root)], [];
    entries := used;
    StartsAtRoot(q, root);
    AccountStarts(q, start, used);
    hide WellFormed, Frontier, Splits, Size, Literally, Below, Good;
    hide Cost, CostAll, AllGood, AllReady, Load, Accounted, Ready;
    while pending != []
      invariant Frontier(q, start, yielded, pending)
      invariant Accounted(q, start, pending, used, entries) && entries <= maxEntries
      decreases Load(pending)
    {
      var rest, top := pending[..|pending| - 1], pending[|pending| - 1];
      assert pending == rest + [top];
      LastIsReady(q, start, yielded, rest, top);
      var scanned, listed := ScanDirectory(q, top, entries, maxEntries);
      if scanned.Err? {
        return Err(scanned.error), listed;
      }
      FrontierAdvances(q, start, yielded, rest, top, scanned.value);
      AccountAdvances(q, start, rest, top, used, entries, scanned.value, listed);
      LoadFalls(rest, top, scanned.value.dirs);
      yielded, pending, entries := yielded + scanned.value.files, rest + scanned.value.dirs, listed;
    }
    return Ok(yielded), entries;
  }

  /**
    The traversal: when it finishes, it has yielded exactly the regular files below the bound root
    whose components match the reference one by one, each file once. It finishes exactly when the
    reference is safe, bound and not too deep, nothing named by it is missing or of the wrong kind,
    and the directories to list hold no more entries than the budget has left after the `used` ones.
   */
  method Expand(
    roots: map<string, Node>, reference: string, glob: (string, string) -> bool,
    maxDepth: nat, used: nat, maxEntries: nat)
    returns (r: Result<seq<Path>, Fault>, entries: nat)
    requires Literally(glob) && used <= maxEntries
    requires forall alias :: alias in roots ==> WellFormed(roots[alias])
    ensures r.Ok? <==>
              Resolvable(roots, reference, glob, maxDepth) && used + CostOf(roots, reference, glob) <= maxEntries
    ensures r.Ok? ==> entries == used + CostOf(roots, reference, glob)
    ensures r == Err(EntryLimit) ==> used + CostOf(roots, reference, glob) > maxEntries
    ensures r.Err? ==> r.error !in {NoMatch, Overlap, TooManyFiles}
    ensures r == Err(UnsafeReference) <==> LogicalParts(reference, true).None?
    ensures r.Ok? ==>
              && LogicalParts(reference, true).Some?
              && var ref := LogicalParts(reference, true).value;
                 && ref.alias in roots
                 && |ref.parts| <= maxDepth
                 && Distinct(r.value)
                 && forall f :: f in r.value <==> Below(Query(ref.parts, glob), Pending([], roots[ref.alias]), f)
  {
    var parsed := LogicalParts(reference, true);
    if parsed.None? {
      return Err(UnsafeReference), used;
    }
    hide LogicalParts, WellFormed, Literally, Below, Good, Cost;
    var ref := parsed.value;
    if |ref.parts| > maxDepth {
      return Err(TooDeep), used;
    }
    if ref.alias !in roots {
      return Err(UnboundRoot), used;
    }
    var root := roots[ref.alias];
    if !root.Dir? || ref.parts == [] {
      return Err(Refused), used;
    }
    r, entries := Traverse(Query(ref.parts, glob), root, used, maxEntries);
  }

  /** The reference is safe, bound and shallow enough, and nothing it names is missing or of the wrong kind. */
  ghost predicate Resolvable(
    roots: map<string, Node>, reference: string, glob: (string, string) -> bool, maxDepth: nat)
  {
    && LogicalParts(reference, true).Some?
    && var ref := LogicalParts(reference, true).value;
       && |ref.parts| <= maxDepth && ref.alias in roots && roots[ref.alias].Dir? && ref.parts != []
       && Good(Query(ref.parts, glob), [], roots[ref.alias])
  }

  /** How many entries the expansion of a reference lists. */
  function CostOf(roots: map<string, Node>, reference: string, glob: (string, string) -> bool): nat {
    match LogicalParts(reference, true)
    case None => 0
    case Some(ref) => if ref.alias in roots then Cost(Query(ref.parts, glob), [], roots[ref.alias]) else 0
  }

  lemma {:induction false} OneIsGood(q: Query, p: Pending)
    requires Ready(q, p)
    ensures AllReady(q, [p]) && (AllGood(q, [p]) <==> Good(q, p.path, p.node))
  {
    hide Good, Ready;
    assert [p][0] == p;
  }

  lemma {:induction false} GoodAppend(q: Query, xs: seq<Pending>, ys: seq<Pending>)
    requires AllReady(q, xs + ys)
    ensures AllReady(q, xs) && AllReady(q, ys)
    ensures AllGood(q, xs + ys) <==> AllGood(q, xs) && AllGood(q, ys)
  {
    hide Good, Ready;
    var all := xs + ys;
    assert forall k :: 0 <= k < |xs| ==> all[k] == xs[k];
    assert forall k :: 0 <= k < |ys| ==> all[|xs| + k] == ys[k];
    assert forall k :: |xs| <= k < |all| ==> all[k] == ys[k - |xs|];
  }

  lemma {:induction false} LastIsReady(q: Query, start: Pending, yielded: seq<Path>, rest: seq<Pending>, top: Pending)
    requires Frontier(q, start, yielded, rest + [top])
    ensures Ready(q, top)
  {
    assert (rest + [top])[|rest|] == top;
  }

  // ------------------------------------------------------- the selected files

  /** A file of a bound root. */
  datatype Located = Located(alias: string, file: Path)

  /** The reference expands to this file. */
  ghost predicate Names(roots: map<string, Node>, reference: string, glob: (string, string) -> bool, l: Located) {
    && LogicalParts(reference, true).Some?
    && var ref := LogicalParts(reference, true).value;
       && ref.alias == l.alias && ref.alias in roots
       && Below(Query(ref.parts, glob), Pending([], roots[ref.alias]), l.file)
  }

  ghost predicate NamesSome(roots: map<string, Node>, reference: string, glob: (string, string) -> bool) {
    exists l :: Names(roots, reference, glob, l)
  }

  function TotalCost(roots: map<string, Node>, references: seq<string>, glob: (string, string) -> bool): nat {
    if references == [] then 0
    else
      TotalCost(roots, references[..|references| - 1], glob) + CostOf(roots, references[|references| - 1], glob)
  }

  ghost predicate AllDistinct(chosen: seq<Located>) {
    forall i, j :: 0 <= i < j < |chosen| ==> chosen[i] != chosen[j]
  }

  ghost predicate NamedByOne(
    roots: map<string, Node>, references: seq<string>, glob: (string, string) -> bool, n: nat, l: Located)
    requires n <= |references|
  {
    exists k :: 0 <= k < n && Names(roots, references[k], glob, l)
  }

  /** Two references that name the same file. */
  ghost predicate Overlapping(
    roots: map<string, Node>, references: seq<string>, glob: (string, string) -> bool, j: nat, k: nat)
    requires j < |references| && k < |references|
  {
    exists l :: Names(roots, references[j], glob, l) && Names(roots, references[k], glob, l)
  }

  /** What has been chosen after the first `n` references: exactly their files, each once, and no two share one. */
  ghost predicate Selected(
    roots: map<string, Node>, references: seq<string>, glob: (string, string) -> bool, n: nat, chosen: seq<Located>)
    requires n <= |references|
  {
    && AllDistinct(chosen)
    && (forall l :: l in chosen <==> NamedByOne(roots, references, glob, n, l))
    && (forall k :: 0 <= k < n ==> NamesSome(roots, references[k], glob))
    && (forall j, k :: 0 <= j < k < n ==> !Overlapping(roots, references, glob, j, k))
  }

  /** The files of one reference, as files of its root. */
  function Locate(alias: string, files: seq<Path>): seq<Located> {
    seq(|files|, i requires 0 <= i < |files| => Located(alias, files[i]))
  }

  lemma {:induction false} ExpandedAreNamed(
    roots: map<string, Node>, reference: string, glob: (string, string) -> bool, files: seq<Path>)
    requires LogicalParts(reference, true).Some? && LogicalParts(reference, true).value.alias in roots
    requires var ref := LogicalParts(reference, true).value;
             && Distinct(files)
             && forall f :: f in files <==> Below(Query(ref.parts, glob), Pending([], roots[ref.alias]), f)
    ensures var found := Locate(LogicalParts(reference, true).value.alias, files);
            AllDistinct(found) && forall l :: l in found <==> Names(roots, reference, glob, l)
  {
    hide LogicalParts, Below;
    var alias := LogicalParts(reference, true).value.alias;
    var found := Locate(alias, files);
    forall l ensures l in found <==> Names(roots, reference, glob, l) {
      if l.alias == alias && l.file in files {
        var i :| 0 <= i < |files| && files[i] == l.file;
        assert found[i] == l;
      }
      if l in found {
        var i :| 0 <= i < |found| && found[i] == l;
        assert files[i] == l.file;
      }
    }
  }

  /** The files of one more reference join the chosen ones, none of them chosen before. */
  lemma {:induction false} SelectionGrows(
    roots: map<string, Node>, references: seq<string>, glob: (string, string) -> bool, n: nat,
    chosen: seq<Located>, found: seq<Located>)
    requires n < |references| && Selected(roots, references, glob, n, chosen)
    requires AllDistinct(found) && found != [] && forall l :: l in found ==> l !in chosen
    requires forall l :: l in found <==> Names(roots, references[n], glob, l)
    ensures Selected(roots, references, glob, n + 1, chosen + found)
  {
    hide Names;
    var all := chosen + found;
    forall i, j | 0 <= i < j < |all| ensures all[i] != all[j] {
      if i < |chosen| <= j {
        assert all[i] in chosen && all[j] in found;
      } else if i >= |chosen| {
        assert all[i] == found[i - |chosen|] && all[j] == found[j - |chosen|];
      }
    }
    assert found[0] in found && Names(roots, references[n], glob, found[0]);
    forall j | 0 <= j < n ensures !Overlapping(roots, references, glob, j, n) {
      assert forall l :: Names(roots, references[j], glob, l) ==> NamedByOne(roots, references, glob, n, l);
    }
    forall l ensures l in all <==> NamedByOne(roots, references, glob, n + 1, l) {
      if NamedByOne(roots, references, glob, n, l) {
        var k :| 0 <= k < n && Names(roots, references[k], glob, l);
        assert NamedByOne(roots, references, glob, n + 1, l);
      }
      if Names(roots, references[n], glob, l) {
        assert NamedByOne(roots, references, glob, n + 1, l);
      }
    }
  }

  /** Add the files of one reference to the chosen ones, one by one. */
  method Choose(chosen: seq<Located>, found: seq<Located>, maxFiles: nat) returns (r: Result<seq<Located>, Fault>)
    requires AllDistinct(found) && |chosen| <= maxFiles
    ensures r.Ok? <==> |chosen| + |found| <= maxFiles && forall l :: l in found ==> l !in chosen
    ensures r.Ok? ==> r.value == chosen + found
    ensures r.Err? ==> r.error == Overlap || r.error == TooManyFiles
  {
    var all := chosen;
    for i := 0 to |found|
      invariant all == chosen + found[..i] && |all| <= maxFiles
      invariant forall k :: 0 <= k < i ==> found[k] !in chosen
    {
      if found[i] in all {
        assert found[i] !in found[..i];
        return Err(Overlap);
      }
      all := all + [found[i]];
      assert chosen + found[..i + 1] == all;
      if |all| > maxFiles {
        return Err(TooManyFiles);
      }
    }
    assert found[..|found|] == found;
    return Ok(all);
  }

  /** More different files are named than allowed. */
  ghost predicate TooMany(
    roots: map<string, Node>, references: seq<string>, glob: (string, string) -> bool, maxFiles: nat)
  {
    exists many :: |many| > maxFiles && AllDistinct(many)
                   && forall l :: l in many ==> NamedByOne(roots, references, glob, |references|, l)
  }

  /** Why a view's references cannot be selected. */
  ghost predicate Unselectable(
    roots: map<string, Node>, references: seq<string>, glob: (string, string) -> bool,
    maxDepth: nat, maxEntries: nat, maxFiles: nat)
  {
    || (exists k :: 0 <= k < |references| && !Resolvable(roots, references[k], glob, maxDepth))
    || TotalCost(roots, references, glob) > maxEntries
    || (exists k :: 0 <= k < |references| && !NamesSome(roots, references[k], glob))
    || (exists j, k :: 0 <= j < k < |references| && Overlapping(roots, references, glob, j, k))
    || TooMany(roots, references, glob, maxFiles)
  }

  lemma {:induction false} CostsAddUp(
    roots: map<string, Node>, references: seq<string>, glob: (string, string) -> bool, n: nat)
    requires n <= |references|
    ensures TotalCost(roots, references[..n], glob) <= TotalCost(roots, references, glob)
    decreases |references|
  {
    hide CostOf;
    if n < |references| {
      CostsAddUp(roots, references[..|references| - 1], glob, n);
      assert references[..|references| - 1][..n] == references[..n];
    } else {
      assert references[..n] == references;
    }
  }

  /** Files that do not fit: one was chosen before, or there are too many of them. */
  lemma {:induction false} UnfitFiles(
    roots: map<string, Node>, references: seq<string>, glob: (string, string) -> bool, n: nat,
    chosen: seq<Located>, found: seq<Located>, maxFiles: nat)
    requires n < |references| && Selected(roots, references, glob, n, chosen)
    requires AllDistinct(found) && forall l :: l in found <==> Names(roots, references[n], glob, l)
    requires |chosen| + |found| > maxFiles || exists l :: l in found && l in chosen
    ensures (exists j :: 0 <= j < n && Overlapping(roots, references, glob, j, n))
         || TooMany(roots, references, glob, maxFiles)
  {
    hide Names;
    if l :| l in found && l in chosen {
      assert NamedByOne(roots, references, glob, n, l);
      var j :| 0 <= j < n && Names(roots, references[j], glob, l);
      assert Overlapping(roots, references, glob, j, n);
    } else {
      var many := chosen + found;
      if found != [] {
        SelectionGrows(roots, references, glob, n, chosen, found);
      } else {
        assert many == chosen;
      }
      assert AllDistinct(many);
      forall l | l in many ensures NamedByOne(roots, references, glob, |references|, l) {
        if l in chosen {
          assert NamedByOne(roots, references, glob, n, l);
        }
      }
    }
  }

  /** Files chosen from distinct ones are no more than those. */
  lemma {:induction false} NoMoreThan(many: seq<Located>, chosen: seq<Located>)
    requires AllDistinct(many) && forall l :: l in many ==> l in chosen
    ensures |many| <= |chosen|
    decreases |many|
  {
    if many != [] {
      var last := many[|many| - 1];
      assert last in many;
      var i :| 0 <= i < |chosen| && chosen[i] == last;
      var others := chosen[..i] + chosen[i + 1..];
      forall l | l in many[..|many| - 1] ensures l in others {
        var k :| 0 <= k < |many| - 1 && many[k] == l;
        assert many[k] in many;
        var j :| 0 <= j < |chosen| && chosen[j] == l;
        assert j != i;
        assert others[if j < i then j else j - 1] == l;
      }
      NoMoreThan(many[..|many| - 1], others);
    }
  }

  /** A selection within the bounds is not unselectable for its number of files. */
  lemma {:induction false} SelectedAreFewEnough(
    roots: map<string, Node>, references: seq<string>, glob: (string, string) -> bool, chosen: seq<Located>,
    maxFiles: nat)
    requires Selected(roots, references, glob, |references|, chosen) && |chosen| <= maxFiles
    ensures !TooMany(roots, references, glob, maxFiles)
    ensures forall k :: 0 <= k < |references| ==> NamesSome(roots, references[k], glob)
    ensures forall j, k :: 0 <= j < k < |references| ==> !Overlapping(roots, references, glob, j, k)
  {
    hide Names, NamedByOne;
    forall many | AllDistinct(many) && forall l :: l in many ==> NamedByOne(roots, references, glob, |references|, l)
      ensures |many| <= maxFiles
    {
      NoMoreThan(many, chosen);
    }
  }

  /**
    All references of a view under one budget of entries: it finishes if and only if every reference can
    be resolved, their listings together keep to the budget, each names a file, no two name the same one,
    and there are not too many; what it has chosen then is exactly the files they name, each once.
   */
  method SelectFiles(
    roots: map<string, Node>, references: seq<string>, glob: (string, string) -> bool,
    maxDepth: nat, maxEntries: nat, maxFiles: nat)
    returns (r: Result<seq<Located>, Fault>)
    requires Literally(glob)
    requires forall alias :: alias in roots ==> WellFormed(roots[alias])
    ensures r.Ok? ==> Selected(roots, references, glob, |references|, r.value) && |r.value| <= maxFiles
    ensures r.Ok? <==> !Unselectable(roots, references, glob, maxDepth, maxEntries, maxFiles)
    ensures r == Err(EntryLimit) ==> TotalCost(roots, references, glob) > maxEntries
  {
    hide LogicalParts, WellFormed, Literally, Below, Good, Cost, Resolvable, CostOf, Names, Selected, NamesSome;
    hide Overlapping, TooMany;
    var chosen: seq<Located>, entries: nat := [], 0;
    NothingSelected(roots, references, glob);
    for n := 0 to |references|
      invariant Selected(roots, references, glob, n, chosen) && |chosen| <= maxFiles
      invariant entries == TotalCost(roots, references[..n], glob) <= maxEntries
      invariant forall k :: 0 <= k < n ==> Resolvable(roots, references[k], glob, maxDepth)
    {
      assert references[..n + 1][..n] == references[..n];
      CostsAddUp(roots, references, glob, n + 1);
      var expanded, listed := Expand(roots, references[n], glob, maxDepth, entries, maxEntries);
      if expanded.Err? {
        return Err(expanded.error);
      }
      entries := listed;
      var found := Locate(LogicalParts(references[n], true).value.alias, expanded.value);
      ExpandedAreNamed(roots, references[n], glob, expanded.value);
      if found == [] {
        NamesNone(roots, references[n], glob);
        return Err(NoMatch);
      }
      var joined := Choose(chosen, found, maxFiles);
      if joined.Err? {
        UnfitFiles(roots, references, glob, n, chosen, found, maxFiles);
        return Err(joined.error);
      }
      SelectionGrows(roots, references, glob, n, chosen, found);
      chosen := joined.value;
    }
    assert references[..|references|] == references;
    SelectedAreFewEnough(roots, references, glob, chosen, maxFiles);
    return Ok(chosen);
  }

  lemma {:induction false} NamesNone(roots: map<string, Node>, reference: string, glob: (string, string) -> bool)
    requires forall l :: !Names(roots, reference, glob, l)
    ensures !NamesSome(roots, reference, glob)
  {
  }

  lemma {:induction false} NothingSelected(
    roots: map<string, Node>, references: seq<string>, glob: (string, string) -> bool)
    ensures Selected(roots, references, glob, 0, [])
  {
  }

  // ----------------------------------------------- agreement with the matcher

  /** Whether one named file belongs to a reference; `None` when either is unsafe. */
  function Matches(file: string, pattern: string, glob: (string, string) -> bool): Option<bool> {
    var f, p := LogicalParts(file, false), LogicalParts(pattern, true);
    if f.None? || p.None? then None
    else Some(&& f.value.alias == p.value.alias
              && |f.value.parts| == |p.value.parts|
              && forall i :: 0 <= i < |f.value.parts| ==> glob(f.value.parts[i], p.value.parts[i]))
  }

  /** The logical path of a file below a root. */
  function LogicalText(alias: string, file: Path): string {
    Join([alias] + file)
  }

  lemma {:induction false} TreeNamesArePlain(node: Node, file: Path)
    requires WellFormed(node) && Lookup(node, file).Some?
    ensures forall i :: 0 <= i < |file| ==> PlainName(file[i])
    decreases file
  {
    if file != [] {
      var k := FindIsThere(node.children, file[0]);
      TreeNamesArePlain(node.children[k].node, file[1..]);
      assert file == [file[0]] + file[1..];
    }
  }

  /** The logical path of a file splits back into its alias and components. */
  lemma {:induction false} LogicalTextSplits(alias: string, root: Node, file: Path)
    requires WellFormed(root) && Lookup(root, file).Some? && '/' !in alias
    ensures Split(LogicalText(alias, file)) == [alias] + file
  {
    TreeNamesArePlain(root, file);
    SplitJoin([alias] + file);
  }

  /** What a path of plain names must not have in it for the matcher to look at it. */
  predicate IsRefusedChar(c: char) {
    IsControl(c) || c == '\\' || IsGlobChar(c)
  }

  /** A path the matcher looks at: short, without refused characters, and naming a Parquet file. */
  predicate SafePath(text: string) {
    |text| <= 4096 && EndsWith(text, ".parquet") && forall i :: 0 <= i < |text| ==> !IsRefusedChar(text[i])
  }

  lemma {:induction false} ContainedSomewhere(s: string, needle: string) returns (k: nat)
    requires Contains(s, needle)
    ensures k + |needle| <= |s| && s[k..k + |needle|] == needle
    ensures |needle| >= 2 ==> s[k] == needle[0] && s[k + 1] == needle[1]
  {
    if s[..|needle|] == needle {
      k := 0;
    } else {
      k := ContainedSomewhere(s[1..], needle);
      k := k + 1;
    }
    if |needle| >= 2 {
      assert s[k..k + |needle|][0] == s[k] && s[k..k + |needle|][1] == s[k + 1];
    }
  }

  /** Joined components never leave two separators side by side. */
  lemma {:induction false} NoDoubleSlash(parts: seq<string>, k: nat)
    requires parts != [] && forall i :: 0 <= i < |parts| ==> '/' !in parts[i]
    requires forall i :: 1 <= i < |parts| ==> parts[i] != ""
    requires k + 1 < |Join(parts)|
    ensures !(Join(parts)[k] == '/' && Join(parts)[k + 1] == '/')
    decreases parts
  {
    var first := parts[0];
    if |parts| > 1 && k > |first| {
      NoDoubleSlash(parts[1..], k - |first| - 1);
    } else if |parts| > 1 && k == |first| {
      var rest := parts[1..];
      assert Join(parts)[k + 1] == Join(rest)[0];
      assert rest[0] != "" && Join(rest)[0] == rest[0][0];
    } else {
      assert Join(parts)[k] == first[k];
    }
  }

  /** A path of plain names below an alias is looked at exactly when it is safe. */
  lemma {:induction false} LookedAtIffSafe(alias: string, root: Node, file: Path)
    requires WellFormed(root) && Lookup(root, file).Some? && file != []
    requires alias == "__HIST__" || alias == "__DC__"
    ensures LogicalParts(LogicalText(alias, file), false).Some? <==> SafePath(LogicalText(alias, file))
  {
    var text, parts := LogicalText(alias, file), [alias] + file;
    LogicalTextSplits(alias, root, file);
    TreeNamesArePlain(root, file);
    hide WellFormed, Lookup, Join;
    if Contains(text, "**") {
      var k := ContainedSomewhere(text, "**");
      assert text[k] == text[k..k + 2][0] == '*';
    }
    if Contains(text, "://") {
      var k := ContainedSomewhere(text, "://");
      assert text[k + 1] == text[k..k + 3][1] && text[k + 2] == text[k..k + 3][2];
      NoDoubleSlash(parts, k + 1);
    }
  }

  /** The traversal and the matcher give the same answer on a file. */
  ghost predicate Agree(root: Node, reference: string, ref: Reference, glob: (string, string) -> bool, file: Path) {
    Below(Query(ref.parts, glob), Pending([], root), file)
    <==> Matches(LogicalText(ref.alias, file), reference, glob) == Some(true)
  }

  /**
    Traversal and matcher agree on a regular file of the tree if and only if its logical path is safe or
    the file is not expanded. What is expanded never leaves the root: no component is empty, a dot name or
    has a separator in it.
   */
  lemma {:induction false} ExpansionAgreesWithMatcher(
    root: Node, reference: string, glob: (string, string) -> bool, file: Path)
    requires root.Dir? && WellFormed(root) && Lookup(root, file) == Some(File) && LogicalParts(reference, true).Some?
    ensures var ref := LogicalParts(reference, true).value;
            && (Agree(root, reference, ref, glob, file) <==>
                  SafePath(LogicalText(ref.alias, file)) || !Below(Query(ref.parts, glob), Pending([], root), file))
            && (forall i :: 0 <= i < |file| ==> PlainName(file[i]))
  {
    var ref := LogicalParts(reference, true).value;
    LogicalTextSplits(ref.alias, root, file);
    TreeNamesArePlain(root, file);
    PartsOfText(ref.alias, root, file);
    LookedAtIffSafe(ref.alias, root, file);
    hide LogicalParts, WellFormed, Join, SafePath;
    assert file[0..] == file;
  }

  lemma {:induction false} PartsOfText(alias: string, root: Node, file: Path)
    requires WellFormed(root) && Lookup(root, file).Some? && '/' !in alias
    ensures var r := LogicalParts(LogicalText(alias, file), false); r.Some? ==> r.value == Reference(alias, file)
  {
    LogicalTextSplits(alias, root, file);
    assert ([alias] + file)[1..] == file;
  }

  /** The matcher refuses to look at a file with a wildcard character in its own name. */
  lemma {:induction false} WildcardNamesAreRefused(
    alias: string, file: Path, pattern: string, glob: (string, string) -> bool, i: nat, k: nat)
    requires i < |file| && k < |file[i]| && IsGlobChar(file[i][k])
    ensures Matches(LogicalText(alias, file), pattern, glob) == None
  {
    var at := JoinContains([alias] + file, i + 1, k);
    assert IsGlobChar(LogicalText(alias, file)[at]);
  }

  lemma {:induction false} JoinContains(parts: seq<string>, i: nat, k: nat) returns (at: nat)
    requires i < |parts| && k < |parts[i]|
    ensures at < |Join(parts)| && Join(parts)[at] == parts[i][k]
    decreases parts
  {
    if i == 0 {
      at := k;
    } else {
      at := JoinContains(parts[1..], i - 1, k);
      at := at + |parts[0]| + 1;
    }
  }

  const STAR_NAME := "*.parquet"
  const STAR_REFERENCE := "__HIST__/*.parquet"

  /** A matcher for two kinds of components: without wildcards, and every name with one ending. */
  function StarGlob(): (string, string) -> bool {
    (name, component) => name == component || (component == STAR_NAME && EndsWith(name, ".parquet"))
  }

  /**
    Where they part: a file that has a wildcard character in its own name is expanded from the pattern,
    but the matcher refuses to look at its path.
   */
  lemma {:induction false} WildcardNameIsExpandedButRefused()
    ensures var root := Dir([Child(STAR_NAME, File)]);
            var file := [STAR_NAME];
            && WellFormed(root) && Literally(StarGlob())
            && LogicalParts(STAR_REFERENCE, true) == Some(Reference("__HIST__", [STAR_NAME]))
            && Below(Query([STAR_NAME], StarGlob()), Pending([], root), file)
            && Matches(LogicalText("__HIST__", file), STAR_REFERENCE, StarGlob()) == None
  {
    StarIsExpanded();
    StarReferenceIsSafe();
    StarPathIsUnsafe();
    hide LogicalParts, Below, WellFormed, LogicalText, Literally;
  }

  lemma {:induction false} StarIsExpanded()
    ensures var root := Dir([Child(STAR_NAME, File)]);
            && WellFormed(root) && Literally(StarGlob())
            && Below(Query([STAR_NAME], StarGlob()), Pending([], root), [STAR_NAME])
  {
    var root := Dir([Child(STAR_NAME, File)]);
    var file := [STAR_NAME];
    assert STAR_NAME[0] == '*' && HasMeta(STAR_NAME);
    assert |STAR_NAME| == 9 && PlainName(STAR_NAME);
    assert file[0..] == file && file[1..] == [];
    assert Find(root.children, STAR_NAME) == Some(File);
    assert Lookup(File, []) == Some(File);
  }

  lemma {:induction false} StarPathIsUnsafe()
    ensures LogicalText("__HIST__", [STAR_NAME]) == STAR_REFERENCE
    ensures LogicalParts(STAR_REFERENCE, false) == None
  {
    assert ["__HIST__"] + [STAR_NAME] == ["__HIST__", STAR_NAME];
    assert ["__HIST__", STAR_NAME][1..] == [STAR_NAME];
    assert Join([STAR_NAME]) == STAR_NAME;
    assert STAR_REFERENCE[9] == '*' && IsGlobChar(STAR_REFERENCE[9]);
  }

  /** A needle of two or three characters is not in a text if its first two never stand side by side. */
  lemma {:induction false} NotContained(s: string, needle: string)
    requires |needle| >= 2
    requires forall k :: 0 <= k < |s| - 1 ==> !(s[k] == needle[0] && s[k + 1] == needle[1])
    ensures !Contains(s, needle)
  {
    if Contains(s, needle) {
      var k := ContainedSomewhere(s, needle);
    }
  }

  /** What makes a reference safe, one condition at a time. */
  lemma {:induction false} SafeReference(value: string, alias: string, parts: seq<string>)
    requires |value| <= 4096 && Split(value) == [alias] + parts && parts != []
    requires alias == "__HIST__" || alias == "__DC__"
    requires forall i :: 0 <= i < |parts| ==> !IsDots(parts[i])
    requires forall i :: 0 <= i < |value| ==> !IsControl(value[i]) && value[i] != '\\'
    requires !Contains(value, "://") && !Contains(value, "**") && EndsWith(value, ".parquet")
    ensures LogicalParts(value, true) == Some(Reference(alias, parts))
  {
  }

  lemma {:induction false} StarReferenceIsSafe()
    ensures LogicalParts(STAR_REFERENCE, true) == Some(Reference("__HIST__", [STAR_NAME]))
  {
    hide LogicalParts, Contains, Split, IsControl, EndsWith;
    StarReferenceSplits();
    NotContained(STAR_REFERENCE, "://");
    NotContained(STAR_REFERENCE, "**");
    StarReferenceIsTame();
    assert ["__HIST__"] + [STAR_NAME] == ["__HIST__", STAR_NAME];
    SafeReference(STAR_REFERENCE, "__HIST__", [STAR_NAME]);
  }

  lemma {:induction false} StarReferenceIsTame()
    ensures forall i :: 0 <= i < |STAR_REFERENCE| ==> !IsControl(STAR_REFERENCE[i]) && STAR_REFERENCE[i] != '\\'
    ensures |STAR_REFERENCE| <= 4096 && EndsWith(STAR_REFERENCE, ".parquet") && !IsDots(STAR_NAME)
  {
    assert STAR_REFERENCE[|STAR_REFERENCE| - 8..] == ".parquet";
    assert |STAR_NAME| == 9;
  }

  lemma {:induction false} StarReferenceSplits()
    ensures Split(STAR_REFERENCE) == ["__HIST__", STAR_NAME]
  {
    hide Split;
    assert STAR_REFERENCE == "__HIST__" + "/" + STAR_NAME;
    SplitFirst("__HIST__", STAR_NAME);
    SplitPlain(STAR_NAME);
  }
}
