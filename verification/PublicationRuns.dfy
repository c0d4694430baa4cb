/**
  Publications that run to their end: over any spool within the bounds, with nobody interfering, a publication
  copies, checks and links, and what it leaves behind is known beforehand.
 */
module PublicationRuns {
  import opened Wrappers
  import opened Manifests
  import opened Publication
  import opened SpoolCleanup

  // --------------------------------------------------------------------- runs

  ghost predicate Leads(s: State, t: State) {
    exists actions :: Run(s, actions) == Some(t)
  }

  lemma {:induction false} StaysThere(s: State)
    ensures Leads(s, s)
  {
    assert Run(s, []) == Some(s);
  }

  lemma {:induction false} RunOn(s: State, actions: seq<Action>, more: seq<Action>)
    requires Run(s, actions).Some?
    ensures Run(s, actions + more) == Run(Run(s, actions).value, more)
    decreases |actions|
  {
    hide Next;
    if actions == [] {
      assert actions + more == more;
    } else {
      assert (actions + more)[0] == actions[0] && (actions + more)[1..] == actions[1..] + more;
      RunOn(Next(s, actions[0]).value, actions[1..], more);
    }
  }

  lemma {:induction false} LeadsOn(s: State, t: State, u: State)
    requires Leads(s, t) && Leads(t, u)
    ensures Leads(s, u)
  {
    hide Next, Run;
    var actions :| Run(s, actions) == Some(t);
    var more :| Run(t, more) == Some(u);
    RunOn(s, actions, more);
    assert Run(s, actions + more) == Some(u);
  }

  lemma {:induction false} OneAction(s: State, action: Action)
    requires Next(s, action).Some?
    ensures Leads(s, Next(s, action).value)
  {
    hide Next;
    var t := Next(s, action).value;
    assert [action][1..] == [] && Run(t, []) == Some(t);
    assert Run(s, [action]) == Some(t);
  }

  lemma {:induction false} OneMore(s: State, t: State, action: Action)
    requires Leads(s, t) && Next(t, action).Some?
    ensures Leads(s, Next(t, action).value)
  {
    hide Next, Leads;
    OneAction(t, action);
    LeadsOn(s, t, Next(t, action).value);
  }

  // ------------------------------------------------- one publication at work

  /** A state in which one publisher is at work, with what stands at its destination. */
  function Put(s: State, me: Process, p: Publisher, disk: Option<Directory>): State {
    s.(publishers := s.publishers[me := p], dests := if disk.None? then s.dests else s.dests[p.dest := disk.value])
  }

  lemma {:induction false} Advance(
    s: State, me: Process, p: Publisher, disk: Option<Directory>, step: PublishStep, q: Publisher,
    later: Option<Directory>)
    requires Leads(s, Put(s, me, p, disk)) && p.dest !in s.dests && q.dest == p.dest && (disk.Some? ==> later.Some?)
    requires PublishNext(me, s.src, disk, p, step) == Some((q, later))
    ensures Leads(s, Put(s, me, q, later))
  {
    hide PublishNext, Leads;
    var t := Put(s, me, p, disk);
    OneMore(s, t, Publish(me, step));
    assert DiskAt(t.dests, p.dest) == disk;
    assert PublishIn(t, me, step).value == Put(s, me, q, later);
  }

  // ------------------------------------------------------------- quiet spools

  /** What every name stands for. */
  function Ids(src: Source): map<Name, Identity> {
    map n | n in src.names && src.names[n] in src.inodes :: src.inodes[src.names[n]]
  }

  function Raw(src: Source): set<Name> {
    Ids(src).Keys - {CATALOGUE}
  }

  function ContentOf(src: Source, n: Name): Bytes {
    if n in Ids(src) && Ids(src)[n] in src.content then src.content[Ids(src)[n]] else []
  }

  function Contents(src: Source, names: set<Name>): map<Name, Bytes> {
    map n | n in names :: ContentOf(src, n)
  }

  function RecordsOf(src: Source, names: set<Name>): map<Name, Record> {
    map n | n in names :: RecordOf(ContentOf(src, n))
  }

  /** The spool keeps the bounds of a publication. */
  ghost predicate Within(src: Source) {
    && (forall n :: n in src.names ==> src.names[n] in src.inodes && src.inodes[src.names[n]] in src.content)
    && |Ids(src)| <= MAX_FILES
    && Ids(src).Keys * RESERVED == {}
    && forall n :: n in Ids(src) ==> !Oversized(ContentOf(src, n))
  }

  /** Names seen so far. */
  function Seen(src: Source, left: set<Name>): map<Name, Identity> {
    map n | n in Ids(src) && n !in left :: Ids(src)[n]
  }

  lemma {:induction false} SeeOne(src: Source, p: Publisher, left: set<Name>, n: Name)
    requires Within(src) && Walking(p) && n in left && left <= Ids(src).Keys && p.seen == Seen(src, left)
    ensures SeeNext(src, p, n) == Some(p.(seen := Seen(src, left - {n})))
  {
    var seen := p.seen[n := Ids(src)[n]];
    assert seen == Seen(src, left - {n});
    NoMoreNames(seen, Ids(src));
  }

  lemma {:induction false} NoMoreNames(some: map<Name, Identity>, all: map<Name, Identity>)
    requires some.Keys <= all.Keys
    ensures |some| <= |all|
  {
    NoLarger(some.Keys, all.Keys);
    assert |some| == |some.Keys| && |all| == |all.Keys|;
  }

  /** A walk over a spool that keeps still meets every file. */
  lemma {:induction false} WalksAll(s: State, me: Process, p: Publisher, disk: Option<Directory>, left: set<Name>)
    requires Within(s.src) && Walking(p) && p.dest !in s.dests && left <= Ids(s.src).Keys && p.seen == Seen(s.src, left)
    requires Leads(s, Put(s, me, p, disk))
    ensures Leads(s, Put(s, me, p.(seen := Ids(s.src)), disk))
    decreases left
  {
    hide Leads, SeeNext, Within, SourceOk;
    if left == {} {
      assert Seen(s.src, left) == Ids(s.src);
    } else {
      var n :| n in left;
      SeeOne(s.src, p, left, n);
      Advance(s, me, p, disk, See(n), p.(seen := Seen(s.src, left - {n})), disk);
      WalksAll(s, me, p.(seen := Seen(s.src, left - {n})), disk, left - {n});
    }
  }

  // ------------------------------------------------------------------ copying

  /** A publisher with the files outside `todo` copied, and its directory. */
  ghost predicate Copied(src: Source, me: Process, p: Publisher, dir: Directory, todo: set<Name>) {
    && todo <= Raw(src)
    && p.stage.Copies? && p.original == Ids(src) && p.todo == todo && p.records == RecordsOf(src, Raw(src) - todo)
    && dir == Directory(me, Contents(src, Raw(src) - todo), None, 0, None, false, false, false)
  }

  lemma {:induction false} CopiesBlock(s: State, me: Process, p: Publisher, dir: Directory, n: Name)
    returns (q: Publisher, later: Directory)
    requires Within(s.src) && p.dest !in s.dests && Leads(s, Put(s, me, p, Some(dir)))
    requires n in Ids(s.src) && p.stage.Copying? && p.name == n && p.fd == s.src.names[n] && p.copied == []
    requires n in dir.files && dir.files[n] == []
    ensures q == p.(copied := ContentOf(s.src, n)) && later == dir.(files := dir.files[n := ContentOf(s.src, n)])
    ensures Leads(s, Put(s, me, q, Some(later)))
  {
    hide Leads;
    var content := ContentOf(s.src, n);
    q, later := p.(copied := content), dir.(files := dir.files[n := content]);
    if content == [] {
      assert later == dir && q == p;
    } else {
      assert [] + content[0..|content|] == content;
      Advance(s, me, p, Some(dir), CopyBlock(|content|), q, Some(later));
    }
  }

  lemma {:induction false} OpensOne(s: State, me: Process, p: Publisher, dir: Directory, todo: set<Name>, n: Name)
    returns (q: Publisher, later: Directory)
    requires Within(s.src) && p.dest !in s.dests && Leads(s, Put(s, me, p, Some(dir)))
    requires Copied(s.src, me, p, dir, todo) && n in todo
    ensures q == p.(stage := Copying, name := n, fd := s.src.names[n], copied := [])
    ensures later == dir.(files := dir.files[n := []]) && Leads(s, Put(s, me, q, Some(later)))
  {
    hide Leads, CopyBlockNext, FinishCopyNext, RESERVED;
    var p1 := p.(stage := Opened, name := n, fd := s.src.names[n], copied := []);
    q, later := p1.(stage := Copying), dir.(files := dir.files[n := []]);
    Advance(s, me, p, Some(dir), Open(n), p1, Some(later));
    Advance(s, me, p1, Some(later), CheckOpened, q, Some(later));
  }

  lemma {:induction false} FinishesOne(
    src: Source, me: Process, p: Publisher, dir: Directory, todo: set<Name>, n: Name, q: Publisher, later: Directory)
    requires Within(src) && Copied(src, me, p, dir, todo) && n in todo
    requires q == p.(stage := Copying, name := n, fd := src.names[n], copied := ContentOf(src, n))
    requires later == dir.(files := dir.files[n := ContentOf(src, n)])
    ensures FinishCopyNext(src, later, q).Some? && FinishCopyNext(src, later, q).value.dir == later
    ensures Copied(src, me, FinishCopyNext(src, later, q).value.p, later, todo - {n})
    ensures var r := FinishCopyNext(src, later, q).value.p;
            && r == q.(stage := Copies, todo := r.todo, records := r.records)
            && PublishNext(me, src, Some(later), q, FinishCopy) == Some((r, Some(later)))
  {
    hide RESERVED;
    assert Raw(src) - (todo - {n}) == (Raw(src) - todo) + {n};
    assert later.files == Contents(src, Raw(src) - (todo - {n}));
    assert p.records[n := RecordOf(ContentOf(src, n))] == RecordsOf(src, Raw(src) - (todo - {n}));
  }

  lemma {:induction false} CopiesOne(s: State, me: Process, p: Publisher, dir: Directory, todo: set<Name>, n: Name)
    returns (q: Publisher, later: Directory)
    requires Within(s.src) && p.dest !in s.dests && Leads(s, Put(s, me, p, Some(dir)))
    requires Copied(s.src, me, p, dir, todo) && n in todo
    ensures q ==
            p.(stage := Copies, todo := q.todo, records := q.records, name := q.name, fd := q.fd, copied := q.copied)
    ensures Copied(s.src, me, q, later, todo - {n}) && Leads(s, Put(s, me, q, Some(later)))
  {
    NameIsKnown(s.src, me, p, dir, todo, n);
    hide Leads, Copied, Within, FinishCopyNext, PublishNext, Put, ContentOf;
    var p2, d1 := OpensOne(s, me, p, dir, todo, n);
    var p3, d3 := CopiesBlock(s, me, p2, d1, n);
    assert d3 == dir.(files := dir.files[n := ContentOf(s.src, n)]);
    FinishesOne(s.src, me, p, dir, todo, n, p3, d3);
    q, later := FinishCopyNext(s.src, d3, p3).value.p, d3;
    Advance(s, me, p3, Some(d3), FinishCopy, q, Some(later));
  }

  lemma {:induction false} NameIsKnown(
    src: Source, me: Process, p: Publisher, dir: Directory, todo: set<Name>, n: Name)
    requires Copied(src, me, p, dir, todo) && n in todo
    ensures n in Ids(src) && n in src.names && p.stage.Copies?
  {
  }

  lemma {:induction false} CopiesAll(s: State, me: Process, p: Publisher, dir: Directory, todo: set<Name>)
    returns (q: Publisher, later: Directory)
    requires Within(s.src) && p.dest !in s.dests && Leads(s, Put(s, me, p, Some(dir)))
    requires Copied(s.src, me, p, dir, todo)
    ensures q ==
            p.(stage := Copies, todo := q.todo, records := q.records, name := q.name, fd := q.fd, copied := q.copied)
    ensures Copied(s.src, me, q, later, {}) && Leads(s, Put(s, me, q, Some(later)))
    decreases todo
  {
    hide Leads, Copied, Within;
    q, later := p, dir;
    if todo == {} {
      StillCopied(s.src, me, p, dir);
    } else {
      var n :| n in todo;
      q, later := CopiesOne(s, me, p, dir, todo, n);
      q, later := CopiesAll(s, me, q, later, todo - {n});
    }
  }

  lemma {:induction false} StillCopied(src: Source, me: Process, p: Publisher, dir: Directory)
    requires Copied(src, me, p, dir, {})
    ensures p.stage.Copies?
  {
  }

  /** Snapshot taken, destination reserved and every file copied. */
  lemma {:induction false} BeginsAndCopies(
    s: State, me: Process, dest: Destination, catalogue: bool, provenance: Option<Document>, root: string)
    returns (q: Publisher, later: Directory)
    requires Within(s.src) && me !in s.publishers && dest !in s.dests
    ensures q.dest == dest && q.catalogue == catalogue && q.claims == ClaimsFor(dest, provenance, root)
    ensures Copied(s.src, me, q, later, {}) && Leads(s, Put(s, me, q, Some(later)))
  {
    hide Leads, Within, SeeNext, CopyNext, SealNext, CompareNext;
    var src := s.src;
    var p0 := Publisher(
      dest, catalogue, ClaimsFor(dest, provenance, root), FirstWalk, map[], map[], {}, map[], "", 0, [], {});
    StaysThere(s);
    OneMore(s, s, StartPublish(me, dest, catalogue, provenance, root));
    assert Next(s, StartPublish(me, dest, catalogue, provenance, root)).value == Put(s, me, p0, None);
    NothingSeen(src);
    WalksAll(s, me, p0, None, Ids(src).Keys);
    var p1 := p0.(seen := Ids(src));
    Reserved(src, me, p1);
    var p2, d2 := ReserveNext(me, None, p1).0, ReserveNext(me, None, p1).1.value;
    Advance(s, me, p1, None, EndWalk, p2, Some(d2));
    q, later := CopiesAll(s, me, p2, d2, Raw(src));
  }

  lemma {:induction false} Reserved(src: Source, me: Process, p: Publisher)
    requires Within(src) && p.stage.FirstWalk? && p.seen == Ids(src)
    ensures ReserveNext(me, None, p).1.Some? && ReserveNext(me, None, p).0.dest == p.dest
    ensures ReserveNext(me, None, p).0 ==
            p.(stage := Copies, original := p.seen, seen := map[], todo := Raw(src), records := map[])
    ensures Copied(src, me, ReserveNext(me, None, p).0, ReserveNext(me, None, p).1.value, Raw(src))
  {
    hide RESERVED, ContentOf, SourceOk, Oversized;
    assert Raw(src) - Raw(src) == {};
    assert Contents(src, {}) == map[] && RecordsOf(src, {}) == map[];
  }

  // ------------------------------------------------------ checking and sealing

  /** The files of a finished publication. */
  function FinalFiles(src: Source, catalogue: Option<Bytes>): map<Name, Bytes> {
    if catalogue.Some? then Contents(src, Raw(src))[CATALOGUE := catalogue.value] else Contents(src, Raw(src))
  }

  function FinalRecords(src: Source, catalogue: Option<Bytes>): map<Name, Record> {
    if catalogue.Some? then RecordsOf(src, Raw(src))[CATALOGUE := RecordOf(catalogue.value)]
    else RecordsOf(src, Raw(src))
  }

  function FinalManifest(src: Source, catalogue: Option<Bytes>, claims: Claims): Manifest {
    Manifest(FinalRecords(src, catalogue), Ids(src), claims)
  }

  /** A catalogue, if there is one, fits beside the files. */
  predicate Roomy(src: Source, catalogue: Option<Bytes>) {
    catalogue.Some? ==> !Oversized(catalogue.value) && |Raw(src)| + 1 <= MAX_FILES
  }

  /** Everything is copied and catalogued; this is where the publisher stands. */
  ghost predicate Stands(
    src: Source, me: Process, p: Publisher, dir: Directory, catalogue: Option<Bytes>, stage: Stage) {
    && p.stage == stage && p.catalogue == catalogue.Some? && p.original == Ids(src)
    && p.records == FinalRecords(src, catalogue)
    && dir == Directory(me, FinalFiles(src, catalogue), None, 0, None, false, false, false)
  }

  /** The second walk meets what the first one met. */
  lemma {:induction false} WalksBack(s: State, me: Process, p: Publisher, dir: Directory) returns (q: Publisher)
    requires Within(s.src) && p.dest !in s.dests && Leads(s, Put(s, me, p, Some(dir)))
    requires Copied(s.src, me, p, dir, {})
    ensures q == p.(stage := SecondWalk, seen := Ids(s.src)) && Leads(s, Put(s, me, q, Some(dir)))
  {
    hide Leads, Within, SeeNext, Ids, Contents, RecordsOf;
    var p1 := p.(stage := SecondWalk, seen := map[]);
    Advance(s, me, p, Some(dir), EndCopies, p1, Some(dir));
    NothingSeen(s.src);
    WalksAll(s, me, p1, Some(dir), Ids(s.src).Keys);
    q := p1.(seen := Ids(s.src));
  }

  lemma {:induction false} NothingSeen(src: Source)
    ensures Seen(src, Ids(src).Keys) == map[]
  {
  }

  lemma {:induction false} CopiedStands(
    src: Source, me: Process, p: Publisher, dir: Directory, catalogue: Option<Bytes>, q: Publisher, later: Directory)
    requires Copied(src, me, p, dir, {}) && p.catalogue == catalogue.Some?
    requires q == p.(stage := Verifying, seen := map[], records := q.records, unverified := q.unverified)
    requires q.records == (if catalogue.Some? then p.records[CATALOGUE := RecordOf(catalogue.value)] else p.records)
    requires later ==
             dir.(files := if catalogue.Some? then dir.files[CATALOGUE := catalogue.value] else dir.files)
    ensures Stands(src, me, q, later, catalogue, Verifying)
  {
    assert Raw(src) - {} == Raw(src);
    hide Ids, Contents, RecordsOf;
  }

  lemma {:induction false} SkipsCatalogue(s: State, me: Process, p: Publisher, dir: Directory)
    returns (q: Publisher)
    requires p.stage.SecondWalk? && p.seen == p.original && !p.catalogue && dir.(late := false) == dir
    requires p.dest !in s.dests && Leads(s, Put(s, me, p, Some(dir)))
    ensures q == p.(stage := Verifying, seen := map[], unverified := p.records.Keys)
    ensures Leads(s, Put(s, me, q, Some(dir)))
  {
    hide Leads, SeeNext, CopyNext, SealNext, ReserveNext;
    q := p.(stage := Verifying, seen := map[], unverified := p.records.Keys);
    Advance(s, me, p, Some(dir), EndWalk, q, Some(dir));
  }

  lemma {:induction false} MakesCatalogue(s: State, me: Process, p: Publisher, dir: Directory, bytes: Bytes)
    returns (q: Publisher, later: Directory)
    requires p.stage.SecondWalk? && p.seen == p.original && p.catalogue && !Oversized(bytes) && !dir.late
    requires p.dest !in s.dests && Leads(s, Put(s, me, p, Some(dir)))
    ensures var records := p.records[CATALOGUE := RecordOf(bytes)];
            q == p.(stage := Verifying, seen := map[], records := records, unverified := records.Keys)
    ensures later == dir.(files := dir.files[CATALOGUE := bytes])
    ensures Leads(s, Put(s, me, q, Some(later)))
  {
    hide Leads, SeeNext, CopyNext, ReserveNext;
    var p1 := p.(stage := Cataloguing, seen := map[]);
    Advance(s, me, p, Some(dir), EndWalk, p1, Some(dir));
    var records := p.records[CATALOGUE := RecordOf(bytes)];
    q := p1.(stage := Verifying, records := records, unverified := records.Keys);
    later := dir.(files := dir.files[CATALOGUE := bytes]);
    assert later.(late := false) == later;
    Advance(s, me, p1, Some(dir), WriteCatalogue(bytes), q, Some(later));
  }

  lemma {:induction false} Catalogues(s: State, me: Process, p: Publisher, dir: Directory, catalogue: Option<Bytes>)
    returns (q: Publisher, later: Directory)
    requires Within(s.src) && Roomy(s.src, catalogue) && p.dest !in s.dests && Leads(s, Put(s, me, p, Some(dir)))
    requires Copied(s.src, me, p, dir, {}) && p.catalogue == catalogue.Some?
    ensures q.dest == p.dest && q.claims == p.claims && q.unverified == q.records.Keys
    ensures Stands(s.src, me, q, later, catalogue, Verifying) && Leads(s, Put(s, me, q, Some(later)))
  {
    OriginalAndClean(s.src, me, p, dir);
    hide Leads, Within, Ids, Copied, Stands, Put;
    var p1 := WalksBack(s, me, p, dir);
    if catalogue.None? {
      q := SkipsCatalogue(s, me, p1, dir);
      later := dir;
    } else {
      q, later := MakesCatalogue(s, me, p1, dir, catalogue.value);
    }
    CopiedStands(s.src, me, p, dir, catalogue, q, later);
  }

  lemma {:induction false} OriginalAndClean(src: Source, me: Process, p: Publisher, dir: Directory)
    requires Copied(src, me, p, dir, {})
    ensures p.original == Ids(src) && !dir.late && dir.(late := false) == dir
  {
  }

  lemma {:induction false} RecordedIsHeld(src: Source, catalogue: Option<Bytes>, dir: Directory, n: Name)
    requires n in FinalRecords(src, catalogue) && dir.files == FinalFiles(src, catalogue)
    ensures Holds(dir, n, FinalRecords(src, catalogue)[n])
  {
  }

  /** Every record is read back. */
  lemma {:induction false} VerifiesAll(
    s: State, me: Process, p: Publisher, dir: Directory, catalogue: Option<Bytes>, left: set<Name>)
    requires p.dest !in s.dests && Leads(s, Put(s, me, p, Some(dir)))
    requires Stands(s.src, me, p, dir, catalogue, Verifying) && p.unverified == left <= p.records.Keys
    ensures Leads(s, Put(s, me, p.(unverified := {}), Some(dir)))
    decreases left
  {
    hide Leads, FinalRecords, FinalFiles, Ids;
    if left == {} {
      assert p.(unverified := {}) == p;
    } else {
      var n :| n in left;
      RecordedIsHeld(s.src, catalogue, dir, n);
      Advance(s, me, p, Some(dir), VerifyOne(n), p.(unverified := left - {n}), Some(dir));
      VerifiesAll(s, me, p.(unverified := left - {n}), dir, catalogue, left - {n});
    }
  }

  lemma {:induction false} FinalNames(src: Source, catalogue: Option<Bytes>)
    ensures var names := if catalogue.Some? then Raw(src) + {CATALOGUE} else Raw(src);
            FinalFiles(src, catalogue).Keys == names == FinalRecords(src, catalogue).Keys
    ensures |FinalFiles(src, catalogue)| <= |Raw(src)| + (if catalogue.Some? then 1 else 0)
  {
    hide Ids, ContentOf;
    var files := FinalFiles(src, catalogue);
    assert Contents(src, Raw(src)).Keys == Raw(src) == RecordsOf(src, Raw(src)).Keys;
    assert files.Keys == if catalogue.Some? then Raw(src) + {CATALOGUE} else Raw(src);
    AsManyNames(files);
  }

  lemma {:induction false} AsManyNames(files: map<Name, Bytes>)
    ensures |files| == |files.Keys|
  {
  }

  lemma {:induction false} RawIsFew(src: Source)
    requires Within(src)
    ensures |Raw(src)| <= MAX_FILES
  {
    hide Ids, SourceOk, RESERVED, ContentOf;
    NoLarger(Raw(src), Ids(src).Keys);
    assert |Ids(src)| == |Ids(src).Keys|;
  }

  lemma {:induction false} FinalSizes(src: Source, catalogue: Option<Bytes>, n: Name)
    requires Within(src) && Roomy(src, catalogue) && n in FinalFiles(src, catalogue)
    ensures !Oversized(FinalFiles(src, catalogue)[n])
  {
    hide SourceOk, RESERVED, ContentOf;
  }

  lemma {:induction false} FinalFilesFit(src: Source, catalogue: Option<Bytes>)
    requires Within(src) && Roomy(src, catalogue)
    ensures |FinalFiles(src, catalogue)| <= MAX_FILES
    ensures FinalFiles(src, catalogue).Keys == FinalRecords(src, catalogue).Keys
    ensures forall n :: n in FinalFiles(src, catalogue) ==> !Oversized(FinalFiles(src, catalogue)[n])
  {
    hide Within, FinalFiles, FinalRecords, Raw;
    FinalNames(src, catalogue);
    RawIsFew(src);
    forall n | n in FinalFiles(src, catalogue) ensures !Oversized(FinalFiles(src, catalogue)[n]) {
      FinalSizes(src, catalogue, n);
    }
  }

  lemma {:induction false} InventoryFits(
    src: Source, me: Process, p: Publisher, dir: Directory, catalogue: Option<Bytes>)
    requires Within(src) && Roomy(src, catalogue) && Stands(src, me, p, dir, catalogue, Inventory)
    ensures CheckInventoryNext(dir, p) == Some(After(p.(stage := LastWalk, seen := map[]), dir))
  {
    hide Within, Roomy, FinalFiles, FinalRecords, Ids, Oversized;
    FinalFilesFit(src, catalogue);
  }

  lemma {:induction false} Checks(s: State, me: Process, p: Publisher, dir: Directory, catalogue: Option<Bytes>)
    returns (q: Publisher)
    requires Within(s.src) && Roomy(s.src, catalogue) && p.dest !in s.dests && Leads(s, Put(s, me, p, Some(dir)))
    requires Stands(s.src, me, p, dir, catalogue, Verifying) && p.unverified == p.records.Keys
    ensures q.dest == p.dest && q.claims == p.claims
    ensures Stands(s.src, me, q, dir, catalogue, WritingManifest) && Leads(s, Put(s, me, q, Some(dir)))
  {
    hide Leads, Within, SeeNext, CheckInventoryNext, FinalRecords, FinalFiles, Ids;
    var src := s.src;
    VerifiesAll(s, me, p, dir, catalogue, p.records.Keys);
    var p1 := p.(unverified := {});
    var p2 := p1.(stage := Inventory);
    Advance(s, me, p1, Some(dir), EndVerify, p2, Some(dir));
    InventoryFits(src, me, p2, dir, catalogue);
    var p3 := p2.(stage := LastWalk, seen := map[]);
    Advance(s, me, p2, Some(dir), CheckInventory, p3, Some(dir));
    NothingSeen(src);
    WalksAll(s, me, p3, Some(dir), Ids(src).Keys);
    var p4 := p3.(seen := Ids(src));
    q := p4.(stage := WritingManifest);
    Advance(s, me, p4, Some(dir), EndWalk, q, Some(dir));
  }

  /** A directory past its final link, with nothing done to it by others. */
  ghost function SealedDirectory(me: Process, files: map<Name, Bytes>, manifest: Manifest): Directory {
    Directory(me, files, Some(manifest), ManifestBytes(manifest), Some(Seal(manifest)), true, false, false)
  }

  lemma {:induction false} SealsIt(s: State, me: Process, p: Publisher, dir: Directory, catalogue: Option<Bytes>)
    returns (q: Publisher, later: Directory)
    requires p.dest !in s.dests && Leads(s, Put(s, me, p, Some(dir)))
    requires Stands(s.src, me, p, dir, catalogue, WritingManifest)
    ensures q == p.(stage := Published)
    ensures later == SealedDirectory(me, FinalFiles(s.src, catalogue), FinalManifest(s.src, catalogue, p.claims))
    ensures Leads(s, Put(s, me, q, Some(later)))
  {
    hide Leads, ManifestBytes, FinalRecords, FinalFiles, Ids;
    var manifest := FinalManifest(s.src, catalogue, p.claims);
    var d1 := dir.(manifest := Some(manifest), manifestBytes := ManifestBytes(manifest));
    var d2 := d1.(marker := Some(Seal(manifest)));
    var p1, p2 := p.(stage := WritingMarker), p.(stage := Linking);
    q, later := p.(stage := Published), d2.(complete := true);
    Advance(s, me, p, Some(dir), WriteManifest, p1, Some(d1));
    Advance(s, me, p1, Some(d1), WriteMarker, p2, Some(d2));
    Advance(s, me, p2, Some(d2), Link, q, Some(later));
  }

  /** A publisher that is through with a spool. */
  ghost predicate Through(
    src: Source, p: Publisher, dest: Destination, catalogue: Option<Bytes>, provenance: Option<Document>, root: string)
  {
    && p.dest == dest && p.stage.Published? && p.catalogue == catalogue.Some?
    && ManifestOf(p) == FinalManifest(src, catalogue, ClaimsFor(dest, provenance, root))
  }

  /**
    From every state, over any spool within the bounds, a new publication can run to its final link, with or
    without a catalogue. It leaves every file, byte for byte, under a manifest that was known beforehand,
    and touches nothing else.
   */
  lemma {:induction false} QuietPublicationFinishes(
    s: State, me: Process, dest: Destination, catalogue: Option<Bytes>, provenance: Option<Document>, root: string)
    returns (p: Publisher, dir: Directory)
    requires Within(s.src) && Roomy(s.src, catalogue) && me !in s.publishers && dest !in s.dests
    ensures Through(s.src, p, dest, catalogue, provenance, root)
    ensures dir == SealedDirectory(me, FinalFiles(s.src, catalogue),
                                   FinalManifest(s.src, catalogue, ClaimsFor(dest, provenance, root)))
    ensures Leads(s, Put(s, me, p, Some(dir)))
  {
    hide Leads, Within, Copied, FinalRecords, FinalFiles, Ids, Roomy;
    var p1, d1 := BeginsAndCopies(s, me, dest, catalogue.Some?, provenance, root);
    var p2, d2 := Catalogues(s, me, p1, d1, catalogue);
    var p3 := Checks(s, me, p2, d2, catalogue);
    p, dir := SealsIt(s, me, p3, d2, catalogue);
  }

  /**
    The exact condition, known before the call: such a publication passes the structural audit if and only
    if there is a file to publish and the manifest it will write is short enough to be read back.
   */
  lemma {:induction false} QuietPublicationIsAuditedIff(
    s: State, me: Process, dest: Destination, catalogue: Option<Bytes>, provenance: Option<Document>, root: string)
    returns (p: Publisher, dir: Directory)
    requires Within(s.src) && Roomy(s.src, catalogue) && me !in s.publishers && dest !in s.dests
    ensures Through(s.src, p, dest, catalogue, provenance, root) && Leads(s, Put(s, me, p, Some(dir)))
    ensures dir.owner == me && dir.complete && !dir.damaged && !dir.late
    ensures var manifest := FinalManifest(s.src, catalogue, ClaimsFor(dest, provenance, root));
            AuditAccepts(dir) <==> manifest.files != map[] && ManifestBytes(manifest) <= MAX_MANIFEST_BYTES
  {
    hide Leads, Within, Roomy, ManifestBytes, FinalRecords, FinalFiles;
    p, dir := QuietPublicationFinishes(s, me, dest, catalogue, provenance, root);
    FinalNames(s.src, catalogue);
    forall n | n in FinalRecords(s.src, catalogue) ensures Holds(dir, n, FinalRecords(s.src, catalogue)[n]) {
      RecordedIsHeld(s.src, catalogue, dir, n);
    }
  }
}
