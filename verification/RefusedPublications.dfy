/**
  The two kinds of publication that finish undisturbed and still fail their audit: of nothing at all, and of
  so many files that the manifest is too long to be read back.
 */
module RefusedPublications {
  import opened Wrappers
  import opened Manifests
  import opened Publication
  import opened SpoolCleanup
  import opened PublicationRuns

  /** Published with nobody interfering, and refused by the audit all the same. */
  ghost predicate PublishedInVain(s: State, me: Process, dest: Destination) {
    && me in s.publishers && s.publishers[me].dest == dest && s.publishers[me].stage.Published?
    && dest in s.dests && s.dests[dest].owner == me && !s.dests[dest].damaged && !s.dests[dest].late
    && !AuditAccepts(s.dests[dest])
  }

  /** A run can go on to such a publication. */
  ghost predicate CanPublishInVain(s: State, me: Process, dest: Destination) {
    exists more :: Run(s, more).Some? && PublishedInVain(Run(s, more).value, me, dest)
  }

  // ------------------------------------------------------------------ nothing

  /** Wherever a run has got to: if the spool is empty there, it can go on to such a publication. */
  lemma {:induction false} EmptyPublicationFailsAudit(
    src: Source, actions: seq<Action>, me: Process, dest: Destination)
    requires Run(Init(src), actions).Some?
    requires var s := Run(Init(src), actions).value; s.src.names == map[] && me !in s.publishers && dest !in s.dests
    ensures CanPublishInVain(Run(Init(src), actions).value, me, dest)
  {
    hide Run, PublishedInVain, FinalRecords, ManifestBytes, Leads;
    var s := Run(Init(src), actions).value;
    EmptyIsWithin(s.src);
    var p, dir := QuietPublicationIsAuditedIff(s, me, dest, None, None, "spool");
    InVain(s, me, dest, p, dir);
  }

  lemma {:induction false} EmptyIsWithin(src: Source)
    requires src.names == map[]
    ensures Within(src) && FinalRecords(src, None) == map[]
  {
    assert Ids(src) == map[] && Ids(src).Keys == {};
    assert Raw(src) == {};
  }

  lemma {:induction false} InVain(s: State, me: Process, dest: Destination, p: Publisher, dir: Directory)
    requires p.dest == dest && p.stage.Published? && Leads(s, Put(s, me, p, Some(dir)))
    requires dir.owner == me && !dir.damaged && !dir.late && !AuditAccepts(dir)
    ensures CanPublishInVain(s, me, dest)
  {
    hide AuditAccepts;
    var t := Put(s, me, p, Some(dir));
    assert PublishedInVain(t, me, dest);
    hide PublishedInVain;
    var more :| Run(s, more) == Some(t);
  }

  const EMPTY_SPOOL := Source(map[], map[], map[], 0)

  /** In particular from the start, over a spool that never held a file. */
  lemma {:induction false} EmptySpoolFailsAudit()
    ensures SourceOk(EMPTY_SPOOL) && CanPublishInVain(Init(EMPTY_SPOOL), 1, "work")
  {
    assert Run(Init(EMPTY_SPOOL), []) == Some(Init(EMPTY_SPOOL));
    hide CanPublishInVain;
    EmptyPublicationFailsAudit(EMPTY_SPOOL, [], 1, "work");
  }

  // ----------------------------------------------------------------- too much

  /** Every entry has at least this width. */
  lemma {:induction false} EntriesAreWide(widths: map<string, nat>, least: nat)
    requires forall k :: k in widths ==> EntryWidth(k, widths[k]) >= least
    ensures EntriesWidth(widths) >= |widths| * least
    decreases |widths|
  {
    hide EntryWidth;
    if widths != map[] {
      var k := Any(widths.Keys);
      var rest := widths - {k};
      assert rest.Keys == widths.Keys - {k};
      assert |rest| == |rest.Keys| && |widths| == |widths.Keys|;
      EntriesAreWide(rest, least);
      assert |widths| * least == (|widths| - 1) * least + least;
    }
  }

  lemma {:induction false} TextIsAsLong(s: string)
    ensures TextWidth(s) >= |s| + 2
  {
    if s != [] {
      TextIsAsLong(s[..|s| - 1]);
    }
  }

  lemma {:induction false} ListIsAsLong(numbers: seq<int>)
    ensures ListWidth(numbers) >= 9 * |numbers|
  {
    if numbers != [] {
      ListIsAsLong(numbers[..|numbers| - 1]);
    }
  }

  lemma {:induction false} FilesTakeRoom(files: map<Name, Record>, count: nat, length: nat)
    requires |files| >= count && forall n :: n in files ==> |n| >= length
    ensures ObjectWidth(FilesWidths(files)) >= count * (length + 118)
  {
    var widths := FilesWidths(files);
    FilesAreWide(files, length);
    EntriesAreWide(widths, length + 118);
    assert widths.Keys == files.Keys && |widths| == |widths.Keys| && |files| == |files.Keys|;
    Times(count, |widths|, length + 118);
    hide EntriesWidth, EntryWidth, FilesWidths;
  }

  lemma {:induction false} IdentitiesTakeRoom(identities: map<Name, Identity>, count: nat, length: nat)
    requires |identities| >= count
    requires forall n :: n in identities ==> |n| >= length && |identities[n].stat| == 6
    ensures ObjectWidth(IdentitiesWidths(identities)) >= count * (length + 70)
  {
    var widths := IdentitiesWidths(identities);
    IdentitiesAreWide(identities, length);
    EntriesAreWide(widths, length + 70);
    assert widths.Keys == identities.Keys && |widths| == |widths.Keys| && |identities| == |identities.Keys|;
    Times(count, |widths|, length + 70);
    hide EntriesWidth, EntryWidth, IdentitiesWidths;
  }

  /** A manifest of so many names of at least a length. */
  lemma {:induction false} ManifestIsWide(m: Manifest, count: nat, length: nat)
    requires |m.files| >= count && |m.identities| >= count
    requires forall n :: n in m.files ==> |n| >= length
    requires forall n :: n in m.identities ==> |n| >= length && |m.identities[n].stat| == 6
    ensures ManifestBytes(m) >= count * (length + 118) + count * (length + 70)
  {
    FilesTakeRoom(m.files, count, length);
    IdentitiesTakeRoom(m.identities, count, length);
    hide ObjectWidth, TextWidth, ProvenanceWidth, FilesWidths, IdentitiesWidths, MANIFEST_FRAME;
  }

  lemma {:induction false} Times(a: nat, b: nat, c: nat)
    requires a <= b
    ensures a * c <= b * c
  {
  }

  lemma {:induction false} FilesAreWide(files: map<Name, Record>, length: nat)
    requires forall n :: n in files ==> |n| >= length
    ensures forall n :: n in FilesWidths(files) ==> EntryWidth(n, FilesWidths(files)[n]) >= length + 118
  {
    forall n | n in files ensures EntryWidth(n, FilesWidths(files)[n]) >= length + 118 {
      TextIsAsLong(n);
    }
  }

  lemma {:induction false} IdentitiesAreWide(identities: map<Name, Identity>, length: nat)
    requires forall n :: n in identities ==> |n| >= length && |identities[n].stat| == 6
    ensures forall n :: n in IdentitiesWidths(identities) ==>
      EntryWidth(n, IdentitiesWidths(identities)[n]) >= length + 70
  {
    forall n | n in identities ensures EntryWidth(n, IdentitiesWidths(identities)[n]) >= length + 70 {
      TextIsAsLong(n);
      ListIsAsLong(identities[n].stat);
    }
  }

  // a spool of as many files as may be published, with names of eighty characters

  const RADIX := 250

  function Figure(d: nat): char
    requires d < RADIX
  {
    (0x100 + d) as char
  }

  function PathOf(i: nat): (path: string)
    requires i < RADIX * RADIX
    ensures |path| == 80
  {
    seq(78, _ => 'a') + [Figure(i / RADIX), Figure(i % RADIX)]
  }

  function IndexOf(path: string): int {
    if |path| != 80 then 0 else RADIX * (path[78] as int - 0x100) + (path[79] as int - 0x100)
  }

  lemma {:induction false} IndexIsFound(i: nat)
    requires i < RADIX * RADIX
    ensures IndexOf(PathOf(i)) == i
  {
    assert PathOf(i)[78] == Figure(i / RADIX) && PathOf(i)[79] == Figure(i % RADIX);
  }

  function Paths(n: nat): set<string>
    requires n <= RADIX * RADIX
  {
    set i | 0 <= i < n :: PathOf(i)
  }

  lemma {:induction false} PathsAreCounted(n: nat)
    requires n <= RADIX * RADIX
    ensures |Paths(n)| == n
  {
    hide PathOf, IndexOf;
    if n > 0 {
      PathsAreCounted(n - 1);
      forall i | 0 <= i < n - 1 ensures PathOf(i) != PathOf(n - 1) {
        IndexIsFound(i);
        IndexIsFound(n - 1);
      }
      assert Paths(n) == Paths(n - 1) + {PathOf(n - 1)};
      assert PathOf(n - 1) !in Paths(n - 1);
    } else {
      assert Paths(n) == {};
    }
  }

  function StatOf(i: nat): Identity {
    Identity(i, [0, i, 0, 0, 0, 0])
  }

  function Stats(n: nat): set<Identity> {
    set i | 0 <= i < n :: StatOf(i)
  }

  function NamesOf(n: nat): map<Name, Inode>
    requires n <= RADIX * RADIX
  {
    map path | path in Paths(n) && IndexOf(path) >= 0 :: IndexOf(path)
  }

  /** Empty files, one for each path. */
  function FullSpool(): Source {
    Source(
      NamesOf(MAX_FILES), map i | 0 <= i < MAX_FILES :: StatOf(i), map id | id in Stats(MAX_FILES) :: [], MAX_FILES)
  }

  lemma {:induction false} PathsAreNamed(n: nat)
    requires n <= RADIX * RADIX
    ensures NamesOf(n).Keys == Paths(n)
    ensures forall path :: path in Paths(n) ==> |path| == 80 && NamesOf(n)[path] < n
  {
    hide PathOf, IndexOf;
    forall path | path in Paths(n) ensures |path| == 80 && 0 <= IndexOf(path) < n {
      var i :| 0 <= i < n && PathOf(i) == path;
      IndexIsFound(i);
    }
  }

  lemma {:induction false} FullSpoolIsResolved()
    ensures SourceOk(FullSpool()) && Ids(FullSpool()).Keys == Paths(MAX_FILES)
    ensures forall path :: path in Paths(MAX_FILES) ==> |path| == 80
    ensures forall path :: path in Ids(FullSpool()) ==>
      |Ids(FullSpool())[path].stat| == 6 && ContentOf(FullSpool(), path) == []
    ensures forall n :: n in FullSpool().names ==>
      FullSpool().names[n] in FullSpool().inodes && FullSpool().inodes[FullSpool().names[n]] in FullSpool().content
  {
    PathsAreNamed(MAX_FILES);
    hide PathOf, IndexOf, Paths, NamesOf;
  }

  lemma {:induction false} ReservedAreShort()
    ensures |CATALOGUE| != 80 && forall n :: n in RESERVED ==> |n| != 80
  {
    forall n | n in RESERVED ensures |n| != 80 {
    }
  }

  lemma {:induction false} AsManyIds(ids: map<Name, Identity>)
    ensures |ids| == |ids.Keys|
  {
  }

  lemma {:induction false} FullSpoolIsOk()
    ensures SourceOk(FullSpool()) && Within(FullSpool())
    ensures Ids(FullSpool()).Keys == Raw(FullSpool()) && |Ids(FullSpool())| == MAX_FILES
    ensures forall path :: path in Ids(FullSpool()) ==> |path| == 80 && |Ids(FullSpool())[path].stat| == 6
  {
    hide FullSpool, Paths, Ids, ContentOf, RESERVED, CATALOGUE, SourceOk;
    FullSpoolIsResolved();
    PathsAreCounted(MAX_FILES);
    AsManyIds(Ids(FullSpool()));
    ReservedAreShort();
    assert Ids(FullSpool()).Keys * RESERVED == {};
  }

  /** Published in full, and its manifest is longer than what the audit reads. */
  lemma {:induction false} FullSpoolFailsAudit()
    ensures SourceOk(FullSpool()) && CanPublishInVain(Init(FullSpool()), 1, "work")
    ensures |Ids(FullSpool())| == MAX_FILES
  {
    FullSpoolIsOk();
    hide FullSpool, Paths, CanPublishInVain, Within, Leads;
    var src := FullSpool();
    var p, dir := QuietPublicationIsAuditedIff(Init(src), 1, "work", None, None, "spool");
    var manifest := FinalManifest(src, None, ClaimsFor("work", None, "spool"));
    FinalNames(src, None);
    assert |manifest.files| == |manifest.files.Keys|;
    ManifestIsWide(manifest, MAX_FILES, 80);
    InVain(Init(src), 1, "work", p, dir);
  }
}
