/**
  One concrete run of the system: a spool with a single raw file is published twice and cleaned up,
  and the file is rewritten between the last look at its identity and the unlink. The rewritten file
  is removed although neither copy holds its content.
 */
module CleanupRace {
  import opened Wrappers
  import opened Manifests
  import opened Publication
  import opened SpoolCleanup
  import opened PublicationRuns

  const RAW: Name := "a.raw"
  const FIRST := Identity(0, [])
  const IDS: map<Name, Identity> := map[RAW := FIRST]
  const SPOOL := Source(map[RAW := 0], map[0 := FIRST], map[FIRST := [7]], 1)

  /** The manifests of the two copies: only the first has a catalogue. */
  const WORK := Manifest(map[RAW := RecordOf([7]), CATALOGUE := RecordOf([9])], IDS, ClaimsFor("work", None, "spool"))
  const ARCHIVE := Manifest(map[RAW := RecordOf([7])], IDS, ClaimsFor("archive", None, "spool"))

  lemma {:induction false} NamesDiffer()
    ensures RAW != CATALOGUE && RAW !in RESERVED && "work" != "archive"
  {
    assert RAW[1] != CATALOGUE[1] && |RAW| == 5 && "work"[0] != "archive"[0];
  }

  ghost predicate Reachable(s: State) {
    Leads(Init(SPOOL), s)
  }

  lemma {:induction false} Step(s: State, action: Action)
    requires Reachable(s) && Next(s, action).Some?
    ensures Reachable(Next(s, action).value)
  {
    OneMore(Init(SPOOL), s, action);
  }

  lemma {:induction false} SpoolIds()
    ensures Ids(SPOOL) == IDS && IDS.Keys == {RAW} && Raw(SPOOL) == {RAW} && |IDS| == 1
    ensures ContentOf(SPOOL, RAW) == [7]
  {
    NamesDiffer();
    hide RAW, CATALOGUE, RESERVED;
    assert Ids(SPOOL) == IDS;
    assert IDS.Keys == {RAW} && {RAW} - {CATALOGUE} == {RAW};
    assert |IDS| == |IDS.Keys|;
  }

  lemma {:induction false} SpoolIsWithin()
    ensures Within(SPOOL) && Roomy(SPOOL, Some([9])) && Roomy(SPOOL, None)
  {
    NamesDiffer();
    SpoolIds();
    hide RAW, CATALOGUE, RESERVED, Ids, Raw, ContentOf;
    assert {RAW} * RESERVED == {};
    assert |{RAW}| == 1;
  }

  lemma {:induction false} SpoolIsPublished()
    ensures FinalFiles(SPOOL, Some([9])) == map[RAW := [7], CATALOGUE := [9]]
    ensures FinalFiles(SPOOL, None) == map[RAW := [7]]
    ensures FinalManifest(SPOOL, Some([9]), ClaimsFor("work", None, "spool")) == WORK
    ensures FinalManifest(SPOOL, None, ClaimsFor("archive", None, "spool")) == ARCHIVE
  {
    NamesDiffer();
    SpoolIds();
    hide RESERVED, Ids, Raw, ContentOf, IDS;
    assert Contents(SPOOL, {RAW}) == map[RAW := [7]] && RecordsOf(SPOOL, {RAW}) == map[RAW := RecordOf([7])];
  }

  /** A short manifest: nothing in it is long. */
  ghost predicate Short(m: Manifest) {
    ManifestBytes(m) <= MAX_MANIFEST_BYTES
  }

  /** The spool is published twice, and nobody cleans up yet. */
  ghost predicate Twins(s: State) {
    && s.src == SPOOL && s.cleaners == map[] && s.removals == []
    && s.dests == map["work" := SealedDirectory(1, map[RAW := [7], CATALOGUE := [9]], WORK),
                      "archive" := SealedDirectory(2, map[RAW := [7]], ARCHIVE)]
    && 1 in s.publishers && s.publishers[1].stage.Published? && s.publishers[1].dest == "work"
    && ManifestOf(s.publishers[1]) == WORK
    && 2 in s.publishers && s.publishers[2].stage.Published? && s.publishers[2].dest == "archive"
    && ManifestOf(s.publishers[2]) == ARCHIVE
  }

  lemma {:induction false} TwinsAreReachable() returns (s: State)
    ensures Reachable(s) && Twins(s)
  {
    NamesDiffer();
    SpoolIsWithin();
    SpoolIsPublished();
    hide Leads, Within, Roomy, Raw, Ids, FinalFiles, FinalManifest, ManifestBytes, RESERVED, CATALOGUE;
    var s0 := Init(SPOOL);
    var p, d1 := QuietPublicationFinishes(s0, 1, "work", Some([9]), None, "spool");
    var s1 := Put(s0, 1, p, Some(d1));
    var q, d2 := QuietPublicationFinishes(s1, 2, "archive", None, None, "spool");
    s := Put(s1, 2, q, Some(d2));
    LeadsOn(s0, s1, s);
  }

  // ------------------------------------------------- both manifests can be read

  lemma {:induction false} TextIsShort(s: string)
    ensures TextWidth(s) <= 12 * |s| + 2
  {
    if s != [] {
      TextIsShort(s[..|s| - 1]);
    }
  }

  lemma {:induction false} EntriesAreNarrow(widths: map<string, nat>, most: nat)
    requires forall k :: k in widths ==> EntryWidth(k, widths[k]) <= most
    ensures EntriesWidth(widths) <= |widths| * most
    decreases |widths|
  {
    hide EntryWidth;
    if widths != map[] {
      var k := Any(widths.Keys);
      var rest := widths - {k};
      assert rest.Keys == widths.Keys - {k};
      assert |rest| == |rest.Keys| && |widths| == |widths.Keys|;
      EntriesAreNarrow(rest, most);
      assert |widths| * most == (|widths| - 1) * most + most;
    }
  }

  lemma {:induction false} FrameIsShort()
    ensures MANIFEST_FRAME <= 1000
  {
  }

  lemma {:induction false} FilesAreNarrow(files: map<Name, Record>)
    requires |files| <= 2 && forall n :: n in files ==> |n| <= 20 && files[n].bytes == 1
    ensures ObjectWidth(FilesWidths(files)) <= 2000
  {
    var widths := FilesWidths(files);
    forall n | n in widths ensures EntryWidth(n, widths[n]) <= 500 {
      TextIsShort(n);
    }
    EntriesAreNarrow(widths, 500);
    assert widths.Keys == files.Keys && |widths| == |widths.Keys| && |files| == |files.Keys|;
    hide EntriesWidth, EntryWidth, FilesWidths;
  }

  lemma {:induction false} IdentitiesAreNarrow()
    ensures ObjectWidth(IdentitiesWidths(IDS)) <= 2000
  {
    var widths := IdentitiesWidths(IDS);
    forall n | n in widths ensures EntryWidth(n, widths[n]) <= 500 {
      TextIsShort(n);
    }
    EntriesAreNarrow(widths, 500);
    assert widths.Keys == IDS.Keys == {RAW} && |widths| == |widths.Keys|;
    hide EntriesWidth, EntryWidth;
  }

  lemma {:induction false} PartsOf(m: Manifest)
    ensures ManifestBytes(m) <=
            MANIFEST_FRAME + 15 + TextWidth(m.claims.schema) + TextWidth(m.claims.sourceRoot)
            + TextWidth(m.claims.destinationRoot) + ProvenanceWidth(m.claims.provenance)
            + ObjectWidth(FilesWidths(m.files)) + ObjectWidth(IdentitiesWidths(m.identities))
  {
    hide MANIFEST_FRAME, ObjectWidth, TextWidth, FilesWidths, IdentitiesWidths, ProvenanceWidth;
  }

  lemma {:induction false} IsShort(m: Manifest)
    requires m.identities == IDS && m.claims.provenance.None?
    requires |m.files| <= 2 && forall n :: n in m.files ==> |n| <= 20 && m.files[n].bytes == 1
    requires |m.claims.schema| <= 100 && |m.claims.sourceRoot| <= 100 && |m.claims.destinationRoot| <= 100
    ensures Short(m)
  {
    hide MANIFEST_FRAME, ObjectWidth, TextWidth, IDS, FilesWidths, IdentitiesWidths, ManifestBytes;
    PartsOf(m);
    FrameIsShort();
    FilesAreNarrow(m.files);
    IdentitiesAreNarrow();
    TextIsShort(m.claims.schema);
    TextIsShort(m.claims.sourceRoot);
    TextIsShort(m.claims.destinationRoot);
  }

  lemma {:induction false} NamesAreShort()
    ensures |RAW| <= 20 && |CATALOGUE| <= 20 && |MANIFEST_SCHEMA| <= 100
  {
  }

  lemma {:induction false} WorkIsShort()
    ensures Short(WORK)
  {
    NamesAreShort();
    hide Short, IDS, RAW, CATALOGUE, MANIFEST_SCHEMA;
    assert WORK.files.Keys == {RAW, CATALOGUE} && |WORK.files| == |WORK.files.Keys|;
    IsShort(WORK);
  }

  lemma {:induction false} ArchiveIsShort()
    ensures Short(ARCHIVE)
  {
    NamesAreShort();
    hide Short, IDS, RAW, CATALOGUE, MANIFEST_SCHEMA;
    assert ARCHIVE.files.Keys == {RAW} && |ARCHIVE.files| == |ARCHIVE.files.Keys|;
    IsShort(ARCHIVE);
  }

  // ------------------------------------------------------------------ cleaning

  function Cleaning(phase: Phase, original: map<Name, Identity>, todo: set<Name>): Cleaner {
    Cleaner(Receipt("work", WORK), Receipt("archive", ARCHIVE), phase, original, todo, "", false)
  }

  function During(s: State, c: Cleaner): State {
    s.(cleaners := map[3 := c])
  }

  lemma {:induction false} Cleans(s: State, c: Cleaner, step: CleanStep, later: Cleaner)
    requires Twins(s) && Reachable(During(s, c))
    requires CleanNext(SPOOL, s.dests, c, step) == Some(Cleaned(later, SPOOL, None))
    ensures Reachable(During(s, later))
  {
    hide Reachable, CleanNext, Twins, WORK, ARCHIVE, IDS;
    TwinsSource(s);
    Step(During(s, c), Clean(3, step));
    assert Notice(SPOOL, SPOOL, map[3 := c])[3 := later] == map[3 := later];
  }

  lemma {:induction false} TwinsSource(s: State)
    requires Twins(s)
    ensures s.src == SPOOL
  {
  }

  lemma {:induction false} Started(s: State)
    requires Twins(s)
    ensures Next(s, StartClean(3, 1, 2)) == Some(During(s, Cleaning(Meeting, map[], {})))
  {
    NamesDiffer();
    hide SealedDirectory, WORK, ARCHIVE;
    assert map[][3 := Cleaning(Meeting, map[], {})] == map[3 := Cleaning(Meeting, map[], {})];
  }

  lemma {:induction false} WorkVerifies(s: State)
    requires Twins(s)
    ensures Verified(s.dests, Receipt("work", WORK), IDS)
  {
    NamesDiffer();
    WorkIsShort();
    hide ManifestBytes, RESERVED, RAW, CATALOGUE, ClaimsFor;
    assert WORK.files.Keys - {CATALOGUE} == {RAW} == IDS.Keys - {CATALOGUE};
  }

  lemma {:induction false} ArchiveVerifies(s: State)
    requires Twins(s)
    ensures Verified(s.dests, Receipt("archive", ARCHIVE), IDS)
  {
    NamesDiffer();
    ArchiveIsShort();
    hide ManifestBytes, RESERVED, RAW, CATALOGUE, ClaimsFor;
    assert ARCHIVE.files.Keys - {CATALOGUE} == {RAW} == IDS.Keys - {CATALOGUE};
  }

  lemma {:induction false} CheckedIsReachable() returns (s: State)
    ensures Twins(s) && Reachable(During(s, Cleaning(CheckingFirst, IDS, {})))
  {
    hide Reachable, Next, Twins;
    s := TwinsAreReachable();
    Started(s);
    Step(s, StartClean(3, 1, 2));
    var c0 := Cleaning(Meeting, map[], {});
    var c1 := Cleaning(Meeting, IDS, {});
    assert map[][RAW := FIRST] == IDS;
    Cleans(s, c0, Meet(RAW), c1);
    Cleans(s, c1, EndMeeting, Cleaning(CheckingFirst, IDS, {}));
  }

  lemma {:induction false} ObservedIsReachable() returns (s: State)
    ensures Twins(s) && Reachable(During(s, Cleaning(Observed, IDS, {RAW}).(name := RAW)))
  {
    hide Reachable, Next, Twins, Verified;
    s := CheckedIsReachable();
    WorkVerifies(s);
    ArchiveVerifies(s);
    Cleans(s, Cleaning(CheckingFirst, IDS, {}), Check, Cleaning(CheckingSecond, IDS, {}));
    assert IDS.Keys == {RAW} && CATALOGUE in WORK.files;
    Cleans(s, Cleaning(CheckingSecond, IDS, {}), Check, Cleaning(Removing, IDS, {RAW}));
    Cleans(s, Cleaning(Removing, IDS, {RAW}), Observe(RAW), Cleaning(Observed, IDS, {RAW}).(name := RAW));
  }

  lemma {:induction false} NoEightIn(files: map<Name, Bytes>)
    requires files == map[RAW := [7]] || files == map[RAW := [7], CATALOGUE := [9]]
    ensures [8] !in files.Values
  {
    hide RAW, CATALOGUE;
    assert [7][0] != [8][0] && [9][0] != [8][0];
  }

  lemma {:induction false} NothingHoldsEight(s: State)
    requires Twins(s)
    ensures s.removals == [] && s.src == SPOOL
    ensures forall d :: d in s.dests ==> [8] !in s.dests[d].files.Values
  {
    hide WORK, ARCHIVE, RAW, CATALOGUE, SPOOL, ManifestBytes;
    forall d | d in s.dests ensures [8] !in s.dests[d].files.Values {
      NoEightIn(s.dests[d].files);
    }
  }

  /** The only file ever unlinked was not the snapshotted one, and no destination holds its content. */
  ghost predicate LostContent(s: State) {
    && |s.removals| == 1
    && s.removals[0].removed != s.removals[0].expected
    && s.removals[0].removed in s.src.content
    && forall d :: d in s.dests ==> s.src.content[s.removals[0].removed] !in s.dests[d].files.Values
  }

  /**
    The cleanup's own identity check does not cover the unlink: here is a reachable state in which it has
    removed a file that no longer was the snapshotted one, and whose content no destination holds.
   */
  lemma {:induction false} ChangedFileIsUnlinked()
    ensures exists s :: Reachable(s) && LostContent(s)
  {
    hide Reachable, Twins, WORK, ARCHIVE;
    var s := ObservedIsReachable();
    NothingHoldsEight(s);
    var c := Cleaning(Observed, IDS, {RAW}).(name := RAW);
    var s0 := During(s, c);
    Step(s0, Env(Overwrite(0, [8], [])));
    var s1 := Next(s0, Env(Overwrite(0, [8], []))).value;
    assert s1.cleaners[3] == c.(disturbed := true);
    Step(s1, Clean(3, Unlink));
    var s2 := Next(s1, Clean(3, Unlink)).value;
    assert s2.removals == [Removal(RAW, FIRST, Identity(1, []), true, "work", "archive")];
    assert LostContent(s2);
  }
}
