/**
  Publication of closed collector chunks and cleanup of their spool, as small steps that any number
  of publishers, cleaners and the environment take in any order. A crash is a process that takes no
  further step, so every reachable state is also a state a crash can leave behind.

  A file identity stands for one content: changing a file, in place or by replacing it, gives it an
  identity that was never seen before. The digest is injective. A destination may be damaged until
  it is sealed.
 */
module Publication {
  import opened Wrappers
  import opened Manifests

  type Inode = nat
  type Destination = string
  type Process = nat

  const RESERVED: set<Name> := {"COMPLETE.json", ".COMPLETE.publishing", "publication-manifest.json"}
  const MAX_FILE_BYTES := 536870912
  const MAX_FILES := 50000

  // ----------------------------------------------------------------- source

  /** The spool: names, the inode each stands for, and the content of every identity there ever was. */
  datatype Source = Source(
    names: map<Name, Inode>, inodes: map<Inode, Identity>, content: map<Identity, Bytes>, next: nat)

  predicate SourceOk(src: Source) {
    && (forall n :: n in src.names ==> src.names[n] in src.inodes)
    && (forall i :: i in src.inodes ==> src.inodes[i] in src.content)
    && (forall i :: i in src.inodes ==> i < src.next)
    && (forall k :: k in src.content ==> k.serial < src.next)
  }

  function Resolve(src: Source, name: Name): Option<Identity> {
    if name in src.names && src.names[name] in src.inodes then Some(src.inodes[src.names[name]]) else None
  }

  /** Changes to the spool; `stat` is what the file system then says of the file. */
  datatype Mutation =
    | Overwrite(inode: Inode, bytes: Bytes, stat: seq<int>)
    | Create(name: Name, bytes: Bytes, stat: seq<int>)
    | Delete(name: Name)

  function Mutate(src: Source, m: Mutation): Source {
    match m
    case Overwrite(i, bytes, stat) =>
      if i !in src.inodes then src
      else
        var id := Identity(src.next, stat);
        Source(src.names, src.inodes[i := id], src.content[id := bytes], src.next + 1)
    case Create(n, bytes, stat) =>
      var id := Identity(src.next, stat);
      Source(src.names[n := src.next], src.inodes[src.next := id], src.content[id := bytes], src.next + 1)
    case Delete(n) => src.(names := src.names - {n})
  }

  /** How the spool may look later: identities keep their content and are never given out again. */
  ghost predicate Evolves(src: Source, later: Source) {
    && (forall k :: k in src.content ==> k in later.content && later.content[k] == src.content[k])
    && (forall i :: i in src.inodes ==>
          i in later.inodes && (later.inodes[i] == src.inodes[i] || later.inodes[i] !in src.content))
  }

  lemma {:induction false} MutationEvolves(src: Source, m: Mutation)
    requires SourceOk(src)
    ensures SourceOk(Mutate(src, m)) && Evolves(src, Mutate(src, m))
    ensures forall n :: Resolve(Mutate(src, m), n) == Resolve(src, n)
                     || Resolve(Mutate(src, m), n) == None
                     || (Resolve(Mutate(src, m), n).Some? && Resolve(Mutate(src, m), n).value !in src.content)
  {
  }

  // ----------------------------------------------------------- destinations

  /** The content of the completion marker; a manifest stands for its own digest. */
  datatype Seal = Seal(manifest: Manifest)

  /**
    A reserved directory: its files, the manifest and its length, the private marker and whether that marker is
    also linked as the public one. `damaged` remembers that the environment has been at it, `late` that it
    has been since the publisher began to read its copies back.
   */
  datatype Directory = Directory(
    owner: Process, files: map<Name, Bytes>, manifest: Option<Manifest>, manifestBytes: nat, marker: Option<Seal>,
    complete: bool, damaged: bool, late: bool)

  predicate Holds(dir: Directory, name: Name, record: Record) {
    name in dir.files && RecordOf(dir.files[name]) == record
  }

  /** The structural part of the offline audit of one copy. */
  predicate AuditAccepts(dir: Directory) {
    && dir.complete && dir.marker.Some? && dir.manifest.Some?
    && dir.manifestBytes <= MAX_MANIFEST_BYTES
    && dir.marker.value.manifest == dir.manifest.value
    && dir.manifest.value.files != map[]
    && dir.files.Keys == dir.manifest.value.files.Keys
    && forall n :: n in dir.manifest.value.files ==> Holds(dir, n, dir.manifest.value.files[n])
  }

  /** The audit of a copy, file by file. */
  method AuditCopy(dir: Directory) returns (accepted: bool)
    ensures accepted <==> AuditAccepts(dir)
  {
    if !(dir.complete && dir.marker.Some? && dir.manifest.Some?) || dir.manifestBytes > MAX_MANIFEST_BYTES {
      return false;
    }
    var records := dir.manifest.value.files;
    if dir.marker.value.manifest != dir.manifest.value || records == map[] || dir.files.Keys != records.Keys {
      return false;
    }
    var left := records.Keys;
    while left != {}
      invariant left <= records.Keys
      invariant forall n :: n in records && n !in left ==> Holds(dir, n, records[n])
      decreases left
    {
      var n :| n in left;
      if !Holds(dir, n, records[n]) {
        return false;
      }
      left := left - {n};
    }
    return true;
  }

  // ---------------------------------------------------- the rest of the audit

  const HEALTH: Name := "capture-health.json"
  const PLAN: Name := "collector-plan.json"
  const MANIFEST_SCHEMA := "public-collector-closed-chunk-v1"
  const MAX_HEALTH_BYTES := 1048576

  datatype Plan = Plan(sourceCommit: string, imageDigest: string, chunkSeconds: int, chunks: int)

  /** What the audit holds a copy against. The spool path of a chunk is derived from its campaign and run. */
  datatype Expectation = Expectation(plan: Plan, lane: string, runId: string, sourceRoot: string)

  function Provenance(e: Expectation): Document {
    map[
      "schema" := Text("public-collector-run-provenance-v1"),
      "run_id" := Text(e.runId),
      "lane" := Text(e.lane),
      "source_commit" := Text(e.plan.sourceCommit),
      "image_digest" := Text(e.plan.imageDigest),
      "chunk_seconds" := Number(e.plan.chunkSeconds),
      "chunks" := Number(e.plan.chunks),
      "signing" := Truth(false),
      "authenticated_feeds" := Truth(false),
      "storage_profile" := Text("truenas-zfs")]
  }

  function Reduced(v: Value): Value {
    if v.Truth? then Number(if v.truth then 1 else 0) else v
  }

  predicate Gives(doc: Document, key: string, value: Value) {
    key in doc && Reduced(doc[key]) == Reduced(value)
  }

  predicate ClaimsOk(claims: Claims, root: string, e: Expectation) {
    && claims.provenance.Some?
    && (forall key :: key in Provenance(e) ==> Gives(claims.provenance.value, key, Provenance(e)[key]))
    && claims.schema == MANIFEST_SCHEMA && claims.sourceRoot == e.sourceRoot
    && claims.destinationRoot == root && claims.preserved
  }

  /** The terminal health of the capture, decoded from its file. */
  predicate HealthOk(health: Option<Bytes>, e: Expectation, decode: Bytes -> Option<Document>) {
    && health.Some? && |health.value| <= MAX_HEALTH_BYTES && decode(health.value).Some?
    && var native := decode(health.value).value;
       && Gives(native, "status", Text("COMPLETED"))
       && "credentialless" in native && native["credentialless"] == Truth(true)
       && Gives(native, "run_id", Text(e.runId))
       && Gives(native, "duration_seconds", Number(e.plan.chunkSeconds))
       && "integrity_events" in native && native["integrity_events"] == Number(0)
  }

  /** The window plan is the one the provenance names. */
  predicate PlanOk(plan: Option<Bytes>, claims: Claims) {
    && plan.Some? && claims.provenance.Some?
    && Gives(claims.provenance.value, "window_plan_sha256", Hash(Sha256(plan.value)))
  }

  function FileIn(files: map<Name, Bytes>, name: Name): Option<Bytes> {
    if name in files then Some(files[name]) else None
  }

  /** The whole audit of one copy at a path. */
  predicate CopyAccepted(root: string, dir: Directory, e: Expectation, decode: Bytes -> Option<Document>) {
    && AuditAccepts(dir)
    && ClaimsOk(dir.manifest.value.claims, root, e)
    && HealthOk(FileIn(dir.files, HEALTH), e, decode)
    && PlanOk(FileIn(dir.files, PLAN), dir.manifest.value.claims)
  }

  method CheckProvenance(doc: Document, wanted: Document) returns (ok: bool)
    ensures ok <==> forall key :: key in wanted ==> Gives(doc, key, wanted[key])
  {
    var left := wanted.Keys;
    while left != {}
      invariant left <= wanted.Keys
      invariant forall key :: key in wanted && key !in left ==> Gives(doc, key, wanted[key])
      decreases left
    {
      var key :| key in left;
      if !Gives(doc, key, wanted[key]) {
        return false;
      }
      left := left - {key};
    }
    return true;
  }

  method SealedCopy(root: string, dir: Directory, e: Expectation, decode: Bytes -> Option<Document>)
    returns (accepted: bool)
    ensures accepted <==> CopyAccepted(root, dir, e, decode)
  {
    hide AuditAccepts, HealthOk, PlanOk, Gives;
    var structure := AuditCopy(dir);
    if !structure {
      return false;
    }
    AuditedHasManifest(dir);
    if dir.manifest.value.claims.provenance.None? {
      return false;
    }
    var claims := dir.manifest.value.claims;
    var provenance := CheckProvenance(claims.provenance.value, Provenance(e));
    if !provenance || claims.schema != MANIFEST_SCHEMA || claims.sourceRoot != e.sourceRoot
       || claims.destinationRoot != root || !claims.preserved
    {
      return false;
    }
    accepted := HealthOk(FileIn(dir.files, HEALTH), e, decode) && PlanOk(FileIn(dir.files, PLAN), claims);
  }

  lemma {:induction false} AuditedHasManifest(dir: Directory)
    requires AuditAccepts(dir)
    ensures dir.manifest.Some?
  {
  }

  // -------------------------------------------------------------- publisher

  datatype Stage =
    | FirstWalk | Copies | Opened | Copying | SecondWalk | Cataloguing | Verifying | Inventory | LastWalk
    | WritingManifest | WritingMarker | Linking | Published | Failed

  datatype Publisher = Publisher(
    dest: Destination, catalogue: bool, claims: Claims, stage: Stage,
    original: map<Name, Identity>,   // the snapshot everything is held against
    seen: map<Name, Identity>,       // the walk in progress
    todo: set<Name>,                 // still to copy
    records: map<Name, Record>,
    name: Name, fd: Inode, copied: Bytes,
    unverified: set<Name>)

  datatype PublishStep =
    | See(name: Name) | EndWalk
    | Open(name: Name) | CheckOpened | CopyBlock(size: nat) | FinishCopy | EndCopies
    | WriteCatalogue(bytes: Bytes) | VerifyOne(name: Name) | EndVerify | CheckInventory
    | WriteManifest | WriteMarker | Link | Fail

  /** The publisher after a step and the directory it works on. */
  datatype After = After(p: Publisher, dir: Directory)

  /** What a publication says of its origin. */
  function ClaimsFor(dest: Destination, provenance: Option<Document>, sourceRoot: string): Claims {
    Claims(MANIFEST_SCHEMA, provenance, sourceRoot, dest, true)
  }

  predicate IsCopyStep(step: PublishStep) {
    step.Open? || step.CheckOpened? || step.CopyBlock? || step.FinishCopy? || step.EndCopies?
  }

  function ManifestOf(p: Publisher): Manifest {
    Manifest(p.records, p.original, p.claims)
  }

  function Broken(p: Publisher): Publisher {
    p.(stage := Failed)
  }

  predicate Walking(p: Publisher) {
    p.stage.FirstWalk? || p.stage.SecondWalk? || p.stage.LastWalk?
  }

  predicate Oversized(bytes: Bytes) {
    |bytes| > MAX_FILE_BYTES
  }

  /** The walk over the source meets one file; None when that is not what the publisher does next. */
  function SeeNext(src: Source, p: Publisher, n: Name): Option<Publisher> {
    if !Walking(p) || Resolve(src, n).None? || Resolve(src, n).value !in src.content then None
    else
      var id := Resolve(src, n).value;
      var seen := p.seen[n := id];
      Some(if Oversized(src.content[id]) || |seen| > MAX_FILES then Broken(p) else p.(seen := seen))
  }

  /** The first walk is over: the snapshot is taken and the destination reserved. */
  function ReserveNext(me: Process, disk: Option<Directory>, p: Publisher): (Publisher, Option<Directory>) {
    if p.seen.Keys * RESERVED != {} || disk.Some? then (Broken(p), disk)
    else
      (p.(stage := Copies, original := p.seen, seen := map[], todo := p.seen.Keys - {CATALOGUE}, records := map[]),
       Some(Directory(me, map[], None, 0, None, false, false, false)))
  }

  /** A later walk is over: the source must still look as it did. */
  function CompareNext(p: Publisher): Publisher {
    if p.seen != p.original then Broken(p)
    else if p.stage.LastWalk? then p.(stage := WritingManifest)
    else if p.catalogue then p.(stage := Cataloguing, seen := map[])
    else p.(stage := Verifying, seen := map[], unverified := p.records.Keys)
  }

  function OpenNext(src: Source, dir: Directory, p: Publisher, n: Name): Option<After> {
    if !p.stage.Copies? || n !in p.todo then None
    else if n !in src.names || src.names[n] !in src.inodes || n in dir.files then Some(After(Broken(p), dir))
    else Some(After(p.(stage := Opened, name := n, fd := src.names[n], copied := []),
                    dir.(files := dir.files[n := []])))
  }

  function CheckOpenedNext(src: Source, dir: Directory, p: Publisher): Option<After> {
    if !p.stage.Opened? || p.fd !in src.inodes || p.name !in p.original then None
    else if src.inodes[p.fd] != p.original[p.name] then Some(After(Broken(p), dir))
    else Some(After(p.(stage := Copying), dir))
  }

  /** Read the next `k` bytes of whatever the open file holds now and append them to the copy. */
  function CopyBlockNext(src: Source, dir: Directory, p: Publisher, k: nat): Option<After> {
    if !p.stage.Copying? || p.fd !in src.inodes || src.inodes[p.fd] !in src.content then None
    else
      var current, at := src.content[src.inodes[p.fd]], |p.copied|;
      if !(0 < k && at + k <= |current|) then None
      else if at + k > MAX_FILE_BYTES then Some(After(Broken(p), dir))
      else
        var written := if p.name in dir.files then dir.files[p.name] else [];
        Some(After(p.(copied := p.copied + current[at..at + k]),
                   dir.(files := dir.files[p.name := written + current[at..at + k]])))
  }

  /** End of file: size, identity and readback are compared and the record is made. */
  function FinishCopyNext(src: Source, dir: Directory, p: Publisher): Option<After> {
    if !p.stage.Copying? || p.fd !in src.inodes || src.inodes[p.fd] !in src.content || p.name !in p.original
       || p.original[p.name] !in src.content
    then None
    else if |p.copied| < |src.content[src.inodes[p.fd]]| then None
    else if |p.copied| != |src.content[p.original[p.name]]| || src.inodes[p.fd] != p.original[p.name]
            || (p.name in dir.files && dir.files[p.name] != p.copied)
    then Some(After(Broken(p), dir))
    else Some(After(
      p.(stage := Copies, todo := p.todo - {p.name}, records := p.records[p.name := RecordOf(p.copied)]), dir))
  }

  function CopyNext(src: Source, dir: Directory, p: Publisher, step: PublishStep): Option<After> {
    match step
    case Open(n) => OpenNext(src, dir, p, n)
    case CheckOpened => CheckOpenedNext(src, dir, p)
    case CopyBlock(k) => CopyBlockNext(src, dir, p, k)
    case FinishCopy => FinishCopyNext(src, dir, p)
    case EndCopies =>
      if !p.stage.Copies? || p.todo != {} then None else Some(After(p.(stage := SecondWalk, seen := map[]), dir))
    case _ => None
  }

  function WriteCatalogueNext(dir: Directory, p: Publisher, bytes: Bytes): Option<After> {
    if !p.stage.Cataloguing? then None
    else if Oversized(bytes) then Some(After(Broken(p), dir.(files := dir.files[CATALOGUE := bytes])))
    else
      var records := p.records[CATALOGUE := RecordOf(bytes)];
      Some(After(p.(stage := Verifying, records := records, unverified := records.Keys),
                 dir.(files := dir.files[CATALOGUE := bytes], late := false)))
  }

  function VerifyOneNext(dir: Directory, p: Publisher, n: Name): Option<After> {
    if !p.stage.Verifying? || n !in p.unverified || n !in p.records then None
    else if !Holds(dir, n, p.records[n]) then Some(After(Broken(p), dir))
    else Some(After(p.(unverified := p.unverified - {n}), dir))
  }

  function EndVerifyNext(dir: Directory, p: Publisher): Option<After> {
    if !p.stage.Verifying? || p.unverified != {} then None else Some(After(p.(stage := Inventory), dir))
  }

  /** The inventory of the destination is a snapshot too, with the same bounds. */
  function CheckInventoryNext(dir: Directory, p: Publisher): Option<After> {
    if !p.stage.Inventory? then None
    else if |dir.files| > MAX_FILES || (exists n :: n in dir.files && Oversized(dir.files[n]))
            || dir.files.Keys != p.records.Keys
    then Some(After(Broken(p), dir))
    else Some(After(p.(stage := LastWalk, seen := map[]), dir))
  }

  /** The manifest is written whatever its length. */
  ghost function WriteManifestNext(dir: Directory, p: Publisher): Option<After> {
    if !p.stage.WritingManifest? then None
    else if dir.manifest.Some? then Some(After(Broken(p), dir))
    else Some(After(p.(stage := WritingMarker),
                    dir.(manifest := Some(ManifestOf(p)), manifestBytes := ManifestBytes(ManifestOf(p)))))
  }

  function WriteMarkerNext(dir: Directory, p: Publisher): Option<After> {
    if !p.stage.WritingMarker? then None
    else if dir.marker.Some? then Some(After(Broken(p), dir))
    else Some(After(p.(stage := Linking), dir.(marker := Some(Seal(ManifestOf(p))))))
  }

  /** The private marker becomes the public one: the last step of a publication. */
  function LinkNext(dir: Directory, p: Publisher): Option<After> {
    if !p.stage.Linking? then None
    else if dir.complete || dir.marker.None? then Some(After(Broken(p), dir))
    else Some(After(p.(stage := Published), dir.(complete := true)))
  }

  ghost function SealNext(dir: Directory, p: Publisher, step: PublishStep): Option<After> {
    match step
    case WriteCatalogue(bytes) => WriteCatalogueNext(dir, p, bytes)
    case VerifyOne(n) => VerifyOneNext(dir, p, n)
    case EndVerify => EndVerifyNext(dir, p)
    case CheckInventory => CheckInventoryNext(dir, p)
    case WriteManifest => WriteManifestNext(dir, p)
    case WriteMarker => WriteMarkerNext(dir, p)
    case Link => LinkNext(dir, p)
    case _ => None
  }

  /** From the moment the publisher begins to read back, what the environment does is late. */
  function ReadBack(disk: Option<Directory>, p: Publisher): Option<Directory> {
    if disk.Some? && p.stage.Verifying? then Some(disk.value.(late := false)) else disk
  }

  function Upon(after: Option<After>): Option<(Publisher, Option<Directory>)> {
    if after.None? then None else Some((after.value.p, Some(after.value.dir)))
  }

  /** One step of publisher `me` with what it finds at its destination; None when it is not the step it takes next. */
  ghost function PublishNext(me: Process, src: Source, disk: Option<Directory>, p: Publisher, step: PublishStep)
    : Option<(Publisher, Option<Directory>)>
  {
    if step.Fail? then
      if p.stage.Published? then None else Some((Broken(p), disk))
    else if step.See? then
      var walked := SeeNext(src, p, step.name);
      if walked.None? then None else Some((walked.value, disk))
    else if step.EndWalk? then
      if p.stage.FirstWalk? then Some(ReserveNext(me, disk, p))
      else if Walking(p) then Some((CompareNext(p), ReadBack(disk, CompareNext(p))))
      else None
    else if disk.None? then None
    else if IsCopyStep(step) then Upon(CopyNext(src, disk.value, p, step))
    else Upon(SealNext(disk.value, p, step))
  }

  // ------------------------------------------------------ publisher invariant

  ghost predicate Known(src: Source, snapshot: map<Name, Identity>) {
    forall n :: n in snapshot ==> snapshot[n] in src.content
  }

  /** Every record but the catalogue's describes the content of the snapshotted identity. */
  ghost predicate Genuine(src: Source, original: map<Name, Identity>, records: map<Name, Record>) {
    forall n :: n in records && n != CATALOGUE ==>
      n in original && original[n] in src.content && records[n] == RecordOf(src.content[original[n]])
  }

  predicate InCopy(p: Publisher) {
    p.stage.Opened? || p.stage.Copying?
  }

  predicate Active(p: Publisher) {
    !p.stage.FirstWalk? && !p.stage.Failed?
  }

  predicate PastCopies(p: Publisher) {
    Active(p) && !p.stage.Copies? && !InCopy(p)
  }

  predicate PastCatalogue(p: Publisher) {
    PastCopies(p) && !p.stage.SecondWalk? && !p.stage.Cataloguing?
  }

  predicate OpenIsOriginal(src: Source, p: Publisher) {
    && p.name in p.original && p.original[p.name] in src.content
    && p.fd in src.inodes && src.inodes[p.fd] == p.original[p.name]
  }

  /** While the open file still is the snapshotted one, the copy so far is a beginning of its content. */
  ghost predicate CopyOk(src: Source, p: Publisher) {
    && (InCopy(p) ==> p.name in p.todo && p.fd in src.inodes)
    && (p.stage.Opened? ==> p.copied == [])
    && (p.stage.Copying? && OpenIsOriginal(src, p) ==> p.copied <= src.content[p.original[p.name]])
  }

  /** Every file but the catalogue is still to copy or has its record, never both. */
  ghost predicate Accounted(p: Publisher) {
    && p.todo !! p.records.Keys
    && p.todo + (p.records.Keys - {CATALOGUE}) == p.original.Keys - {CATALOGUE}
    && (CATALOGUE in p.records <==> p.catalogue && PastCatalogue(p))
    && (p.stage.Cataloguing? ==> p.catalogue)
    && (PastCopies(p) ==> p.todo == {})
  }

  ghost predicate PublisherOk(src: Source, p: Publisher) {
    && Known(src, p.seen)
    && Known(src, p.original)
    && CopyOk(src, p)
    && (Active(p) ==> Genuine(src, p.original, p.records) && Accounted(p))
  }

  /** What an undamaged directory holds, stage by stage. */
  ghost predicate Reflects(p: Publisher, dir: Directory) {
    && (forall n :: n in p.records ==> Holds(dir, n, p.records[n]))
    && dir.files.Keys == p.records.Keys + (if InCopy(p) then {p.name} else {})
    && (InCopy(p) ==> p.name in dir.files && dir.files[p.name] == p.copied)
    && dir.manifest ==
       (if p.stage.WritingMarker? || p.stage.Linking? || p.stage.Published? then Some(ManifestOf(p)) else None)
    && dir.marker == (if p.stage.Linking? || p.stage.Published? then Some(Seal(ManifestOf(p))) else None)
  }

  predicate PastInventory(p: Publisher) {
    p.stage.LastWalk? || p.stage.WritingManifest? || p.stage.WritingMarker? || p.stage.Linking? || p.stage.Published?
  }

  predicate IsReadBack(p: Publisher, n: Name) {
    (p.stage.Verifying? && n !in p.unverified) || p.stage.Inventory? || PastInventory(p)
  }

  /** What reading back has established, whatever was done to the directory before. */
  ghost predicate Confirmed(p: Publisher, dir: Directory) {
    && (forall n :: n in p.records && IsReadBack(p, n) ==> Holds(dir, n, p.records[n]))
    && (PastInventory(p) ==> dir.files.Keys == p.records.Keys)
    && (p.stage.WritingMarker? || p.stage.Linking? || p.stage.Published? ==>
          dir.manifest == Some(ManifestOf(p)) && dir.manifestBytes == ManifestBytes(ManifestOf(p)))
    && (p.stage.Linking? || p.stage.Published? ==> dir.marker == Some(Seal(ManifestOf(p))))
  }

  /** What the publisher and its own directory have to do with each other. */
  ghost predicate DirectoryOk(p: Publisher, dir: Directory) {
    && (dir.complete <==> p.stage.Published?)
    && !p.stage.FirstWalk?
    && (!dir.damaged && Active(p) ==> Reflects(p, dir))
    && (!dir.late && Active(p) ==> Confirmed(p, dir))
    && (dir.late ==> dir.damaged)
  }

  /** A publisher together with whatever stands at its destination. */
  ghost predicate Placed(me: Process, src: Source, disk: Option<Directory>, p: Publisher) {
    && PublisherOk(src, p)
    && (Active(p) ==> disk.Some? && disk.value.owner == me)
    && (disk.Some? && disk.value.owner == me ==> DirectoryOk(p, disk.value))
  }

  ghost predicate Kept(src: Source, dir: Directory, after: After) {
    PublisherOk(src, after.p) && after.dir.owner == dir.owner && DirectoryOk(after.p, after.dir)
  }

  // -------------------------------------------------- every step keeps it

  lemma {:induction false} BrokenIsKept(src: Source, dir: Directory, p: Publisher)
    requires PublisherOk(src, p) && DirectoryOk(p, dir) && !p.stage.Published?
    ensures Kept(src, dir, After(Broken(p), dir))
  {
  }

  lemma {:induction false} OpenIsKept(src: Source, dir: Directory, p: Publisher, n: Name)
    requires PublisherOk(src, p) && DirectoryOk(p, dir) && OpenNext(src, dir, p, n).Some?
    ensures Kept(src, dir, OpenNext(src, dir, p, n).value)
  {
    hide Confirmed;
    var after := OpenNext(src, dir, p, n).value;
    EarlyIsConfirmed(after.p, after.dir);
  }

  lemma {:induction false} CheckOpenedIsKept(src: Source, dir: Directory, p: Publisher)
    requires PublisherOk(src, p) && DirectoryOk(p, dir) && CheckOpenedNext(src, dir, p).Some?
    ensures Kept(src, dir, CheckOpenedNext(src, dir, p).value)
  {
    hide Confirmed, Accounted, Genuine, Known;
    var after := CheckOpenedNext(src, dir, p).value;
    BlockIsAccounted(src, p, after.p);
    EarlyIsConfirmed(after.p, after.dir);
  }

  lemma {:induction false} EarlyIsConfirmed(p: Publisher, dir: Directory)
    requires p.stage.Copies? || InCopy(p) || p.stage.Failed?
    ensures Confirmed(p, dir)
  {
  }

  lemma {:induction false} BlockIsAccounted(src: Source, p: Publisher, q: Publisher)
    requires PublisherOk(src, p) && InCopy(p) && q == p.(copied := q.copied, stage := q.stage)
    requires InCopy(q) || q.stage.Failed?
    ensures Known(src, q.seen) && Known(src, q.original)
    ensures Active(q) ==> Genuine(src, q.original, q.records) && Accounted(q)
  {
  }

  lemma {:induction false} BlockIsCopied(src: Source, dir: Directory, p: Publisher, k: nat)
    requires CopyOk(src, p) && CopyBlockNext(src, dir, p, k).Some?
    ensures CopyOk(src, CopyBlockNext(src, dir, p, k).value.p)
  {
  }

  lemma {:induction false} BlockIsReflected(src: Source, dir: Directory, p: Publisher, k: nat)
    requires Reflects(p, dir) && Accounted(p) && CopyOk(src, p) && CopyBlockNext(src, dir, p, k).Some?
    requires CopyBlockNext(src, dir, p, k).value.p.stage.Copying?
    ensures Reflects(CopyBlockNext(src, dir, p, k).value.p, CopyBlockNext(src, dir, p, k).value.dir)
  {
    hide OpenIsOriginal;
  }

  lemma {:induction false} CopyBlockIsKept(src: Source, dir: Directory, p: Publisher, k: nat)
    requires PublisherOk(src, p) && DirectoryOk(p, dir) && CopyBlockNext(src, dir, p, k).Some?
    ensures Kept(src, dir, CopyBlockNext(src, dir, p, k).value)
  {
    hide Confirmed, Accounted, Genuine, Known, Reflects, CopyOk;
    var after := CopyBlockNext(src, dir, p, k).value;
    BlockIsCopied(src, dir, p, k);
    BlockIsAccounted(src, p, after.p);
    EarlyIsConfirmed(after.p, after.dir);
    if !dir.damaged && after.p.stage.Copying? {
      BlockIsReflected(src, dir, p, k);
    }
  }

  lemma {:induction false} FinishedIsAccounted(src: Source, dir: Directory, p: Publisher)
    requires PublisherOk(src, p) && FinishCopyNext(src, dir, p).Some?
    requires FinishCopyNext(src, dir, p).value.p.stage.Copies?
    ensures PublisherOk(src, FinishCopyNext(src, dir, p).value.p)
  {
    assert OpenIsOriginal(src, p);
    assert p.copied == src.content[p.original[p.name]];
  }

  lemma {:induction false} FinishedIsReflected(src: Source, dir: Directory, p: Publisher)
    requires Reflects(p, dir) && FinishCopyNext(src, dir, p).Some?
    requires FinishCopyNext(src, dir, p).value.p.stage.Copies?
    ensures Reflects(FinishCopyNext(src, dir, p).value.p, dir)
  {
  }

  lemma {:induction false} FinishCopyIsKept(src: Source, dir: Directory, p: Publisher)
    requires PublisherOk(src, p) && DirectoryOk(p, dir) && FinishCopyNext(src, dir, p).Some?
    ensures Kept(src, dir, FinishCopyNext(src, dir, p).value)
  {
    hide Genuine, Accounted, Reflects, Known, CopyOk;
    var q := FinishCopyNext(src, dir, p).value.p;
    if q.stage.Failed? {
      BrokenIsKept(src, dir, p);
    } else {
      FinishedIsAccounted(src, dir, p);
      if !dir.damaged {
        FinishedIsReflected(src, dir, p);
      }
    }
  }

  lemma {:induction false} CopyIsKept(src: Source, dir: Directory, p: Publisher, step: PublishStep)
    requires PublisherOk(src, p) && DirectoryOk(p, dir) && CopyNext(src, dir, p, step).Some?
    ensures Kept(src, dir, CopyNext(src, dir, p, step).value)
  {
    match step
    case Open(n) => OpenIsKept(src, dir, p, n);
    case CheckOpened => CheckOpenedIsKept(src, dir, p);
    case CopyBlock(k) => CopyBlockIsKept(src, dir, p, k);
    case FinishCopy => FinishCopyIsKept(src, dir, p);
    case _ =>
  }

  lemma {:induction false} CatalogueIsAccounted(src: Source, p: Publisher, bytes: Bytes)
    requires PublisherOk(src, p) && p.stage.Cataloguing?
    ensures PublisherOk(src, Broken(p))
    ensures var records := p.records[CATALOGUE := RecordOf(bytes)];
            PublisherOk(src, p.(stage := Verifying, records := records, unverified := records.Keys))
  {
  }

  lemma {:induction false} CatalogueIsReflected(p: Publisher, dir: Directory, bytes: Bytes)
    requires p.stage.Cataloguing? && Reflects(p, dir)
    ensures var records := p.records[CATALOGUE := RecordOf(bytes)];
            Reflects(p.(stage := Verifying, records := records, unverified := records.Keys),
                     dir.(files := dir.files[CATALOGUE := bytes]))
  {
  }

  lemma {:induction false} WriteCatalogueIsKept(src: Source, dir: Directory, p: Publisher, bytes: Bytes)
    requires PublisherOk(src, p) && DirectoryOk(p, dir) && WriteCatalogueNext(dir, p, bytes).Some?
    ensures Kept(src, dir, WriteCatalogueNext(dir, p, bytes).value)
  {
    hide Genuine, Accounted, Reflects, Known, CopyOk;
    CatalogueIsAccounted(src, p, bytes);
    if !dir.damaged && !Oversized(bytes) {
      CatalogueIsReflected(p, dir, bytes);
    }
  }

  /** Between the catalogue and the manifest the stage alone says nothing about the directory. */
  lemma {:induction false} StageIsKept(src: Source, dir: Directory, p: Publisher, q: Publisher)
    requires PublisherOk(src, p) && DirectoryOk(p, dir)
    requires p.stage.Verifying? || p.stage.Inventory?
    requires q.stage.Verifying? || q.stage.Inventory? || q.stage.LastWalk?
    requires q == p.(stage := q.stage, seen := q.seen, unverified := q.unverified) && Known(src, q.seen)
    requires !dir.late ==> Confirmed(q, dir)
    ensures Kept(src, dir, After(q, dir))
  {
  }

  lemma {:induction false} VerifyOneIsKept(src: Source, dir: Directory, p: Publisher, n: Name)
    requires PublisherOk(src, p) && DirectoryOk(p, dir) && VerifyOneNext(dir, p, n).Some?
    ensures Kept(src, dir, VerifyOneNext(dir, p, n).value)
  {
    if Holds(dir, n, p.records[n]) {
      StageIsKept(src, dir, p, p.(unverified := p.unverified - {n}));
    } else {
      BrokenIsKept(src, dir, p);
    }
  }

  lemma {:induction false} CheckInventoryIsKept(src: Source, dir: Directory, p: Publisher)
    requires PublisherOk(src, p) && DirectoryOk(p, dir) && CheckInventoryNext(dir, p).Some?
    ensures Kept(src, dir, CheckInventoryNext(dir, p).value)
  {
    hide Genuine, Accounted, Reflects;
    if CheckInventoryNext(dir, p).value.p.stage.Failed? {
      BrokenIsKept(src, dir, p);
    } else {
      StageIsKept(src, dir, p, p.(stage := LastWalk, seen := map[]));
    }
  }

  lemma {:induction false} EndVerifyIsKept(src: Source, dir: Directory, p: Publisher)
    requires PublisherOk(src, p) && DirectoryOk(p, dir) && EndVerifyNext(dir, p).Some?
    ensures Kept(src, dir, EndVerifyNext(dir, p).value)
  {
    StageIsKept(src, dir, p, p.(stage := Inventory));
  }

  /** Past the catalogue, and when giving up, the stage says nothing about what was snapshotted and recorded. */
  lemma {:induction false} OnlyTheStage(src: Source, p: Publisher, q: Publisher)
    requires PublisherOk(src, p) && PastCatalogue(p) && q == p.(stage := q.stage)
    requires PastCatalogue(q) || q.stage.Failed?
    ensures PublisherOk(src, q)
  {
  }

  lemma {:induction false} ManifestIsKept(src: Source, dir: Directory, p: Publisher)
    requires PublisherOk(src, p) && DirectoryOk(p, dir) && WriteManifestNext(dir, p).Some?
    ensures Kept(src, dir, WriteManifestNext(dir, p).value)
  {
    hide ManifestBytes;
    hide PublisherOk, Accounted, Genuine, Known, CopyOk;
    OnlyTheStage(src, p, WriteManifestNext(dir, p).value.p);
  }

  lemma {:induction false} MarkerIsKept(src: Source, dir: Directory, p: Publisher)
    requires PublisherOk(src, p) && DirectoryOk(p, dir) && WriteMarkerNext(dir, p).Some?
    ensures Kept(src, dir, WriteMarkerNext(dir, p).value)
  {
    hide ManifestBytes;
    hide PublisherOk, Accounted, Genuine, Known, CopyOk;
    OnlyTheStage(src, p, WriteMarkerNext(dir, p).value.p);
  }

  lemma {:induction false} LinkIsKept(src: Source, dir: Directory, p: Publisher)
    requires PublisherOk(src, p) && DirectoryOk(p, dir) && LinkNext(dir, p).Some?
    ensures Kept(src, dir, LinkNext(dir, p).value)
  {
    hide ManifestBytes;
    hide PublisherOk, Accounted, Genuine, Known, CopyOk;
    OnlyTheStage(src, p, LinkNext(dir, p).value.p);
  }

  lemma {:induction false} SealIsKept(src: Source, dir: Directory, p: Publisher, step: PublishStep)
    requires PublisherOk(src, p) && DirectoryOk(p, dir) && SealNext(dir, p, step).Some?
    ensures Kept(src, dir, SealNext(dir, p, step).value)
  {
    hide ManifestBytes;
    hide PublisherOk, DirectoryOk, Kept, WriteCatalogueNext, WriteManifestNext, WriteMarkerNext, LinkNext;
    hide VerifyOneNext, CheckInventoryNext, EndVerifyNext;
    match step
    case WriteCatalogue(bytes) => WriteCatalogueIsKept(src, dir, p, bytes);
    case WriteManifest => ManifestIsKept(src, dir, p);
    case WriteMarker => MarkerIsKept(src, dir, p);
    case Link => LinkIsKept(src, dir, p);
    case VerifyOne(n) => VerifyOneIsKept(src, dir, p, n);
    case EndVerify => EndVerifyIsKept(src, dir, p);
    case CheckInventory => CheckInventoryIsKept(src, dir, p);
    case _ =>
  }

  lemma {:induction false} SeenSaysNothing(src: Source, p: Publisher, q: Publisher)
    requires Walking(p) && (q == p.(seen := q.seen) || q == Broken(p))
    requires Active(p) ==> Genuine(src, p.original, p.records) && Accounted(p)
    ensures Active(q) ==> Genuine(src, q.original, q.records) && Accounted(q)
  {
  }

  lemma {:induction false} SeenLeavesDirectory(p: Publisher, q: Publisher, dir: Directory)
    requires q == p.(seen := q.seen)
    ensures Reflects(q, dir) == Reflects(p, dir) && Confirmed(q, dir) == Confirmed(p, dir)
  {
  }

  lemma {:induction false} WalkIsPlaced(me: Process, src: Source, disk: Option<Directory>, p: Publisher, n: Name)
    requires Placed(me, src, disk, p) && SeeNext(src, p, n).Some?
    ensures Placed(me, src, disk, SeeNext(src, p, n).value)
  {
    hide Reflects, Confirmed, Accounted, Genuine;
    SeenSaysNothing(src, p, SeeNext(src, p, n).value);
    if disk.Some? && !SeeNext(src, p, n).value.stage.Failed? {
      SeenLeavesDirectory(p, SeeNext(src, p, n).value, disk.value);
    }
  }

  lemma {:induction false} ReservationIsPlaced(me: Process, src: Source, disk: Option<Directory>, p: Publisher)
    requires Placed(me, src, disk, p) && p.stage.FirstWalk?
    ensures Placed(me, src, ReserveNext(me, disk, p).1, ReserveNext(me, disk, p).0)
  {
  }

  lemma {:induction false} ComparisonIsPlaced(me: Process, src: Source, disk: Option<Directory>, p: Publisher)
    requires Placed(me, src, disk, p) && Walking(p) && !p.stage.FirstWalk?
    ensures Placed(me, src, ReadBack(disk, CompareNext(p)), CompareNext(p))
  {
    hide Genuine, Holds, ManifestBytes, OpenIsOriginal;
  }

  lemma {:induction false} FailureIsPlaced(me: Process, src: Source, disk: Option<Directory>, p: Publisher)
    requires Placed(me, src, disk, p) && !p.stage.Published?
    ensures Placed(me, src, disk, Broken(p))
  {
  }

  lemma {:induction false} OnlyActiveWork(src: Source, dir: Directory, p: Publisher, step: PublishStep)
    requires CopyNext(src, dir, p, step).Some? || SealNext(dir, p, step).Some?
    ensures Active(p) && !p.stage.Published?
  {
  }

  lemma {:induction false} PublishIsPlaced(
    me: Process, src: Source, disk: Option<Directory>, p: Publisher, step: PublishStep)
    requires Placed(me, src, disk, p)
    requires PublishNext(me, src, disk, p, step).Some?
    ensures var (q, d) := PublishNext(me, src, disk, p, step).value; Placed(me, src, d, q)
  {
    hide PublisherOk, DirectoryOk, SeeNext, ReserveNext, CompareNext, CopyNext, SealNext;
    if step.Fail? {
      FailureIsPlaced(me, src, disk, p);
    } else if step.See? {
      WalkIsPlaced(me, src, disk, p, step.name);
    } else if step.EndWalk? {
      if p.stage.FirstWalk? {
        ReservationIsPlaced(me, src, disk, p);
      } else {
        ComparisonIsPlaced(me, src, disk, p);
      }
    } else {
      OnlyActiveWork(src, disk.value, p, step);
      if IsCopyStep(step) {
        CopyIsKept(src, disk.value, p, step);
      } else {
        SealIsKept(src, disk.value, p, step);
      }
    }
  }

  /** A sealed directory is never written again: its owner has nothing left to do and nobody else can. */
  lemma {:induction false} SealedIsLeftAlone(
    me: Process, src: Source, disk: Option<Directory>, p: Publisher, step: PublishStep)
    requires Placed(me, src, disk, p) && disk.Some? && disk.value.complete
    requires PublishNext(me, src, disk, p, step).Some?
    ensures PublishNext(me, src, disk, p, step).value.1 == disk
  {
    hide PublisherOk, CopyNext, SealNext, SeeNext, CompareNext;
    if !step.Fail? && !step.See? && !step.EndWalk? {
      OnlyActiveWork(src, disk.value, p, step);
    }
  }

  lemma {:induction false} StepsStayHome(src: Source, dir: Directory, p: Publisher, step: PublishStep)
    ensures CopyNext(src, dir, p, step).Some? ==>
      CopyNext(src, dir, p, step).value.dir.owner == dir.owner && CopyNext(src, dir, p, step).value.p.dest == p.dest
    ensures SealNext(dir, p, step).Some? ==>
      SealNext(dir, p, step).value.dir.owner == dir.owner && SealNext(dir, p, step).value.p.dest == p.dest
  {
  }

  /** A publisher writes only to a directory it reserved itself, and stays with its destination. */
  lemma {:induction false} PublishTouchesItsOwn(
    me: Process, src: Source, disk: Option<Directory>, p: Publisher, step: PublishStep)
    requires Placed(me, src, disk, p) && PublishNext(me, src, disk, p, step).Some?
    ensures var (q, d) := PublishNext(me, src, disk, p, step).value;
            && q.dest == p.dest
            && (d == disk || (d.Some? && d.value.owner == me && (disk.Some? ==> disk.value.owner == me)))
  {
    hide PublisherOk, DirectoryOk, CopyNext, SealNext;
    if disk.Some? && !step.Fail? && !step.See? && !step.EndWalk? {
      StepsStayHome(src, disk.value, p, step);
      OnlyActiveWork(src, disk.value, p, step);
    }
  }

  /** What others do to the source never breaks what a publisher relies on. */
  lemma {:induction false} PlacedEvolves(
    me: Process, src: Source, later: Source, disk: Option<Directory>, p: Publisher)
    requires SourceOk(src) && Evolves(src, later) && Placed(me, src, disk, p)
    ensures Placed(me, later, disk, p)
  {
  }

  /** The manifest of this publication can be read back. */
  ghost predicate ManifestFits(p: Publisher) {
    ManifestBytes(ManifestOf(p)) <= MAX_MANIFEST_BYTES
  }

  /** What a publication will say of a snapshot, known before it begins but for the catalogue it makes. */
  function Planned(
    src: Source, original: map<Name, Identity>, claims: Claims, catalogue: Option<Record>): Manifest
  {
    var raw :=
      map n | n in original && n != CATALOGUE && original[n] in src.content :: RecordOf(src.content[original[n]]);
    Manifest(if catalogue.Some? then raw[CATALOGUE := catalogue.value] else raw, original, claims)
  }

  lemma {:induction false} PublishedAsPlanned(src: Source, p: Publisher)
    requires PublisherOk(src, p) && p.stage.Published?
    ensures CATALOGUE in p.records <==> p.catalogue
    ensures ManifestOf(p) ==
            Planned(src, p.original, p.claims, if p.catalogue then Some(p.records[CATALOGUE]) else None)
  {
    var planned := Planned(src, p.original, p.claims, if p.catalogue then Some(p.records[CATALOGUE]) else None);
    forall n ensures n in p.records <==> n in planned.files {
      if n != CATALOGUE {
        assert n in p.todo + (p.records.Keys - {CATALOGUE}) <==> n in p.original.Keys - {CATALOGUE};
      }
    }
    forall n | n in p.records ensures p.records[n] == planned.files[n] {
    }
    assert p.records == planned.files;
  }

  /**
    A copy that nobody touched since its publisher began to read it back passes the audit exactly when it
    was published with files and its manifest is short enough to be read: whatever was done to it before,
    reading back would have caught.
   */
  lemma {:induction false} AuditIffPublished(me: Process, src: Source, p: Publisher, dir: Directory)
    requires Placed(me, src, Some(dir), p) && dir.owner == me && !dir.late
    ensures AuditAccepts(dir) <==>
              p.stage.Published? && p.records != map[] && ManifestFits(p)
    ensures dir.complete ==> dir.manifest == Some(ManifestOf(p))
  {
    hide ManifestBytes;
  }

  /** The snapshotted content of a file. */
  function Snapshotted(src: Source, original: map<Name, Identity>, name: Name): Option<Bytes> {
    if name in original && original[name] in src.content then Some(src.content[original[name]]) else None
  }

  lemma {:induction false} PublishedHoldsSnapshot(me: Process, src: Source, p: Publisher, dir: Directory, name: Name)
    requires Placed(me, src, Some(dir), p) && dir.owner == me && !dir.late && p.stage.Published? && name != CATALOGUE
    ensures FileIn(dir.files, name) == Snapshotted(src, p.original, name)
    ensures FileIn(dir.files, name).Some? ==> p.records != map[]
  {
    assert name in p.records <==> name in p.original;
  }

  /**
    Such a copy passes the whole audit exactly when it was published with a manifest short enough to be
    read, says of its origin what is expected, and the snapshotted capture ended in accepted health and
    with the plan its provenance names.
   */
  lemma {:induction false} CopyAcceptedIff(
    me: Process, src: Source, p: Publisher, dir: Directory, root: string, e: Expectation,
    decode: Bytes -> Option<Document>)
    requires Placed(me, src, Some(dir), p) && dir.owner == me && !dir.late
    ensures CopyAccepted(root, dir, e, decode) <==>
      && p.stage.Published?
      && ManifestFits(p)
      && ClaimsOk(p.claims, root, e)
      && HealthOk(Snapshotted(src, p.original, HEALTH), e, decode)
      && PlanOk(Snapshotted(src, p.original, PLAN), p.claims)
  {
    hide Placed, AuditAccepts, ClaimsOk, HealthOk, PlanOk, FileIn, Snapshotted, ManifestFits;
    AuditIffPublished(me, src, p, dir);
    if p.stage.Published? {
      PublishedHoldsSnapshot(me, src, p, dir, HEALTH);
      PublishedHoldsSnapshot(me, src, p, dir, PLAN);
      PublishedManifest(me, src, p, dir);
      HealthNeedsFile(FileIn(dir.files, HEALTH), e, decode);
    } else if AuditAccepts(dir) {
      AuditedHasManifest(dir);
    }
  }

  lemma {:induction false} HealthNeedsFile(health: Option<Bytes>, e: Expectation, decode: Bytes -> Option<Document>)
    ensures HealthOk(health, e, decode) ==> health.Some?
  {
  }

  lemma {:induction false} PublishedManifest(me: Process, src: Source, p: Publisher, dir: Directory)
    requires Placed(me, src, Some(dir), p) && dir.owner == me && !dir.late && p.stage.Published?
    ensures dir.manifest.Some? && dir.manifest.value.claims == p.claims
  {
  }

  /** Two publications of one snapshot: without the catalogue their records are the same. */
  lemma {:induction false} TwinRecords(src: Source, p: Publisher, q: Publisher)
    requires PublisherOk(src, p) && PublisherOk(src, q) && p.stage.Published? && q.stage.Published?
    requires p.original == q.original
    ensures p.records - {CATALOGUE} == q.records - {CATALOGUE}
    ensures CATALOGUE in p.records <==> p.catalogue
    ensures CATALOGUE in q.records <==> q.catalogue
    ensures (p.records - {CATALOGUE}).Keys == p.original.Keys - {CATALOGUE}
  {
    var left, right := p.records - {CATALOGUE}, q.records - {CATALOGUE};
    assert left.Keys == p.original.Keys - {CATALOGUE} == right.Keys;
    forall n | n in left ensures left[n] == right[n] {
    }
  }
}
