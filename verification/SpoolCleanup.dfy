/**
  Publishers, cleaners and the environment together: any number of publications and cleanups of one
  spool, interleaved step by step, with the source changing under them. Sealed directories are not
  touched by the environment; before that it may do anything to them.
 */
module SpoolCleanup {
  import opened Wrappers
  import opened Manifests
  import opened Publication

  // ---------------------------------------------------------------- cleaner

  /** What a finished publication hands over. */
  datatype Receipt = Receipt(dest: Destination, manifest: Manifest)

  datatype Phase = Meeting | CheckingFirst | CheckingSecond | Removing | Observed | Done | Halted

  /** `disturbed` remembers whether the observed name came to stand for something else before its unlink. */
  datatype Cleaner = Cleaner(
    first: Receipt, second: Receipt, phase: Phase,
    original: map<Name, Identity>, todo: set<Name>, name: Name, disturbed: bool)

  datatype CleanStep = Meet(name: Name) | EndMeeting | Check | Observe(name: Name) | Unlink | Finish | Halt

  /** A line in the log of unlinked source files: what the name should have stood for and what it did. */
  datatype Removal = Removal(
    name: Name, expected: Identity, removed: Identity, disturbed: bool, first: Destination, second: Destination)

  datatype Cleaned = Cleaned(c: Cleaner, src: Source, removal: Option<Removal>)

  /** The copy is sealed with exactly this manifest, short enough to be read, and holds every byte of it. */
  predicate Sealed(dests: map<Destination, Directory>, receipt: Receipt) {
    && receipt.dest in dests
    && dests[receipt.dest].complete
    && dests[receipt.dest].manifestBytes <= MAX_MANIFEST_BYTES
    && dests[receipt.dest].marker == Some(Seal(receipt.manifest))
    && dests[receipt.dest].manifest == Some(receipt.manifest)
    && forall n :: n in receipt.manifest.files ==> Holds(dests[receipt.dest], n, receipt.manifest.files[n])
  }

  predicate Verified(dests: map<Destination, Directory>, receipt: Receipt, original: map<Name, Identity>) {
    && Sealed(dests, receipt)
    && receipt.manifest.files.Keys - {CATALOGUE} == original.Keys - {CATALOGUE}
  }

  function MeetNext(src: Source, c: Cleaner, n: Name): Option<Cleaner> {
    if !c.phase.Meeting? || Resolve(src, n).None? || Resolve(src, n).value !in src.content then None
    else
      var id := Resolve(src, n).value;
      var original := c.original[n := id];
      Some(if Oversized(src.content[id]) || |original| > MAX_FILES then c.(phase := Halted)
           else c.(original := original))
  }

  function CheckNext(dests: map<Destination, Directory>, c: Cleaner): Option<Cleaner> {
    if c.phase.CheckingFirst? then
      Some(c.(phase := if Verified(dests, c.first, c.original) then CheckingSecond else Halted))
    else if c.phase.CheckingSecond? then
      Some(if Verified(dests, c.second, c.original) && CATALOGUE in c.first.manifest.files
           then c.(phase := Removing, todo := c.original.Keys)
           else c.(phase := Halted))
    else None
  }

  function ObserveNext(src: Source, c: Cleaner, n: Name): Option<Cleaner> {
    if !c.phase.Removing? || n !in c.todo || n !in c.original then None
    else if Resolve(src, n) != Some(c.original[n]) then Some(c.(phase := Halted))
    else Some(c.(phase := Observed, name := n, disturbed := false))
  }

  /** The unlink goes by name: it removes whatever the name stands for by now. */
  function UnlinkNext(src: Source, c: Cleaner): Option<Cleaned> {
    if !c.phase.Observed? || c.name !in c.original then None
    else if Resolve(src, c.name).None? then Some(Cleaned(c.(phase := Halted), src, None))
    else Some(Cleaned(
      c.(phase := Removing, todo := c.todo - {c.name}),
      src.(names := src.names - {c.name}),
      Some(Removal(c.name, c.original[c.name], Resolve(src, c.name).value, c.disturbed, c.first.dest, c.second.dest))))
  }

  function Quietly(c: Option<Cleaner>, src: Source): Option<Cleaned> {
    if c.None? then None else Some(Cleaned(c.value, src, None))
  }

  function CleanNext(src: Source, dests: map<Destination, Directory>, c: Cleaner, step: CleanStep): Option<Cleaned> {
    match step
    case Meet(n) => Quietly(MeetNext(src, c, n), src)
    case EndMeeting =>
      if !c.phase.Meeting? then None
      else if c.first.manifest.identities != c.original || c.second.manifest.identities != c.original then
        Some(Cleaned(c.(phase := Halted), src, None))
      else Some(Cleaned(c.(phase := CheckingFirst), src, None))
    case Check => Quietly(CheckNext(dests, c), src)
    case Observe(n) => Quietly(ObserveNext(src, c, n), src)
    case Unlink => UnlinkNext(src, c)
    case Finish => if c.phase.Removing? && c.todo == {} then Some(Cleaned(c.(phase := Done), src, None)) else None
    case Halt => if c.phase.Done? then None else Some(Cleaned(c.(phase := Halted), src, None))
  }

  // ----------------------------------------------------------------- system

  datatype State = State(
    src: Source, dests: map<Destination, Directory>,
    publishers: map<Process, Publisher>, cleaners: map<Process, Cleaner>, removals: seq<Removal>)

  datatype Action =
    | Env(mutation: Mutation)
    | Tamper(
        dest: Destination, files: map<Name, Bytes>, manifest: Option<Manifest>, manifestBytes: nat,
        marker: Option<Seal>)
    | StartPublish(me: Process, dest: Destination, catalogue: bool, provenance: Option<Document>, root: string)
    | Publish(me: Process, step: PublishStep)
    | StartClean(me: Process, first: Process, second: Process)
    | Clean(me: Process, act: CleanStep)

  function Init(src: Source): State {
    State(src, map[], map[], map[], [])
  }

  function DiskAt(dests: map<Destination, Directory>, d: Destination): Option<Directory> {
    if d in dests then Some(dests[d]) else None
  }

  function NoticeOne(src: Source, later: Source, c: Cleaner): Cleaner {
    if c.phase.Observed? && Resolve(later, c.name) != Resolve(src, c.name) then c.(disturbed := true) else c
  }

  /** The source changed from `src` to `later` under every cleaner that stands before an unlink. */
  function Notice(src: Source, later: Source, cleaners: map<Process, Cleaner>): map<Process, Cleaner> {
    map c | c in cleaners :: NoticeOne(src, later, cleaners[c])
  }

  ghost function PublishIn(s: State, me: Process, step: PublishStep): Option<State> {
    if me !in s.publishers then None
    else
      var p := s.publishers[me];
      var after := PublishNext(me, s.src, DiskAt(s.dests, p.dest), p, step);
      if after.None? then None
      else
        var (q, disk) := after.value;
        Some(s.(publishers := s.publishers[me := q],
                dests := if disk.None? then s.dests else s.dests[p.dest := disk.value]))
  }

  function ReceiptOf(p: Publisher): Receipt {
    Receipt(p.dest, ManifestOf(p))
  }

  function StartCleanIn(s: State, me: Process, a: Process, b: Process): Option<State> {
    if me in s.cleaners || a !in s.publishers || b !in s.publishers then None
    else
      var p, q := s.publishers[a], s.publishers[b];
      if !p.stage.Published? || !q.stage.Published? || p.dest == q.dest then None
      else Some(s.(cleaners := s.cleaners[me := Cleaner(ReceiptOf(p), ReceiptOf(q), Meeting, map[], {}, "", false)]))
  }

  function CleanIn(s: State, me: Process, step: CleanStep): Option<State> {
    if me !in s.cleaners then None
    else
      var after := CleanNext(s.src, s.dests, s.cleaners[me], step);
      if after.None? then None
      else
        Some(s.(src := after.value.src,
                cleaners := Notice(s.src, after.value.src, s.cleaners)[me := after.value.c],
                removals := if after.value.removal.None? then s.removals else s.removals + [after.value.removal.value]))
  }

  function TamperIn(
    s: State, d: Destination, files: map<Name, Bytes>, manifest: Option<Manifest>, manifestBytes: nat,
    marker: Option<Seal>): Option<State>
  {
    if d !in s.dests || s.dests[d].complete then None
    else
      var worse := s.dests[d].(files := files, manifest := manifest, manifestBytes := manifestBytes, marker := marker,
                               damaged := true, late := true);
      Some(s.(dests := s.dests[d := worse]))
  }

  ghost function Next(s: State, action: Action): Option<State> {
    match action
    case Env(m) =>
      var later := Mutate(s.src, m);
      Some(s.(src := later, cleaners := Notice(s.src, later, s.cleaners)))
    case Tamper(d, files, manifest, manifestBytes, marker) => TamperIn(s, d, files, manifest, manifestBytes, marker)
    case StartPublish(me, d, catalogue, provenance, root) =>
      if me in s.publishers then None
      else
        var p := Publisher(
          d, catalogue, ClaimsFor(d, provenance, root), FirstWalk, map[], map[], {}, map[], "", 0, [], {});
        Some(s.(publishers := s.publishers[me := p]))
    case Publish(me, step) => PublishIn(s, me, step)
    case StartClean(me, a, b) => StartCleanIn(s, me, a, b)
    case Clean(me, step) => CleanIn(s, me, step)
  }

  /** The state after a run, or None when some action was not possible where it stood. */
  ghost function Run(s: State, actions: seq<Action>): Option<State>
    decreases |actions|
  {
    if actions == [] then Some(s)
    else
      var next := Next(s, actions[0]);
      if next.None? then None else Run(next.value, actions[1..])
  }

  // -------------------------------------------------------------- invariant

  /** A receipt describes the content of the identities it lists. */
  ghost predicate Honest(src: Source, receipt: Receipt) {
    && Known(src, receipt.manifest.identities)
    && Genuine(src, receipt.manifest.identities, receipt.manifest.files)
  }

  ghost predicate CleanerOk(src: Source, dests: map<Destination, Directory>, c: Cleaner) {
    && c.first.dest != c.second.dest
    && Honest(src, c.first) && Honest(src, c.second)
    && (c.phase.CheckingFirst? || c.phase.CheckingSecond? || c.phase.Removing? || c.phase.Observed? ==>
          c.original == c.first.manifest.identities == c.second.manifest.identities)
    && (c.phase.CheckingSecond? || c.phase.Removing? || c.phase.Observed? ==> Verified(dests, c.first, c.original))
    && (c.phase.Removing? || c.phase.Observed? ==> Verified(dests, c.second, c.original))
    && (c.phase.Observed? ==>
          c.name in c.original && (Resolve(src, c.name) == Some(c.original[c.name]) <==> !c.disturbed))
  }

  /** A sealed copy holds the content of this identity under this name. */
  predicate HasCopy(src: Source, dests: map<Destination, Directory>, d: Destination, name: Name, id: Identity) {
    && d in dests && dests[d].complete
    && name in dests[d].files && id in src.content && dests[d].files[name] == src.content[id]
  }

  ghost predicate RemovalOk(src: Source, dests: map<Destination, Directory>, r: Removal) {
    && (r.removed == r.expected <==> !r.disturbed)
    && (r.name != CATALOGUE ==>
          && r.first != r.second
          && HasCopy(src, dests, r.first, r.name, r.expected)
          && HasCopy(src, dests, r.second, r.name, r.expected))
  }

  ghost predicate StateOk(s: State) {
    && SourceOk(s.src)
    && (forall me :: me in s.publishers ==>
          Placed(me, s.src, DiskAt(s.dests, s.publishers[me].dest), s.publishers[me]))
    && (forall d :: d in s.dests ==> s.dests[d].owner in s.publishers && s.publishers[s.dests[d].owner].dest == d)
    && (forall c :: c in s.cleaners ==> CleanerOk(s.src, s.dests, s.cleaners[c]))
    && (forall r :: r in s.removals ==> RemovalOk(s.src, s.dests, r))
  }

  /** Sealed directories stay as they are. */
  ghost predicate Grows(dests: map<Destination, Directory>, later: map<Destination, Directory>) {
    forall d :: d in dests && dests[d].complete ==> d in later && later[d] == dests[d]
  }

  /** The source goes on: contents stay, and a name keeps its identity, loses it or gets one never seen before. */
  ghost predicate Moves(src: Source, later: Source) {
    && SourceOk(src) && SourceOk(later) && Evolves(src, later)
    && forall n :: Resolve(later, n) == Resolve(src, n)
                || Resolve(later, n) == None
                || (Resolve(later, n).Some? && Resolve(later, n).value !in src.content)
  }

  lemma {:induction false} UnlinkMoves(src: Source, n: Name)
    requires SourceOk(src)
    ensures Moves(src, src.(names := src.names - {n}))
  {
  }

  // ------------------------------------------------- every action keeps it

  lemma {:induction false} SealedGrows(
    dests: map<Destination, Directory>, later: map<Destination, Directory>, receipt: Receipt)
    requires Sealed(dests, receipt) && Grows(dests, later)
    ensures Sealed(later, receipt)
  {
  }

  lemma {:induction false} CleanerMoves(
    src: Source, later: Source, dests: map<Destination, Directory>, grown: map<Destination, Directory>, c: Cleaner)
    requires Moves(src, later) && Grows(dests, grown) && CleanerOk(src, dests, c)
    ensures CleanerOk(later, grown, NoticeOne(src, later, c))
  {
    hide Sealed, SourceOk;
    if Sealed(dests, c.first) {
      SealedGrows(dests, grown, c.first);
    }
    if Sealed(dests, c.second) {
      SealedGrows(dests, grown, c.second);
    }
    if c.phase.Observed? {
      assert c.original[c.name] in src.content;
    }
  }

  lemma {:induction false} RemovalMoves(
    src: Source, later: Source, dests: map<Destination, Directory>, grown: map<Destination, Directory>, r: Removal)
    requires Evolves(src, later) && Grows(dests, grown) && RemovalOk(src, dests, r)
    ensures RemovalOk(later, grown, r)
  {
  }

  /** What an action leaves to others: their invariants survive the moved source and grown destinations. */
  lemma {:induction false} BystandersMove(s: State, later: Source, grown: map<Destination, Directory>)
    requires StateOk(s) && Moves(s.src, later) && Grows(s.dests, grown)
    ensures forall c :: c in s.cleaners ==> CleanerOk(later, grown, NoticeOne(s.src, later, s.cleaners[c]))
    ensures forall r :: r in s.removals ==> RemovalOk(later, grown, r)
    ensures forall me :: me in s.publishers ==>
      Placed(me, later, DiskAt(s.dests, s.publishers[me].dest), s.publishers[me])
  {
    hide CleanerOk, RemovalOk, Placed, Evolves, Grows, NoticeOne, Resolve, SourceOk;
    forall c | c in s.cleaners ensures CleanerOk(later, grown, NoticeOne(s.src, later, s.cleaners[c])) {
      CleanerMoves(s.src, later, s.dests, grown, s.cleaners[c]);
    }
    forall r | r in s.removals ensures RemovalOk(later, grown, r) {
      RemovalMoves(s.src, later, s.dests, grown, r);
    }
    forall me | me in s.publishers
      ensures Placed(me, later, DiskAt(s.dests, s.publishers[me].dest), s.publishers[me])
    {
      PlacedEvolves(me, s.src, later, DiskAt(s.dests, s.publishers[me].dest), s.publishers[me]);
    }
  }

  lemma {:induction false} EnvKeeps(s: State, m: Mutation)
    requires StateOk(s)
    ensures StateOk(Next(s, Env(m)).value)
  {
    hide CleanerOk, RemovalOk, Placed, NoticeOne;
    MutationEvolves(s.src, m);
    BystandersMove(s, Mutate(s.src, m), s.dests);
  }

  lemma {:induction false} StayingMoves(src: Source)
    requires SourceOk(src)
    ensures Moves(src, src)
    ensures forall c :: NoticeOne(src, src, c) == c
  {
  }

  lemma {:induction false} TamperIsPlaced(me: Process, src: Source, dir: Directory, p: Publisher, worse: Directory)
    requires Placed(me, src, Some(dir), p) && worse.damaged && worse.late
    requires worse.owner == dir.owner && worse.complete == dir.complete
    ensures Placed(me, src, Some(worse), p)
  {
  }

  lemma {:induction false} TamperKeeps(
    s: State, d: Destination, files: map<Name, Bytes>, manifest: Option<Manifest>, manifestBytes: nat,
    marker: Option<Seal>)
    requires StateOk(s) && TamperIn(s, d, files, manifest, manifestBytes, marker).Some?
    ensures StateOk(TamperIn(s, d, files, manifest, manifestBytes, marker).value)
  {
    hide CleanerOk, RemovalOk, Placed, SourceOk, NoticeOne, Moves;
    var t := TamperIn(s, d, files, manifest, manifestBytes, marker).value;
    StayingMoves(s.src);
    BystandersMove(s, s.src, t.dests);
    forall me | me in s.publishers
      ensures Placed(me, t.src, DiskAt(t.dests, t.publishers[me].dest), t.publishers[me])
    {
      if s.publishers[me].dest == d {
        TamperIsPlaced(me, s.src, s.dests[d], s.publishers[me], t.dests[d]);
      }
    }
  }

  lemma {:induction false} StartPublishKeeps(s: State, action: Action)
    requires StateOk(s) && action.StartPublish? && Next(s, action).Some?
    ensures StateOk(Next(s, action).value)
  {
    hide CleanerOk, RemovalOk, SourceOk;
    var t := Next(s, action).value;
    forall other | other in t.publishers
      ensures Placed(other, t.src, DiskAt(t.dests, t.publishers[other].dest), t.publishers[other])
    {
      if other == action.me {
        assert !Active(t.publishers[other]);
      }
    }
  }

  lemma {:induction false} OthersArePlaced(
    me: Process, other: Process, src: Source, disk: Option<Directory>, later: Option<Directory>, q: Publisher)
    requires me != other && Placed(other, src, disk, q)
    requires later == disk || (later.Some? && later.value.owner == me && (disk.Some? ==> disk.value.owner == me))
    ensures Placed(other, src, later, q)
  {
  }

  lemma {:induction false} PublishGrows(s: State, me: Process, step: PublishStep)
    requires StateOk(s) && PublishIn(s, me, step).Some?
    ensures Grows(s.dests, PublishIn(s, me, step).value.dests)
  {
    hide CleanerOk, RemovalOk, Placed, SourceOk, PublishNext;
    var p := s.publishers[me];
    var disk := DiskAt(s.dests, p.dest);
    if disk.Some? && disk.value.complete {
      SealedIsLeftAlone(me, s.src, disk, p, step);
    }
  }

  lemma {:induction false} PublishKeeps(s: State, me: Process, step: PublishStep)
    requires StateOk(s) && PublishIn(s, me, step).Some?
    ensures StateOk(PublishIn(s, me, step).value)
  {
    hide CleanerOk, RemovalOk, Placed, SourceOk, NoticeOne, Moves, PublishNext, Grows;
    var t := PublishIn(s, me, step).value;
    var p := s.publishers[me];
    var disk := DiskAt(s.dests, p.dest);
    PublishIsPlaced(me, s.src, disk, p, step);
    PublishTouchesItsOwn(me, s.src, disk, p, step);
    PublishGrows(s, me, step);
    StayingMoves(s.src);
    BystandersMove(s, s.src, t.dests);
    forall other | other in t.publishers
      ensures Placed(other, t.src, DiskAt(t.dests, t.publishers[other].dest), t.publishers[other])
    {
      if other != me && s.publishers[other].dest == p.dest {
        OthersArePlaced(me, other, s.src, disk, DiskAt(t.dests, p.dest), s.publishers[other]);
      }
    }
  }

  lemma {:induction false} ReceiptIsHonest(src: Source, p: Publisher)
    requires PublisherOk(src, p) && p.stage.Published?
    ensures Honest(src, ReceiptOf(p))
  {
  }

  lemma {:induction false} StartCleanKeeps(s: State, me: Process, a: Process, b: Process)
    requires StateOk(s) && StartCleanIn(s, me, a, b).Some?
    ensures StateOk(StartCleanIn(s, me, a, b).value)
  {
    hide RemovalOk, SourceOk, PublisherOk, DirectoryOk, Honest, Verified;
    assert Placed(a, s.src, DiskAt(s.dests, s.publishers[a].dest), s.publishers[a]);
    assert Placed(b, s.src, DiskAt(s.dests, s.publishers[b].dest), s.publishers[b]);
    ReceiptIsHonest(s.src, s.publishers[a]);
    ReceiptIsHonest(s.src, s.publishers[b]);
  }

  /** Except for the unlink, a cleaner only looks. */
  lemma {:induction false} QuietStepIsOk(src: Source, dests: map<Destination, Directory>, c: Cleaner, step: CleanStep)
    requires CleanerOk(src, dests, c) && !step.Unlink? && CleanNext(src, dests, c, step).Some?
    ensures var after := CleanNext(src, dests, c, step).value;
            after.src == src && after.removal.None? && CleanerOk(src, dests, after.c)
  {
    hide Honest, Verified;
  }

  /** The bytes a record of the snapshot stands for are the bytes of the identity. */
  lemma {:induction false} VerifiedHasCopies(src: Source, dests: map<Destination, Directory>, receipt: Receipt, n: Name)
    requires Honest(src, receipt) && Verified(dests, receipt, receipt.manifest.identities)
    requires n in receipt.manifest.identities && n != CATALOGUE
    ensures HasCopy(src, dests, receipt.dest, n, receipt.manifest.identities[n])
  {
    assert n in receipt.manifest.files by {
      assert n in receipt.manifest.identities.Keys - {CATALOGUE};
    }
    assert Holds(dests[receipt.dest], n, receipt.manifest.files[n]);
  }

  lemma {:induction false} UnlinkIsOk(src: Source, dests: map<Destination, Directory>, c: Cleaner)
    requires CleanerOk(src, dests, c) && UnlinkNext(src, c).Some?
    ensures var after := UnlinkNext(src, c).value;
            && CleanerOk(after.src, dests, after.c)
            && (after.removal.Some? ==> RemovalOk(src, dests, after.removal.value))
            && (after.src == src || after.src == src.(names := src.names - {c.name}))
  {
    hide Honest, Verified;
    if c.name != CATALOGUE {
      VerifiedHasCopies(src, dests, c.first, c.name);
      VerifiedHasCopies(src, dests, c.second, c.name);
    }
    HonestySurvivesUnlink(src, c.first, c.name);
    HonestySurvivesUnlink(src, c.second, c.name);
  }

  lemma {:induction false} HonestySurvivesUnlink(src: Source, receipt: Receipt, n: Name)
    requires Honest(src, receipt)
    ensures Honest(src.(names := src.names - {n}), receipt)
  {
  }

  lemma {:induction false} CleanKeeps(s: State, me: Process, step: CleanStep)
    requires StateOk(s) && CleanIn(s, me, step).Some?
    ensures StateOk(CleanIn(s, me, step).value)
  {
    hide CleanerOk, RemovalOk, Placed, SourceOk, NoticeOne, Evolves, Resolve, CleanNext;
    var t := CleanIn(s, me, step).value;
    var c := s.cleaners[me];
    StayingMoves(s.src);
    if step.Unlink? {
      UnlinkStep(s.src, s.dests, c);
      UnlinkIsOk(s.src, s.dests, c);
      UnlinkMoves(s.src, c.name);
    } else {
      QuietStepIsOk(s.src, s.dests, c, step);
    }
    BystandersMove(s, t.src, s.dests);
    forall r | r in t.removals ensures RemovalOk(t.src, t.dests, r) {
      if r !in s.removals {
        RemovalMoves(s.src, t.src, s.dests, s.dests, r);
      }
    }
  }

  lemma {:induction false} UnlinkStep(src: Source, dests: map<Destination, Directory>, c: Cleaner)
    ensures CleanNext(src, dests, c, Unlink) == UnlinkNext(src, c)
  {
  }

  lemma {:induction false} NextKeeps(s: State, action: Action)
    requires StateOk(s) && Next(s, action).Some?
    ensures StateOk(Next(s, action).value)
  {
    hide StateOk, PublishIn, StartCleanIn, CleanIn, TamperIn;
    match action
    case Env(m) => EnvKeeps(s, m);
    case Tamper(d, files, manifest, n, marker) => TamperKeeps(s, d, files, manifest, n, marker);
    case StartPublish(_, _, _, _, _) => StartPublishKeeps(s, action);
    case Publish(me, step) => PublishKeeps(s, me, step);
    case StartClean(me, a, b) => StartCleanKeeps(s, me, a, b);
    case Clean(me, step) => CleanKeeps(s, me, step);
  }

  lemma {:induction false} RunKeeps(s: State, actions: seq<Action>)
    requires StateOk(s) && Run(s, actions).Some?
    ensures StateOk(Run(s, actions).value)
    decreases |actions|
  {
    hide StateOk, Next;
    if actions != [] {
      NextKeeps(s, actions[0]);
      RunKeeps(Next(s, actions[0]).value, actions[1..]);
    }
  }

  // ------------------------------------------------------------ main claims

  /**
    Whatever was interleaved and wherever it stopped: every raw file ever unlinked has its snapshotted
    content, byte for byte, in two different sealed destinations.
   */
  lemma {:induction false} UnlinkedFilesAreKeptTwice(src: Source, actions: seq<Action>, r: Removal)
    requires SourceOk(src) && Run(Init(src), actions).Some?
    requires var s := Run(Init(src), actions).value; r in s.removals && r.name != CATALOGUE
    ensures var s := Run(Init(src), actions).value;
            && r.first != r.second
            && HasCopy(s.src, s.dests, r.first, r.name, r.expected)
            && HasCopy(s.src, s.dests, r.second, r.name, r.expected)
  {
    hide Next, Placed, CleanerOk, SourceOk, HasCopy, Run;
    RunKeeps(Init(src), actions);
  }

  /**
    What was unlinked is what was snapshotted if and only if nothing changed the name between the last
    look at its identity and the unlink.
   */
  lemma {:induction false} UnlinkTakesTheSnapshottedFile(src: Source, actions: seq<Action>, r: Removal)
    requires SourceOk(src) && Run(Init(src), actions).Some? && r in Run(Init(src), actions).value.removals
    ensures r.removed == r.expected <==> !r.disturbed
  {
    hide Next, Placed, CleanerOk, SourceOk, HasCopy, Run;
    RunKeeps(Init(src), actions);
  }

  /**
    A reserved destination that nobody touched since its publisher began to read it back passes the
    structural audit exactly when its publication got past the final link, had at least one file, and wrote a
    manifest short enough to be read.
   */
  lemma {:induction false} AuditAgreesWithPublication(src: Source, actions: seq<Action>, d: Destination)
    requires SourceOk(src) && Run(Init(src), actions).Some?
    requires var s := Run(Init(src), actions).value; d in s.dests && !s.dests[d].late
    ensures var s := Run(Init(src), actions).value;
            && s.dests[d].owner in s.publishers
            && var p := s.publishers[s.dests[d].owner];
               && p.dest == d
               && (AuditAccepts(s.dests[d]) <==> p.stage.Published? && p.records != map[] && ManifestFits(p))
  {
    hide Next, CleanerOk, SourceOk, RemovalOk, AuditAccepts, Placed, Run;
    RunKeeps(Init(src), actions);
    var s := Run(Init(src), actions).value;
    AuditIffPublished(s.dests[d].owner, s.src, s.publishers[s.dests[d].owner], s.dests[d]);
  }

  /**
    Such a destination passes the whole audit of a copy exactly when its publication got past the final
    link with a manifest short enough, its provenance and spool path are the expected ones, and what was
    snapshotted of the capture is accepted health and the plan its provenance names.
   */
  lemma {:induction false} AuditAcceptsIff(
    src: Source, actions: seq<Action>, d: Destination, root: string, e: Expectation, decode: Bytes -> Option<Document>)
    requires SourceOk(src) && Run(Init(src), actions).Some?
    requires var s := Run(Init(src), actions).value; d in s.dests && !s.dests[d].late
    ensures var s := Run(Init(src), actions).value;
            && s.dests[d].owner in s.publishers
            && var p := s.publishers[s.dests[d].owner];
               CopyAccepted(root, s.dests[d], e, decode) <==>
                 && p.stage.Published? && ManifestFits(p)
                 && ClaimsOk(p.claims, root, e)
                 && HealthOk(Snapshotted(s.src, p.original, HEALTH), e, decode)
                 && PlanOk(Snapshotted(s.src, p.original, PLAN), p.claims)
  {
    hide Next, CleanerOk, SourceOk, RemovalOk, CopyAccepted, Placed;
    hide Run, ClaimsOk, HealthOk, PlanOk, Snapshotted, ManifestFits;
    RunKeeps(Init(src), actions);
    var s := Run(Init(src), actions).value;
    CopyAcceptedIff(s.dests[d].owner, s.src, s.publishers[s.dests[d].owner], s.dests[d], root, e, decode);
  }

  /** The pair check of the audit: both copies accepted, and equal once the regenerated catalogue is set aside. */
  predicate PairAccepted(work: Directory, archive: Directory) {
    && AuditAccepts(work) && AuditAccepts(archive)
    && CATALOGUE in work.manifest.value.files
    && work.manifest.value.files - {CATALOGUE} == archive.manifest.value.files
  }

  /**
    Two such copies of one unchanged chunk, both past their final link, pass the pair check exactly
    when the first regenerated its catalogue, the second did not, there is a raw file at all, and both
    manifests are short enough to be read.
   */
  lemma {:induction false} TwinCopiesAgree(src: Source, actions: seq<Action>, a: Process, b: Process)
    requires SourceOk(src) && Run(Init(src), actions).Some?
    requires var s := Run(Init(src), actions).value;
             && a in s.publishers && b in s.publishers
             && s.publishers[a].stage.Published? && s.publishers[b].stage.Published?
             && s.publishers[a].original == s.publishers[b].original
             && s.publishers[a].dest in s.dests && !s.dests[s.publishers[a].dest].late
             && s.publishers[b].dest in s.dests && !s.dests[s.publishers[b].dest].late
    ensures var s := Run(Init(src), actions).value;
            var p, q := s.publishers[a], s.publishers[b];
            PairAccepted(s.dests[p.dest], s.dests[q.dest]) <==>
              && p.catalogue && !q.catalogue && p.original.Keys - {CATALOGUE} != {}
              && ManifestFits(p) && ManifestFits(q)
  {
    hide Next, CleanerOk, SourceOk, RemovalOk, AuditAccepts, PublisherOk, DirectoryOk, Run, ManifestFits;
    RunKeeps(Init(src), actions);
    var s := Run(Init(src), actions).value;
    var p, q := s.publishers[a], s.publishers[b];
    AuditIffPublished(a, s.src, p, s.dests[p.dest]);
    AuditIffPublished(b, s.src, q, s.dests[q.dest]);
    PublishedIsComplete(a, s.src, p, s.dests[p.dest]);
    PublishedIsComplete(b, s.src, q, s.dests[q.dest]);
    TwinRecords(s.src, p, q);
    var raw := p.original.Keys - {CATALOGUE};
    assert !q.catalogue ==> q.records - {CATALOGUE} == q.records;
    if raw != {} {
      assert p.records != map[] && q.records != map[] by {
        var n :| n in raw;
        assert n in (p.records - {CATALOGUE}).Keys && n in (q.records - {CATALOGUE}).Keys;
      }
    } else {
      assert (q.records - {CATALOGUE}) == map[];
    }
  }

  lemma {:induction false} InitIsOk(src: Source)
    requires SourceOk(src)
    ensures StateOk(Init(src))
  {
  }

  /** The whole audit of a chunk: both copies in full, then the pair. */
  predicate PairAudited(
    work: Directory, archive: Directory, workRoot: string, archiveRoot: string, e: Expectation,
    decode: Bytes -> Option<Document>)
  {
    && CopyAccepted(workRoot, work, e, decode) && CopyAccepted(archiveRoot, archive, e, decode)
    && PairAccepted(work, archive)
  }

  /**
    Two such copies of one unchanged chunk, both past their final link, pass the whole audit exactly when
    the first regenerated its catalogue and the second did not, both say of their origin what is expected,
    and the capture that was snapshotted ended in accepted health under the planned window.
   */
  lemma {:induction false} PairIsAuditedIff(
    src: Source, actions: seq<Action>, a: Process, b: Process, workRoot: string, archiveRoot: string,
    e: Expectation, decode: Bytes -> Option<Document>)
    requires SourceOk(src) && Run(Init(src), actions).Some?
    requires var s := Run(Init(src), actions).value;
             && a in s.publishers && b in s.publishers
             && s.publishers[a].stage.Published? && s.publishers[b].stage.Published?
             && s.publishers[a].original == s.publishers[b].original
             && s.publishers[a].dest in s.dests && !s.dests[s.publishers[a].dest].late
             && s.publishers[b].dest in s.dests && !s.dests[s.publishers[b].dest].late
    ensures var s := Run(Init(src), actions).value;
            var p, q := s.publishers[a], s.publishers[b];
            PairAudited(s.dests[p.dest], s.dests[q.dest], workRoot, archiveRoot, e, decode) <==>
              && p.catalogue && !q.catalogue && ManifestFits(p) && ManifestFits(q)
              && ClaimsOk(p.claims, workRoot, e) && ClaimsOk(q.claims, archiveRoot, e)
              && HealthOk(Snapshotted(s.src, p.original, HEALTH), e, decode)
              && PlanOk(Snapshotted(s.src, p.original, PLAN), p.claims)
              && PlanOk(Snapshotted(s.src, p.original, PLAN), q.claims)
  {
    hide *;
    InitIsOk(src);
    RunKeeps(Init(src), actions);
    var s := Run(Init(src), actions).value;
    var p, q := s.publishers[a], s.publishers[b];
    PlacedAt(s, a);
    PlacedAt(s, b);
    CopyAcceptedIff(a, s.src, p, s.dests[p.dest], workRoot, e, decode);
    CopyAcceptedIff(b, s.src, q, s.dests[q.dest], archiveRoot, e, decode);
    TwinCopiesAgree(src, actions, a, b);
    HealthIsRaw(s.src, p.original, e, decode);
    PairIsBoth(s.dests[p.dest], s.dests[q.dest], workRoot, archiveRoot, e, decode);
  }

  lemma {:induction false} PairIsBoth(
    work: Directory, archive: Directory, workRoot: string, archiveRoot: string, e: Expectation,
    decode: Bytes -> Option<Document>)
    ensures PairAudited(work, archive, workRoot, archiveRoot, e, decode) <==>
      && CopyAccepted(workRoot, work, e, decode)
      && CopyAccepted(archiveRoot, archive, e, decode)
      && PairAccepted(work, archive)
  {
  }

  lemma {:induction false} HealthIsRaw(
    src: Source, original: map<Name, Identity>, e: Expectation, decode: Bytes -> Option<Document>)
    ensures HealthOk(Snapshotted(src, original, HEALTH), e, decode) ==> original.Keys - {CATALOGUE} != {}
  {
    if HealthOk(Snapshotted(src, original, HEALTH), e, decode) {
      assert HEALTH in original.Keys - {CATALOGUE};
    }
  }

  lemma {:induction false} PlacedAt(s: State, me: Process)
    requires StateOk(s) && me in s.publishers && s.publishers[me].dest in s.dests && s.publishers[me].stage.Published?
    ensures var dir := s.dests[s.publishers[me].dest];
            Placed(me, s.src, Some(dir), s.publishers[me]) && dir.owner == me
  {
    hide CleanerOk, SourceOk, RemovalOk, PublisherOk, DirectoryOk;
  }

  lemma {:induction false} PublishedIsComplete(me: Process, src: Source, p: Publisher, dir: Directory)
    requires Placed(me, src, Some(dir), p) && p.stage.Published?
    ensures dir.owner == me && dir.complete
  {
  }
}
