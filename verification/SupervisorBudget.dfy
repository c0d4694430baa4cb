/**
  What the guard of a boot recovery does for the retry budget. A campaign whose runtime recorded its own
  failure is never recovered; whether a classified failure can slip past the budget is decided by the guard.
 */
module SupervisorBudget {
  import opened Wrappers
  import opened Supervisor
  import opened SupervisorClaims

  // ---------------------------------------------------------- reading a log

  /** Classified campaigns since the last accepted completion. */
  function ClassifiedSince(log: seq<Event>): set<Campaign> {
    if log == [] then {}
    else
      var rest := ClassifiedSince(log[..|log| - 1]);
      match log[|log| - 1]
      case Completed(_) => {}
      case Classified(c, _, _) => rest + {c}
      case _ => rest
  }

  /** Campaigns granted a retry since the last accepted completion. */
  function RetriedSince(log: seq<Event>): set<Campaign> {
    if log == [] then {}
    else
      var rest := RetriedSince(log[..|log| - 1]);
      match log[|log| - 1]
      case Completed(_) => {}
      case Failed(c) => rest + {c}
      case _ => rest
  }

  ghost predicate EverClassified(log: seq<Event>, c: Campaign) {
    exists k :: 0 <= k < |log| && log[k].Classified? && log[k].campaign == c
  }

  /** Some classified failure of this campaign had been recorded by its runtime. */
  ghost predicate EverReported(log: seq<Event>, c: Campaign) {
    exists k :: 0 <= k < |log| && log[k].Classified? && log[k].campaign == c && log[k].reported
  }

  ghost predicate EverRetried(log: seq<Event>, c: Campaign) {
    exists k :: 0 <= k < |log| && log[k] == Failed(c)
  }

  lemma {:induction false} OneMoreBook(log: seq<Event>, e: Event, c: Campaign)
    ensures ClassifiedSince(log + [e]) ==
            if e.Completed? then {}
            else if e.Classified? then ClassifiedSince(log) + {e.campaign}
            else ClassifiedSince(log)
    ensures RetriedSince(log + [e]) ==
            if e.Completed? then {} else if e.Failed? then RetriedSince(log) + {e.campaign} else RetriedSince(log)
    ensures EverClassified(log + [e], c) <==> EverClassified(log, c) || (e.Classified? && e.campaign == c)
    ensures EverReported(log + [e], c) <==> EverReported(log, c) || (e.Classified? && e.campaign == c && e.reported)
    ensures EverRetried(log + [e], c) <==> EverRetried(log, c) || e == Failed(c)
  {
    var more := log + [e];
    assert more[..|more| - 1] == log && more[|log|] == e;
    assert forall k :: 0 <= k < |log| ==> more[k] == log[k];
  }

  lemma {:induction false} SinceIsEver(log: seq<Event>, c: Campaign)
    ensures c in ClassifiedSince(log) ==> EverClassified(log, c)
    ensures c in RetriedSince(log) ==> EverRetried(log, c)
    decreases |log|
  {
    if log != [] {
      var rest := log[..|log| - 1];
      SinceIsEver(rest, c);
      OneMoreBook(rest, log[|log| - 1], c);
      assert rest + [log[|log| - 1]] == log;
    }
  }

  // -------------------------------------------------------------- invariant

  /** The campaign in a document, and what the log and the spools know of it. */
  ghost predicate DocumentBooks(w: World, doc: Document) {
    && (doc.current.None? ==> doc.graceful.campaign.None? && Untouched(w.log))
    && (doc.graceful.campaign.Some? ==> doc.graceful.campaign.value < w.next)
    && (doc.current.Some? ==>
          var g := doc.current.value;
          && (doc.graceful.campaign == Some(g.campaign) || EverRetried(w.log, g.campaign) ==>
                !InService(w, doc) || doc.phase.Paused?)
          && (EverClassified(w.log, g.campaign) ==> LiesStill(w, g)))
    && forall c: Campaign :: EverReported(w.log, c) ==> doc.graceful.campaign != Some(c)
  }

  ghost predicate Untouched(log: seq<Event>) {
    forall k :: 0 <= k < |log| ==> !log[k].Classified? && !log[k].Failed?
  }

  /** A campaign that was classified: it is the one in the container, and its runtime is gone. */
  predicate LiesStill(w: World, g: Generation) {
    && g.admitted && w.container.Some? && w.container.value.campaign == g.campaign
    && !Alive(w) && SpoolOf(w, g.campaign).report.Some?
  }

  /** Past the guard of a recovery, and while a failure is being audited. */
  ghost predicate PointBooks(w: World, p: Process) {
    match p.at
    case StoppingOld => p.doc.current.Some? ==> !EverReported(w.log, p.doc.current.value.campaign)
    case Audit(purpose) => PurposeBooks(w, p, purpose)
    case AfterAudit(purpose) => PurposeBooks(w, p, purpose)
    case LaunchUpdate(_) => Unknown(w.log, p.doc)
    case LaunchWaiting => Unknown(w.log, p.doc)
    case AdoptionChecks => Unknown(w.log, p.doc)
    case _ => true
  }

  /** The campaign in the document has just got its number. */
  ghost predicate Unknown(log: seq<Event>, doc: Document) {
    doc.current.Some? ==>
      var c := doc.current.value.campaign;
      !EverClassified(log, c) && !EverRetried(log, c) && doc.graceful.campaign != Some(c)
  }

  ghost predicate PurposeBooks(w: World, p: Process, purpose: Purpose) {
    p.doc.current.Some? ==>
      && (purpose.ForRecovery? ==> !EverReported(w.log, p.doc.current.value.campaign))
      && (purpose.ForRetry? ==> p.doc.current.value.campaign in ClassifiedSince(w.log))
  }

  ghost predicate EntryOk(log: seq<Event>, i: nat)
    requires i < |log|
  {
    match log[i]
    case Recovered(c) => !EverReported(log[..i], c)
    case Failed(c) => c in ClassifiedSince(log[..i]) && !EverRetried(log[..i], c)
    case _ => true
  }

  ghost predicate Entries(log: seq<Event>) {
    forall i {:trigger EntryOk(log, i)} :: 0 <= i < |log| ==> EntryOk(log, i)
  }

  /** Campaigns are numbered in the order they are launched. */
  ghost predicate Numbered(w: World) {
    && (forall c :: c in w.spools ==> c < w.next)
    && (w.container.Some? ==> w.container.value.campaign < w.next)
    && (forall k :: 0 <= k < |w.log| && (w.log[k].Classified? || w.log[k].Failed?) ==> w.log[k].campaign < w.next)
  }

  ghost predicate Books(w: World) {
    && Numbered(w)
    && Entries(w.log)
    && (forall c: Campaign :: EverReported(w.log, c) ==> Reported(SpoolOf(w, c)))
    && DocumentBooks(w, Load(w))
    && (w.process.Some? ==> DocumentBooks(w, w.process.value.doc) && PointBooks(w, w.process.value))
  }

  lemma {:induction false} InitBooks(max: nat, first: First)
    ensures Books(Init(max, first))
  {
  }

  // --------------------------------------------------- every step keeps it

  lemma {:induction false} EntriesGrow(log: seq<Event>, e: Event)
    requires Entries(log) && EntryOk(log + [e], |log|)
    ensures Entries(log + [e])
  {
    hide EverReported, EverRetried, ClassifiedSince;
    forall i | 0 <= i < |log + [e]| ensures EntryOk(log + [e], i) {
      if i < |log| {
        assert EntryOk(log, i);
        assert (log + [e])[..i] == log[..i];
      }
    }
  }

  /** Events that neither classify nor settle leave the readings of a log alone. */
  lemma {:induction false} QuietEvent(log: seq<Event>, e: Event)
    requires !e.Classified? && !e.Failed? && !e.Completed?
    ensures ClassifiedSince(log + [e]) == ClassifiedSince(log)
    ensures forall c: Campaign :: EverClassified(log + [e], c) == EverClassified(log, c)
    ensures forall c: Campaign :: EverReported(log + [e], c) == EverReported(log, c)
    ensures forall c: Campaign :: EverRetried(log + [e], c) == EverRetried(log, c)
    ensures Untouched(log + [e]) == Untouched(log)
    ensures Entries(log) && (e.Recovered? ==> !EverReported(log, e.campaign)) ==> Entries(log + [e])
  {
    forall c: Campaign
      ensures EverClassified(log + [e], c) == EverClassified(log, c)
      ensures EverReported(log + [e], c) == EverReported(log, c)
      ensures EverRetried(log + [e], c) == EverRetried(log, c)
    {
      OneMoreBook(log, e, c);
    }
    OneMoreBook(log, e, ADOPTED);
    assert (log + [e])[..|log|] == log && (log + [e])[|log|] == e;
    hide EverClassified, EverReported, EverRetried, ClassifiedSince;
    if Entries(log) && (e.Recovered? ==> !EverReported(log, e.campaign)) {
      EntriesGrow(log, e);
    }
    assert forall k :: 0 <= k < |log| ==> (log + [e])[k] == log[k];
  }

  /** What the invariant of the supervisor says of a process and its document. */
  lemma {:induction false} InMemory(w: World, p: Process)
    requires WorldOk(w) && w.process == Some(p)
    ensures p.doc.current.Some? ==> p.doc.current.value.campaign < w.next
    ensures Working(p.at) ==> !p.doc.phase.Paused? && !p.doc.phase.Stopped?
    ensures p.at.Recovering? || p.at.StoppingOld? ==> OfAnotherBoot(w, p.doc)
    ensures p.at.Observed? || ((p.at.Audit? || p.at.AfterAudit?) && !p.at.purpose.ForRecovery?) ==> InService(w, p.doc)
    ensures p.at.LaunchUpdate? ==> w.disk == Some(p.doc)
  {
    hide BudgetOk, LogOk, Closed, Ready, Brought, AdoptingOk;
  }

  lemma {:induction false} EnvBooks(w: World, a: Action)
    requires WorldOk(w) && Books(w) && EnvNext(w, a).Some? && !a.Reboots?
    ensures Books(EnvNext(w, a).value)
  {
    hide WorldOk, EverClassified, EverReported, EverRetried, ClassifiedSince, Entries, Untouched;
  }

  lemma {:induction false} RebootBooks(w: World, restarts: bool, left: seq<Health>)
    requires WorldOk(w) && Books(w)
    ensures Books(EnvNext(w, Reboots(restarts, left)).value)
  {
    QuietEvent(w.log, Rebooted(if restarts && w.container.Some? then Some(w.container.value.campaign) else None));
    hide WorldOk, EverClassified, EverReported, EverRetried, ClassifiedSince, Entries, Untouched;
  }

  lemma {:induction false} UntouchedNever(log: seq<Event>, c: Campaign)
    requires Untouched(log)
    ensures !EverClassified(log, c) && !EverReported(log, c) && !EverRetried(log, c)
  {
  }

  lemma {:induction false} AdoptBooks(w: World, p: Process, pinned: Boot)
    requires WorldOk(w) && Books(w) && w.process == Some(p) && SupervisorNext(w, p, Adopts(pinned)).Some?
    ensures Books(SupervisorNext(w, p, Adopts(pinned)).value)
  {
    InMemory(w, p);
    UntouchedNever(w.log, ADOPTED);
    hide WorldOk, EverClassified, EverReported, EverRetried, ClassifiedSince, Entries, Untouched;
  }

  /** The process stores a document, or goes on with one, and nothing else changes. */
  lemma {:induction false} StoreBooks(w: World, v: World)
    requires Books(w) && v == w.(disk := v.disk, process := v.process)
    requires v.disk == w.disk || (v.disk.Some? && DocumentBooks(w, v.disk.value))
    requires v.process.Some? ==> DocumentBooks(w, v.process.value.doc) && PointBooks(w, v.process.value)
    ensures Books(v)
  {
    hide EverClassified, EverReported, EverRetried, ClassifiedSince, Entries, Untouched;
  }

  lemma {:induction false} LastWordBooks(w: World, doc: Document, graceful: bool)
    requires Books(w) && DocumentBooks(w, doc) && (graceful ==> MayStopGracefully(w, doc))
    requires doc.current.Some? ==> doc.current.value.campaign < w.next
    ensures DocumentBooks(w, LastWord(w, doc, graceful))
  {
    hide EverClassified, EverReported, EverRetried, ClassifiedSince, Entries, Untouched;
  }

  /** With another phase the books on a document are the same, unless that puts its campaign back into service. */
  lemma {:induction false} PhaseBooks(w: World, doc: Document, phase: Phase)
    requires DocumentBooks(w, doc)
    requires phase.Paused? || !InService(w, doc.(phase := phase)) || (InService(w, doc) && !doc.phase.Paused?)
    ensures DocumentBooks(w, doc.(phase := phase))
  {
    hide EverClassified, EverReported, EverRetried, Untouched;
  }

  lemma {:induction false} PersistBooks(w: World, p: Process, graceful: bool)
    requires WorldOk(w) && Books(w) && w.process == Some(p) && PersistNext(w, p, graceful).Some?
    ensures Books(PersistNext(w, p, graceful).value)
  {
    InMemory(w, p);
    MemoryIsBooked(w, p);
    hide WorldOk, Books, DocumentBooks, LastWord;
    var v := PersistNext(w, p, graceful).value;
    if !p.at.PauseCommand? && !p.at.StopCommand? {
      LastWordBooks(w, p.doc, graceful);
    } else {
      PhaseBooks(w, p.doc, Paused);
    }
    StoreBooks(w, v);
  }

  lemma {:induction false} MemoryIsBooked(w: World, p: Process)
    requires Books(w) && w.process == Some(p)
    ensures DocumentBooks(w, p.doc) && PointBooks(w, p)
  {
  }

  lemma {:induction false} QuietBooks(w: World, p: Process, a: Action)
    requires Books(w) && w.process == Some(p) && SupervisorNext(w, p, a).Some?
    requires a.Ticks? || a.Raises? || a.Loses?
    ensures Books(SupervisorNext(w, p, a).value)
  {
    MemoryIsBooked(w, p);
    hide Books, DocumentBooks, PurposeBooks, Unknown;
    var v := SupervisorNext(w, p, a).value;
    if a.Raises? {
      RetriesBooks(w, p.doc, v.process.value.doc.retries);
    }
    StoreBooks(w, v);
  }

  lemma {:induction false} ReportBooks(w: World, p: Process, phase: Phase)
    requires WorldOk(w) && Books(w) && w.process == Some(p) && SupervisorNext(w, p, Reports(phase)).Some?
    ensures Books(SupervisorNext(w, p, Reports(phase)).value)
  {
    InMemory(w, p);
    hide WorldOk, EverClassified, EverReported, EverRetried, ClassifiedSince, Entries, Untouched;
  }

  lemma {:induction false} CleanBooks(w: World, p: Process, stops: bool)
    requires Books(w) && w.process == Some(p) && CleanNext(w, p, stops).Some?
    ensures Books(CleanNext(w, p, stops).value)
  {
    hide Books, DocumentBooks;
    var idle := w.(process := None);
    StoreBooks(w, idle);
    if stops {
      EndedBooks(idle);
      QuietlyLogged(idle.(container := Some(Ended(w.container.value))), Stops(w.container.value.campaign, Cleanup));
    }
  }

  lemma {:induction false} EnterBooks(w: World, p: Process)
    requires Books(w) && w.process == Some(p) && p.at.Entering?
    ensures Books(EnterNext(w, p))
  {
    MemoryIsBooked(w, p);
    hide Books, DocumentBooks;
    if OfAnotherBoot(w, p.doc) {
      PhaseBooks(w, p.doc, Auditing);
    }
    StoreBooks(w, EnterNext(w, p));
  }

  lemma {:induction false} LoopBooks(w: World, p: Process, g: Generation)
    requires WorldOk(w) && Books(w) && w.process == Some(p) && p.at.AtLoop? && p.doc.current == Some(g)
    requires LoopNext(w, p, g).Some? && LoopNext(w, p, g).value.log == w.log
    ensures Books(LoopNext(w, p, g).value)
  {
    InMemory(w, p);
    MemoryIsBooked(w, p);
    hide WorldOk, Books, DocumentBooks, TransportFailure;
    PhaseAllowed(w, p, g);
    StoreBooks(w, LoopNext(w, p, g).value);
  }

  lemma {:induction false} PhaseAllowed(w: World, p: Process, g: Generation)
    requires DocumentBooks(w, p.doc) && p.doc.current == Some(g) && !p.doc.phase.Paused? && !p.doc.phase.Stopped?
    ensures g.boot != w.boot || !Closing(p.doc.phase) ==> DocumentBooks(w, p.doc.(phase := Auditing))
  {
    hide DocumentBooks;
    if g.boot != w.boot || !Closing(p.doc.phase) {
      PhaseBooks(w, p.doc, Auditing);
    }
  }

  /** A failure is classified of a campaign in service: no document speaks of a graceful stop of it. */
  lemma {:induction false} ClassifyBooks(w: World, p: Process, g: Generation)
    requires WorldOk(w) && Books(w) && w.process == Some(p) && p.at.AtLoop? && p.doc.current == Some(g)
    requires LoopNext(w, p, g).Some? && LoopNext(w, p, g).value.log != w.log
    ensures Books(LoopNext(w, p, g).value)
  {
    InMemory(w, p);
    hide WorldOk, Books, TransportFailure;
    var v := LoopNext(w, p, g).value;
    var auditing := p.doc.(phase := Auditing);
    MemoryIsBooked(w, p);
    PhaseAllowed(w, p, g);
    NotStoppedInService(w, p.doc, g);
    ClassifiedBooks(w, auditing, g, v);
  }

  lemma {:induction false} NotStoppedInService(w: World, doc: Document, g: Generation)
    requires DocumentBooks(w, doc) && doc.current == Some(g) && InService(w, doc) && !doc.phase.Paused?
    ensures doc.graceful.campaign != Some(g.campaign)
  {
    hide EverClassified, EverReported, EverRetried, Untouched;
  }

  lemma {:induction false} ClassifiedBooks(w: World, doc: Document, g: Generation, v: World)
    requires Books(w) && DocumentBooks(w, doc) && doc.current == Some(g) && doc.graceful.campaign != Some(g.campaign)
    requires LiesStill(w, g) && g.campaign < w.next && w.process.Some?
    requires var e := Classified(g.campaign, SpoolOf(w, g.campaign).native, Reported(SpoolOf(w, g.campaign)));
             v == w.(disk := Some(doc), log := w.log + [e],
                     process := Some(w.process.value.(doc := doc, at := Audit(ForRetry))))
    ensures Books(v)
  {
    var e := v.log[|w.log|];
    forall c: Campaign
      ensures EverClassified(v.log, c) <==> EverClassified(w.log, c) || c == g.campaign
      ensures EverReported(v.log, c) <==> EverReported(w.log, c) || (c == g.campaign && e.reported)
      ensures EverRetried(v.log, c) <==> EverRetried(w.log, c)
    {
      OneMoreBook(w.log, e, c);
    }
    OneMoreBook(w.log, e, g.campaign);
    hide EverClassified, EverReported, EverRetried, ClassifiedSince, Untouched;
    EntriesGrow(w.log, e);
  }

  /** The guard lets no campaign pass whose failure was recorded. */
  lemma {:induction false} GuardBooks(w: World, p: Process, g: Generation)
    requires WorldOk(w) && Books(w) && w.process == Some(p) && p.at.Recovering? && p.doc.current == Some(g)
    requires ProceedNext(w, p).Some?
    ensures Books(ProceedNext(w, p).value)
  {
    InMemory(w, p);
    hide WorldOk, EverClassified, EverReported, EverRetried, ClassifiedSince, Entries, Untouched;
  }

  /** A quiet event leaves the books on every document as they are. */
  lemma {:induction false} QuietDocument(w: World, e: Event, doc: Document)
    requires !e.Classified? && !e.Failed? && !e.Completed? && DocumentBooks(w, doc)
    ensures DocumentBooks(Logged(w, e), doc)
  {
    QuietEvent(w.log, e);
    hide EverClassified, EverReported, EverRetried, Untouched, ClassifiedSince;
  }

  lemma {:induction false} QuietPoint(w: World, e: Event, p: Process)
    requires !e.Classified? && !e.Failed? && !e.Completed? && PointBooks(w, p)
    ensures PointBooks(Logged(w, e), p)
  {
    QuietEvent(w.log, e);
    hide EverClassified, EverReported, EverRetried, Untouched, ClassifiedSince;
  }

  lemma {:induction false} QuietlyLogged(w: World, e: Event)
    requires Books(w) && !e.Classified? && !e.Failed? && !e.Completed?
    requires e.Recovered? ==> !EverReported(w.log, e.campaign)
    ensures Books(Logged(w, e))
  {
    QuietEvent(w.log, e);
    assert forall k :: 0 <= k < |w.log| ==> (w.log + [e])[k] == w.log[k];
    hide EverClassified, EverReported, EverRetried, ClassifiedSince, Entries, Untouched, DocumentBooks, PointBooks;
    QuietDocument(w, e, Load(w));
    if w.process.Some? {
      QuietDocument(w, e, w.process.value.doc);
      QuietPoint(w, e, w.process.value);
    }
  }

  lemma {:induction false} EndedBooks(w: World)
    requires Books(w) && w.container.Some?
    ensures Books(w.(container := Some(Ended(w.container.value))))
  {
    hide EverClassified, EverReported, EverRetried, ClassifiedSince, Entries, Untouched;
  }

  lemma {:induction false} StopOldBooks(w: World, p: Process, g: Generation)
    requires Books(w) && w.process == Some(p) && p.at.StoppingOld? && p.doc.current == Some(g)
    ensures Books(StopOldNext(w, p, g))
  {
    var w1 := if Running(w) then w.(container := Some(Ended(w.container.value))) else w;
    if Running(w) {
      EndedBooks(w);
    }
    MemoryIsBooked(w1, p);
    hide Books, DocumentBooks;
    var w2 := At(w1, p, Audit(ForRecovery));
    StoreBooks(w1, w2);
    if Running(w) {
      QuietlyLogged(w2, Stops(w.container.value.campaign, BootRecovery));
    }
  }

  lemma {:induction false} AuditBooks(w: World, p: Process, g: Generation)
    requires Books(w) && w.process == Some(p) && p.at.Audit? && p.doc.current == Some(g)
    ensures ProceedNext(w, p).Some? && Books(ProceedNext(w, p).value)
  {
    MemoryIsBooked(w, p);
    hide Books, DocumentBooks, PurposeBooks, EverClassified, EverReported, EverRetried;
    var v := Save(w, p, p.doc, AfterAudit(p.at.purpose));
    StoreBooks(w, v);
    QuietlyLogged(v, Audited(g.campaign));
  }

  lemma {:induction false} AcceptBooks(w: World, p: Process, g: Generation)
    requires WorldOk(w) && Books(w) && w.process == Some(p) && p.at == AfterAudit(ForCompletion)
    requires p.doc.current == Some(g)
    ensures Books(AfterAuditNext(w, p, g, ForCompletion))
  {
    InMemory(w, p);
    var e := Completed(g.campaign);
    var more := w.log + [e];
    forall c: Campaign
      ensures EverClassified(more, c) <==> EverClassified(w.log, c)
      ensures EverReported(more, c) <==> EverReported(w.log, c)
      ensures EverRetried(more, c) <==> EverRetried(w.log, c)
    {
      OneMoreBook(w.log, e, c);
    }
    assert more[..|w.log|] == w.log && more[|w.log|] == e;
    hide WorldOk, EverClassified, EverReported, EverRetried, ClassifiedSince;
    EntriesGrow(w.log, e);
  }

  lemma {:induction false} RecoverBooks(w: World, p: Process, g: Generation)
    requires WorldOk(w) && Books(w) && w.process == Some(p) && p.at == AfterAudit(ForRecovery)
    requires p.doc.current == Some(g)
    ensures Books(AfterAuditNext(w, p, g, ForRecovery))
  {
    InMemory(w, p);
    MemoryIsBooked(w, p);
    hide WorldOk, Books, DocumentBooks, EverClassified, EverReported, EverRetried;
    var doc := p.doc.(phase := BetweenCampaigns);
    PhaseBooks(w, p.doc, BetweenCampaigns);
    var v := Save(w, p, doc, LaunchChecks);
    StoreBooks(w, v);
    QuietlyLogged(v, Recovered(g.campaign));
  }

  lemma {:induction false} RetriesBooks(w: World, doc: Document, retries: nat)
    requires DocumentBooks(w, doc)
    ensures DocumentBooks(w, doc.(retries := retries))
  {
    hide EverClassified, EverReported, EverRetried, Untouched;
  }

  lemma {:induction false} GrantBooks(w: World, p: Process, g: Generation)
    requires WorldOk(w) && Books(w) && w.process == Some(p) && p.at == AfterAudit(ForRetry)
    requires p.doc.current == Some(g)
    ensures Books(AfterAuditNext(w, p, g, ForRetry))
  {
    InMemory(w, p);
    MemoryIsBooked(w, p);
    hide WorldOk, Books, DocumentBooks, Save;
    if RetryDelay(p.doc.retries + 1, w.max).None? {
      RefusedBooks(w, p);
    } else {
      RetriedBooks(w, p, g);
    }
  }

  lemma {:induction false} RefusedBooks(w: World, p: Process)
    requires Books(w) && w.process == Some(p) && DocumentBooks(w, p.doc)
    ensures Books(At(w, p.(doc := p.doc.(retries := p.doc.retries + 1)), Failing(false)))
  {
    hide Books, DocumentBooks;
    RetriesBooks(w, p.doc, p.doc.retries + 1);
    StoreBooks(w, At(w, p.(doc := p.doc.(retries := p.doc.retries + 1)), Failing(false)));
  }

  lemma {:induction false} RetriedBooks(w: World, p: Process, g: Generation)
    requires Books(w) && w.process == Some(p) && p.doc.current == Some(g) && g.campaign in ClassifiedSince(w.log)
    requires InService(w, p.doc) && !p.doc.phase.Paused? && g.campaign < w.next
    ensures var doc := p.doc.(phase := RetryWait, retries := p.doc.retries + 1);
            Books(Logged(Save(w, p, doc, AtLoop), Failed(g.campaign)))
  {
    var e := Failed(g.campaign);
    var more := w.log + [e];
    forall c: Campaign
      ensures EverClassified(more, c) <==> EverClassified(w.log, c)
      ensures EverReported(more, c) <==> EverReported(w.log, c)
      ensures EverRetried(more, c) <==> EverRetried(w.log, c) || c == g.campaign
    {
      OneMoreBook(w.log, e, c);
    }
    assert more[..|w.log|] == w.log && more[|w.log|] == e;
    hide EverClassified, EverReported, EverRetried, ClassifiedSince;
    EntriesGrow(w.log, e);
  }

  lemma {:induction false} UpdateBooks(w: World, p: Process, g: Generation, previous: Campaign)
    requires WorldOk(w) && Books(w) && w.process == Some(p) && p.at == LaunchUpdate(previous)
    requires p.doc.current == Some(g)
    ensures Books(UpdateNext(w, p, g, previous))
  {
    InMemory(w, p);
    QuietEvent(w.log, Launched(previous, g.campaign, Running(w)));
    hide WorldOk, EverClassified, EverReported, EverRetried, ClassifiedSince, Entries, Untouched;
  }

  lemma {:induction false} NewIsUnknown(w: World, c: Campaign)
    requires Numbered(w) && c >= w.next
    ensures !EverClassified(w.log, c) && !EverRetried(w.log, c)
  {
  }

  lemma {:induction false} NumberBooks(w: World, doc: Document)
    requires Books(w) && DocumentBooks(w, doc)
    ensures Books(w.(next := w.next + 1))
    ensures var g := Generation(w.next, w.boot, false, false);
            var later := doc.(phase := Admitting, current := Some(g));
            DocumentBooks(w.(next := w.next + 1), later) && Unknown(w.log, later)
  {
    NewIsUnknown(w, w.next);
    hide EverClassified, EverReported, EverRetried, ClassifiedSince, Entries, Untouched;
  }

  lemma {:induction false} AdmitBooks(w: World, doc: Document, g: Generation)
    requires DocumentBooks(w, doc) && doc.current == Some(g) && Unknown(w.log, doc)
    ensures DocumentBooks(w, doc.(phase := Capturing, current := Some(g.(admitted := true))))
  {
    hide EverClassified, EverReported, EverRetried, Untouched;
  }

  lemma {:induction false} LaunchBooks(w: World, p: Process, g: Generation)
    requires Books(w) && w.process == Some(p) && p.doc.current == Some(g)
    requires !p.at.LaunchUpdate? && LaunchNext(w, p, g).Some?
    ensures Books(LaunchNext(w, p, g).value)
  {
    MemoryIsBooked(w, p);
    hide Books, DocumentBooks, Unknown;
    var v := LaunchNext(w, p, g).value;
    if p.at.LaunchSampling? {
      NumberBooks(w, p.doc);
      StoreBooks(w.(next := w.next + 1), v);
    } else {
      if p.at.LaunchWaiting? {
        AdmitBooks(w, p.doc, g);
      }
      StoreBooks(w, v);
    }
  }

  lemma {:induction false} AfterAuditBooks(w: World, p: Process, g: Generation)
    requires WorldOk(w) && Books(w) && w.process == Some(p) && p.at.AfterAudit? && p.doc.current == Some(g)
    ensures Books(AfterAuditNext(w, p, g, p.at.purpose))
  {
    hide Books, WorldOk, AfterAuditNext;
    match p.at.purpose
    case ForRecovery => RecoverBooks(w, p, g);
    case ForCompletion => AcceptBooks(w, p, g);
    case ForRetry => GrantBooks(w, p, g);
  }

  lemma {:induction false} OtherwiseBooks(w: World, p: Process)
    requires WorldOk(w) && Books(w) && w.process == Some(p) && ProceedNext(w, p).Some?
    requires p.at.Sampling? || p.at.Observed? || p.at.AdoptionChecks?
    ensures Books(ProceedNext(w, p).value)
  {
    InMemory(w, p);
    MemoryIsBooked(w, p);
    hide WorldOk, Books, DocumentBooks;
    if p.at.AdoptionChecks? {
      AdoptedPhase(w, p);
    }
    StoreBooks(w, ProceedNext(w, p).value);
  }

  lemma {:induction false} AdoptedPhase(w: World, p: Process)
    requires DocumentBooks(w, p.doc) && PointBooks(w, p) && p.at.AdoptionChecks?
    ensures DocumentBooks(w, p.doc.(phase := Adopting))
  {
    hide EverClassified, EverReported, EverRetried, Untouched;
  }

  lemma {:induction false} ProceedBooks(w: World, p: Process)
    requires WorldOk(w) && Books(w) && w.process == Some(p) && ProceedNext(w, p).Some?
    ensures Books(ProceedNext(w, p).value)
  {
    hide Books, WorldOk, EnterNext, LoopNext, StopOldNext, AfterAuditNext, UpdateNext;
    if p.at.Entering? {
      EnterBooks(w, p);
    } else if p.at.Sampling? || p.at.Observed? || p.at.AdoptionChecks? {
      OtherwiseBooks(w, p);
    } else {
      var g := p.doc.current.value;
      match p.at
      case AtLoop =>
        if LoopNext(w, p, g).value.log == w.log {
          LoopBooks(w, p, g);
        } else {
          ClassifyBooks(w, p, g);
        }
      case Recovering => GuardBooks(w, p, g);
      case StoppingOld => StopOldBooks(w, p, g);
      case Audit(_) => AuditBooks(w, p, g);
      case AfterAudit(_) => AfterAuditBooks(w, p, g);
      case LaunchUpdate(previous) => UpdateBooks(w, p, g, previous);
      case _ => LaunchBooks(w, p, g);
    }
  }

  lemma {:induction false} NextBooks(w: World, a: Action)
    requires WorldOk(w) && Books(w) && Next(w, a).Some?
    ensures Books(Next(w, a).value)
  {
    hide Books, WorldOk, EnvNext, TickNext, RaiseNext, ProceedNext, PersistNext, CleanNext;
    if a.Reboots? {
      RebootBooks(w, a.restarts, a.left);
    } else if IsEnvironment(a) {
      EnvBooks(w, a);
    } else {
      var p := w.process.value;
      match a
      case Proceeds => ProceedBooks(w, p);
      case Persists(graceful) => PersistBooks(w, p, graceful);
      case Cleans(stops) => CleanBooks(w, p, stops);
      case Adopts(pinned) => AdoptBooks(w, p, pinned);
      case Reports(phase) => ReportBooks(w, p, phase);
      case _ => QuietBooks(w, p, a);
    }
  }

  lemma {:induction false} RunBooks(w: World, actions: seq<Action>)
    requires WorldOk(w) && Books(w) && Run(w, actions).Some?
    ensures WorldOk(Run(w, actions).value) && Books(Run(w, actions).value) && Run(w, actions).value.max == w.max
    decreases |actions|
  {
    hide Books, WorldOk, Next;
    if actions != [] {
      NextBooks(w, actions[0]);
      NextKeeps(w, actions[0]);
      MaxStays(w, actions[0]);
      RunBooks(Next(w, actions[0]).value, actions[1..]);
    }
  }

  lemma {:induction false} AllBooks(max: nat, first: First, actions: seq<Action>)
    requires Run(Init(max, first), actions).Some?
    ensures WorldOk(Run(Init(max, first), actions).value) && Books(Run(Init(max, first), actions).value)
    ensures Run(Init(max, first), actions).value.max == max
  {
    hide Books, WorldOk, Run;
    InitIsOk(max, first);
    InitBooks(max, first);
    RunBooks(Init(max, first), actions);
  }
}
