/**
  The campaign supervisor over process lives and host boots. Its state document survives both; what it
  keeps in memory does not. A process may be killed before any step, a signal may arrive at any time,
  the host may reboot, and the managed container may exit on its own. Everything the supervisor asks of
  the host may fail, which raises and ends in the handler of `run`.
 */
module Supervisor {
  import opened Wrappers

  type Boot = nat
  type Campaign = nat

  /** The campaign that was running before the first start and is only observed. */
  const ADOPTED: Campaign := 0

  datatype Phase =
    | Adopting | Admitting | Capturing | Publishing | Auditing | BetweenCampaigns | RetryWait | Paused | Stopped

  /** `admitted` stands for the App configuration digest, which is written last. */
  datatype Generation = Generation(campaign: Campaign, boot: Boot, adopted: bool, admitted: bool)

  /** The last stop that was recorded as graceful: of which campaign, and in which boot. */
  datatype Graceful = Graceful(campaign: Option<Campaign>, boot: Option<Boot>)

  /** The state document. */
  datatype Document = Document(phase: Phase, retries: nat, current: Option<Generation>, graceful: Graceful)

  // ---------------------------------------------- terminal health and retry

  datatype Status = COMPLETED | OPERATOR_STOP | FAILED | OTHER_STATUS

  datatype Health = Health(status: Status, exception: string, integrityEvents: Option<nat>, credentialless: bool)

  const TRANSPORT_ERRORS: set<string> :=
    {"TimeoutError", "ConnectionError", "ConnectionResetError", "ConnectionAbortedError", "ConnectionClosedError"}

  /** Some lane failed, every failed lane failed in transport, and nothing but known clean endings is left. */
  predicate TransportFailure(health: seq<Health>) {
    && (exists i :: 0 <= i < |health| && health[i].status.FAILED?)
    && (forall i :: 0 <= i < |health| && health[i].status.FAILED? ==>
          health[i].exception in TRANSPORT_ERRORS && health[i].integrityEvents == Some(0) && health[i].credentialless)
    && (forall i :: 0 <= i < |health| ==> !health[i].status.OTHER_STATUS? && health[i].integrityEvents == Some(0))
  }

  function Doubled(attempt: nat): nat {
    if attempt == 0 then 30 else 2 * Doubled(attempt - 1)
  }

  /** Seconds to wait before retry `attempt`, or None when the budget is used up. */
  function RetryDelay(attempt: nat, maximum: nat): Option<nat>
    requires attempt >= 1
  {
    if attempt <= maximum then Some(if Doubled(attempt - 1) < 900 then Doubled(attempt - 1) else 900) else None
  }

  /** Waits never shrink from one retry to the next, and from the sixth on they are fifteen minutes. */
  lemma {:induction false} BackoffGrowsToItsCap(attempt: nat, maximum: nat)
    requires 1 <= attempt < maximum
    ensures RetryDelay(attempt, maximum).value <= RetryDelay(attempt + 1, maximum).value <= 900
    ensures RetryDelay(attempt + 1, maximum).value == 900 <==> attempt >= 5
  {
    if attempt >= 5 {
      DoublingPasses(attempt);
    } else {
      assert Doubled(4) == 480;
      DoublingGrows(attempt, 4);
    }
  }

  lemma {:induction false} DoublingGrows(a: nat, b: nat)
    requires a <= b
    ensures Doubled(a) <= Doubled(b)
    decreases b
  {
    if a < b {
      DoublingGrows(a, b - 1);
    }
  }

  lemma {:induction false} DoublingPasses(n: nat)
    requires n >= 5
    ensures Doubled(n) >= 960
  {
    if n > 5 {
      DoublingPasses(n - 1);
    } else {
      assert Doubled(3) == 240;
    }
  }

  // ------------------------------------------------------------------ world

  datatype RuntimePhase = RuntimeStarting | RuntimeCapturing | RuntimePublishing | RuntimeCompleted | RuntimeFailed

  /** The status a runtime writes of itself; `chunk` says whether it names a chunk by then. */
  datatype Report = Report(phase: RuntimePhase, chunk: bool)

  /** What a campaign has left in its spool: the runtime's status and the terminal health of its lanes. */
  datatype Spool = Spool(report: Option<Report>, native: seq<Health>)

  /**
    The managed container. Its runtime is `alive` while it is the one that began the campaign: started
    again over a campaign that has reported something, it gives up before it writes anything.
   */
  datatype Container = Container(campaign: Campaign, running: bool, alive: bool, zero: bool)

  datatype Stopper = Cleanup | BootRecovery

  datatype Event =
    | Audited(campaign: Campaign)
    | Launched(previous: Campaign, campaign: Campaign, replacedRunning: bool)
    | Completed(campaign: Campaign)
    | Classified(campaign: Campaign, native: seq<Health>, reported: bool)
    | Failed(campaign: Campaign)
    | Recovered(campaign: Campaign)
    | Rebooted(brought: Option<Campaign>)
    | Stops(campaign: Campaign, stopper: Stopper)

  datatype Purpose = ForRecovery | ForCompletion | ForRetry

  datatype Point =
    | Entering | Sampling | Adoption | AdoptionChecks | AtLoop | Observed
    | Recovering | StoppingOld | Audit(purpose: Purpose) | AfterAudit(purpose: Purpose)
    | LaunchChecks | LaunchSampling | LaunchUpdate(previous: Campaign) | LaunchWaiting | AfterWork
    | Failing(operator: bool) | Quitting | PauseCommand | StopCommand | Cleaning

  /** A supervisor process: where it is, its copy of the document, and whether a signal arrived. */
  datatype Process = Process(at: Point, doc: Document, stopping: bool)

  datatype World = World(
    max: nat, disk: Option<Document>, boot: Boot, container: Option<Container>, next: Campaign,
    process: Option<Process>, spools: map<Campaign, Spool>, log: seq<Event>)

  datatype Command = RunCommand | Pause | StopOwned

  datatype Action =
    // the world around the supervisor
    | Writes(report: Report) | Exits(zero: bool, native: seq<Health>) | Reboots(restarts: bool, left: seq<Health>)
    | Killed | Signalled | Spawns(command: Command)
    // the supervisor
    | Ticks | Raises(operator: bool) | Adopts(pinned: Boot) | Reports(phase: Phase) | Proceeds
    | Persists(graceful: bool) | Loses | Cleans(stops: bool)

  const NEVER := Graceful(None, None)

  /** The adopted campaign as the first start finds it. */
  datatype First = First(running: bool, zero: bool, spool: Spool)

  function Init(max: nat, first: First): World {
    World(max, None, 0, Some(Container(ADOPTED, first.running, first.running, first.zero)), 1, None,
          map[ADOPTED := first.spool], [])
  }

  function Load(w: World): Document {
    if w.disk.Some? then w.disk.value else Document(Adopting, 0, None, NEVER)
  }

  function SpoolOf(w: World, c: Campaign): Spool {
    if c in w.spools then w.spools[c] else Spool(None, [])
  }

  predicate Reported(spool: Spool) {
    spool.report.Some? && spool.report.value.phase.RuntimeFailed?
  }

  predicate Running(w: World) {
    w.container.Some? && w.container.value.running
  }

  predicate Alive(w: World) {
    Running(w) && w.container.value.alive
  }

  function Ended(c: Container): Container {
    c.(running := false, alive := false)
  }

  // ------------------------------------------------------------ environment

  /** Only the runtime that began a campaign leaves its lanes' health behind. */
  function Leaving(w: World, native: seq<Health>): map<Campaign, Spool> {
    if !Alive(w) then w.spools
    else
      var c := w.container.value.campaign;
      w.spools[c := SpoolOf(w, c).(native := native)]
  }

  /** The container after a reboot; a campaign that has reported nothing yet may still be begun. */
  function Brings(w: World, c: Container, restarts: bool): Container {
    c.(running := restarts, alive := restarts && SpoolOf(w, c.campaign).report.None?)
  }

  function EnvNext(w: World, a: Action): Option<World> {
    match a
    case Writes(report) =>
      if !Alive(w) || Reported(SpoolOf(w, w.container.value.campaign)) then None
      else
        var c := w.container.value.campaign;
        Some(w.(spools := w.spools[c := SpoolOf(w, c).(report := Some(report))]))
    case Exits(zero, native) =>
      if !Running(w) then None
      else Some(w.(spools := Leaving(w, native), container := Some(Ended(w.container.value).(zero := zero))))
    case Reboots(restarts, left) =>
      var brought := if restarts && w.container.Some? then Some(w.container.value.campaign) else None;
      Some(w.(boot := w.boot + 1, process := None, log := w.log + [Rebooted(brought)], spools := Leaving(w, left),
              container := if w.container.None? then None else Some(Brings(w, w.container.value, restarts))))
    case Killed => if w.process.None? then None else Some(w.(process := None))
    case Signalled => if w.process.None? then None else Some(w.(process := Some(w.process.value.(stopping := true))))
    case Spawns(command) =>
      if w.process.Some? then None
      else
        var at := match command case RunCommand => Entering case Pause => PauseCommand case StopOwned => StopCommand;
        Some(w.(process := Some(Process(at, Load(w), false))))
    case _ => None
  }

  // ------------------------------------------------------------- supervisor

  function At(w: World, p: Process, at: Point): World {
    w.(process := Some(p.(at := at)))
  }

  /** Write the document, which then is what memory holds too. */
  function Save(w: World, p: Process, doc: Document, at: Point): World {
    w.(disk := Some(doc), process := Some(p.(doc := doc, at := at)))
  }

  function Logged(w: World, e: Event): World {
    w.(log := w.log + [e])
  }

  predicate Working(at: Point) {
    !at.Entering? && !at.Failing? && !at.Quitting? && !at.PauseCommand? && !at.StopCommand? && !at.Cleaning?
  }

  predicate Closing(phase: Phase) {
    phase.BetweenCampaigns? || phase.RetryWait?
  }

  predicate OfAnotherBoot(w: World, doc: Document) {
    doc.current.Some? && doc.current.value.boot != w.boot
  }

  /** The start of `run`: a paused document is left alone, a stopped one unless its campaign is of another boot. */
  function EnterNext(w: World, p: Process): World {
    var other := OfAnotherBoot(w, p.doc);
    if p.doc.phase.Paused? || (p.doc.phase.Stopped? && !other) then w.(process := None)
    else At(w, p.(doc := if other then p.doc.(phase := Auditing) else p.doc), Sampling)
  }

  /** Where the supervisor waits, watching the host once a second. */
  predicate Ticking(w: World, p: Process) {
    || p.at.Sampling? || p.at.Audit? || p.at.LaunchSampling? || p.at.LaunchWaiting? || p.at.AfterWork?
    || (p.at.AtLoop? && p.doc.phase.RetryWait? && p.doc.current.Some? && p.doc.current.value.boot == w.boot)
  }

  /** A tick of the wait loops stores the document as it is. */
  function TickNext(w: World, p: Process): Option<World> {
    if p.stopping || !Ticking(w, p) then None
    else Some(Save(w, p, p.doc, if p.at.AfterWork? then AtLoop else p.at))
  }

  /** One look at the top of the loop. */
  function LoopNext(w: World, p: Process, g: Generation): Option<World> {
    if p.stopping then Some(At(w, p, Quitting))
    else if g.boot != w.boot then Some(At(w, p, Recovering))
    else if Closing(p.doc.phase) then Some(At(w, p, LaunchChecks))
    else if !g.admitted || w.container.None? || w.container.value.campaign != g.campaign then None
    else if w.container.value.running then Some(At(w, p, Observed))
    else if SpoolOf(w, g.campaign).report.None? then None
    else
      var auditing, spool := p.doc.(phase := Auditing), SpoolOf(w, g.campaign);
      if w.container.value.zero && spool.report.value.phase.RuntimeCompleted? then
        Some(Save(w, p, auditing, Audit(ForCompletion)))
      else if !spool.report.value.chunk || !TransportFailure(spool.native) then None
      else Some(Logged(Save(w, p, auditing, Audit(ForRetry)), Classified(g.campaign, spool.native, Reported(spool))))
  }

  /** The lanes' health found after a reboot is clean or a transport failure. */
  predicate NativeOk(native: seq<Health>) {
    && (forall i :: 0 <= i < |native| ==>
          !native[i].status.OTHER_STATUS? && native[i].credentialless && native[i].integrityEvents == Some(0))
    && ((exists i :: 0 <= i < |native| && native[i].status.FAILED?) ==> TransportFailure(native))
  }

  predicate StoppedGracefully(doc: Document, g: Generation) {
    doc.graceful == Graceful(Some(g.campaign), Some(g.boot))
  }

  /** A campaign of another boot may be recovered only if its runtime saw no failure, or after a graceful stop. */
  predicate MayRecover(w: World, doc: Document, g: Generation) {
    var spool := SpoolOf(w, g.campaign);
    spool.report.Some? ==>
      && (Reported(spool) ==> StoppedGracefully(doc, g))
      && (spool.report.value.chunk ==> NativeOk(spool.native))
  }

  /** The old campaign is closed by force when the new boot brought it back. */
  function StopOldNext(w: World, p: Process, g: Generation): World {
    if Running(w) then
      Logged(At(w.(container := Some(Ended(w.container.value))), p, Audit(ForRecovery)),
             Stops(w.container.value.campaign, BootRecovery))
    else At(w, p, Audit(ForRecovery))
  }

  /** What a successful audit of the closed copies leads to. */
  function AfterAuditNext(w: World, p: Process, g: Generation, purpose: Purpose): World {
    match purpose
    case ForRecovery => Logged(Save(w, p, p.doc.(phase := BetweenCampaigns), LaunchChecks), Recovered(g.campaign))
    case ForCompletion =>
      Logged(Save(w, p, p.doc.(phase := BetweenCampaigns, retries := 0), LaunchChecks), Completed(g.campaign))
    case ForRetry =>
      if RetryDelay(p.doc.retries + 1, w.max).None? then
        At(w, p.(doc := p.doc.(retries := p.doc.retries + 1)), Failing(false))
      else
        Logged(Save(w, p, p.doc.(phase := RetryWait, retries := p.doc.retries + 1), AtLoop), Failed(g.campaign))
  }

  /** The App update replaces the container of the previous campaign. */
  function UpdateNext(w: World, p: Process, g: Generation, previous: Campaign): World {
    Logged(At(w.(container := Some(Container(g.campaign, true, true, false))), p, LaunchWaiting),
           Launched(previous, g.campaign, Running(w)))
  }

  function LaunchNext(w: World, p: Process, g: Generation): Option<World> {
    match p.at
    case LaunchChecks =>
      if !g.admitted || w.container.None? || w.container.value.campaign != g.campaign || Running(w) then None
      else Some(At(w, p, LaunchSampling))
    case LaunchSampling =>
      Some(Save(w.(next := w.next + 1), p,
                p.doc.(phase := Admitting, current := Some(Generation(w.next, w.boot, false, false))),
                LaunchUpdate(g.campaign)))
    case LaunchUpdate(previous) => Some(UpdateNext(w, p, g, previous))
    case LaunchWaiting =>
      Some(Save(w, p, p.doc.(phase := Capturing, current := Some(g.(admitted := true))), AfterWork))
    case _ => None
  }

  /** The next step of the process, where nothing goes wrong. */
  function ProceedNext(w: World, p: Process): Option<World> {
    if p.at.Entering? then Some(EnterNext(w, p))
    else if p.at.Sampling? then Some(At(w, p, if p.doc.current.None? then Adoption else AtLoop))
    else if p.doc.current.None? then None
    else
      var g := p.doc.current.value;
      match p.at
      case AdoptionChecks => if g.boot == w.boot then Some(Save(w, p, p.doc.(phase := Adopting), AtLoop)) else None
      case AtLoop => LoopNext(w, p, g)
      case Observed => Some(At(w, p, AfterWork))
      case Recovering =>
        if g.admitted && w.container.Some? && w.container.value.campaign == g.campaign && MayRecover(w, p.doc, g)
        then Some(Save(w, p, p.doc.(phase := Auditing), StoppingOld)) else None
      case StoppingOld => Some(StopOldNext(w, p, g))
      case Audit(purpose) =>
        Some(Logged(Save(w, p, p.doc, AfterAudit(purpose)), Audited(g.campaign)))
      case AfterAudit(purpose) => Some(AfterAuditNext(w, p, g, purpose))
      case _ => LaunchNext(w, p, g)
  }

  /** An exception anywhere; the one raised by a tick under a signal is told apart from all others. */
  function RaiseNext(w: World, p: Process, operator: bool): Option<World> {
    if !Working(p.at) || (operator && !(p.stopping && Ticking(w, p))) then None
    else
      var doc := if p.at == AfterAudit(ForCompletion) then p.doc.(retries := 0)
                 else if p.at.AfterAudit? && p.at.purpose.ForRetry? then p.doc.(retries := p.doc.retries + 1)
                 else p.doc;
      Some(At(w, p.(doc := doc), Failing(operator)))
  }

  /** A signal counts as a graceful stop only if the runtime has recorded no failure. */
  predicate MayStopGracefully(w: World, doc: Document) {
    doc.current.Some? ==> !Reported(SpoolOf(w, doc.current.value.campaign))
  }

  /** The document of a graceful stop remembers the campaign and the boot. */
  function LastWord(w: World, doc: Document, graceful: bool): Document {
    if !graceful then doc.(phase := Paused)
    else
      var campaign := if doc.current.Some? then Some(doc.current.value.campaign) else doc.graceful.campaign;
      doc.(phase := Stopped, graceful := Graceful(campaign, Some(w.boot)))
  }

  /** The end of a process: its last document. */
  function PersistNext(w: World, p: Process, graceful: bool): Option<World> {
    match p.at
    case Failing(operator) =>
      if graceful && (!operator || !MayStopGracefully(w, p.doc)) then None
      else Some(Save(w, p, LastWord(w, p.doc, graceful), Cleaning))
    case Quitting =>
      if graceful && !MayStopGracefully(w, p.doc) then None
      else Some(Save(w, p, LastWord(w, p.doc, graceful), Cleaning))
    case PauseCommand => if graceful then None else Some(Save(w, p, p.doc.(phase := Paused), Cleaning))
    case StopCommand =>
      if graceful then None
      else if p.doc.phase.Paused? || p.doc.phase.Stopped? then Some(At(w, p, Cleaning))
      else Some(Save(w, p, p.doc.(phase := Paused), Cleaning))
    case _ => None
  }

  /** Cleanup stops the container of its own campaign and nothing else. */
  predicate MayStop(w: World, doc: Document) {
    && doc.current.Some? && !doc.current.value.adopted
    && Running(w) && w.container.value.campaign == doc.current.value.campaign
  }

  function CleanNext(w: World, p: Process, stops: bool): Option<World> {
    if !p.at.Cleaning? || (stops && !MayStop(w, p.doc)) then None
    else if !stops then Some(w.(process := None))
    else
      Some(Logged(w.(process := None, container := Some(Ended(w.container.value))),
                  Stops(w.container.value.campaign, Cleanup)))
  }

  /** The phase stored for a running campaign that has written its status. */
  function ObservedAs(spool: Spool): Option<Phase> {
    match spool.report
    case None => None
    case Some(r) => Some(if r.phase.RuntimePublishing? then Publishing else Capturing)
  }

  function SupervisorNext(w: World, p: Process, a: Action): Option<World> {
    match a
    case Ticks => TickNext(w, p)
    case Raises(operator) => RaiseNext(w, p, operator)
    case Adopts(pinned) =>
      if !p.at.Adoption? || p.doc.current.Some? then None
      else Some(At(w, p.(doc := p.doc.(current := Some(Generation(ADOPTED, pinned, true, true)))), AdoptionChecks))
    case Reports(phase) =>
      if p.at.Observed? && p.doc.current.Some? && ObservedAs(SpoolOf(w, p.doc.current.value.campaign)) == Some(phase)
      then Some(Save(w, p, p.doc.(phase := phase), AfterWork))
      else None
    case Proceeds => ProceedNext(w, p)
    case Persists(graceful) => PersistNext(w, p, graceful)
    case Loses => if Working(p.at) || p.at.Entering? || p.at.Cleaning? then None else Some(At(w, p, Cleaning))
    case Cleans(stops) => CleanNext(w, p, stops)
    case _ => None
  }

  predicate IsEnvironment(a: Action) {
    a.Writes? || a.Exits? || a.Reboots? || a.Killed? || a.Signalled? || a.Spawns?
  }

  function Next(w: World, a: Action): Option<World> {
    if IsEnvironment(a) then EnvNext(w, a)
    else if w.process.None? then None
    else SupervisorNext(w, w.process.value, a)
  }

  function Run(w: World, actions: seq<Action>): Option<World>
    decreases |actions|
  {
    if actions == [] then Some(w)
    else
      var next := Next(w, actions[0]);
      if next.None? then None else Run(next.value, actions[1..])
  }

  // ---------------------------------------------------------- reading a log

  /** The campaign whose closed copies were audited with nothing launched or rebooted since. */
  function Closed(log: seq<Event>): Option<Campaign> {
    if log == [] then None
    else
      match log[|log| - 1]
      case Audited(c) => Some(c)
      case Launched(_, _, _) => None
      case Rebooted(_) => None
      case _ => Closed(log[..|log| - 1])
  }

  /** Retried failures since the last accepted completion. */
  function Failures(log: seq<Event>): nat {
    if log == [] then 0
    else
      match log[|log| - 1]
      case Completed(_) => 0
      case Failed(_) => Failures(log[..|log| - 1]) + 1
      case _ => Failures(log[..|log| - 1])
  }

  /** What a launch may be based on: an accepted completion, a retried failure or a boot recovery. */
  predicate IsGround(e: Event) {
    e.Completed? || e.Failed? || e.Recovered?
  }

  /** There is a ground for a launch that no launch has used. */
  predicate Ready(log: seq<Event>) {
    log != [] && var e := log[|log| - 1]; IsGround(e) || (!e.Launched? && Ready(log[..|log| - 1]))
  }

  /** What the last reboot brought back. */
  function Brought(log: seq<Event>): Option<Campaign> {
    if log == [] then None
    else if log[|log| - 1].Rebooted? then log[|log| - 1].brought
    else Brought(log[..|log| - 1])
  }

  predicate SettledBy(e: Event, c: Campaign) {
    (e.Completed? || e.Failed? || e.Recovered?) && e.campaign == c
  }

  /** After entry `i` its campaign was completed, granted a retry or recovered from. */
  ghost predicate Settled(log: seq<Event>, i: nat, c: Campaign) {
    exists k :: i < k < |log| && SettledBy(log[k], c)
  }

  // -------------------------------------------------------------- invariant

  ghost predicate DocumentOk(w: World, doc: Document) {
    && (doc.current.Some? ==>
          doc.current.value.campaign < w.next && (doc.current.value.adopted <==> doc.current.value.campaign == ADOPTED))
    && (Closing(doc.phase) ==>
          && doc.current.Some? && doc.current.value.boot <= w.boot
          && (doc.current.value.boot == w.boot ==> Closed(w.log) == Some(doc.current.value.campaign)))
  }

  /** Every classified failure is settled, unless it is that of the campaign still in the document. */
  ghost predicate Accountable(log: seq<Event>, doc: Document) {
    forall i :: 0 <= i < |log| && log[i].Classified? ==>
      || Settled(log, i, log[i].campaign)
      || (!Closing(doc.phase) && doc.current.Some? && doc.current.value.campaign == log[i].campaign)
  }

  /** The campaign of this boot is in service: nothing about its end is decided yet. */
  predicate InService(w: World, doc: Document) {
    doc.current.Some? && doc.current.value.admitted && doc.current.value.boot == w.boot
    && !Closing(doc.phase) && !doc.phase.Stopped?
  }

  /**
    The document counts what the log counts, speaks of no boot still to come, answers for what was
    classified, and leaves no ground unused where it does not ask for a launch.
   */
  ghost predicate BudgetOk(w: World, doc: Document) {
    && doc.retries <= w.max && doc.retries == Failures(w.log)
    && (doc.current.Some? ==> doc.current.value.boot <= w.boot)
    && Accountable(w.log, doc)
    && (doc.current.None? || InService(w, doc) ==> !Ready(w.log))
  }

  predicate Waiting(at: Point) {
    at.Entering? || at.PauseCommand? || at.StopCommand?
  }

  predicate Orderly(at: Point) {
    (Working(at) && !at.AdoptionChecks?) || at.Quitting? || at == Failing(true)
  }

  /** A freshly adopted campaign before it is known to be of this boot. */
  ghost predicate AdoptingOk(w: World, doc: Document) {
    && doc.retries <= w.max && doc.retries == Failures(w.log) && !Closing(doc.phase)
    && Accountable(w.log, doc) && !Ready(w.log)
  }

  ghost predicate MemoryOk(w: World, p: Process) {
    && DocumentOk(w, p.doc)
    && (Waiting(p.at) ==> p.doc == Load(w))
    && (!Waiting(p.at) && !p.at.Cleaning? ==>
          !p.doc.phase.Paused? && !p.doc.phase.Stopped? && (w.disk.Some? ==> !w.disk.value.phase.Paused?))
    && (!Waiting(p.at) && !p.at.Cleaning? && w.disk.Some? && w.disk.value.phase.Stopped? ==>
          OfAnotherBoot(w, w.disk.value))
    && (Orderly(p.at) ==> BudgetOk(w, p.doc))
    && (p.at.AdoptionChecks? ==> AdoptingOk(w, p.doc))
    && (Working(p.at) && Closing(p.doc.phase) ==> w.disk.Some? && Closing(w.disk.value.phase))
  }

  ghost predicate PointOk(w: World, p: Process) {
    match p.at
    case Observed => InService(w, p.doc)
    case Recovering => OfAnotherBoot(w, p.doc)
    case StoppingOld => OfAnotherBoot(w, p.doc)
    case Audit(purpose) => p.doc.current.Some? && !Running(w) && (!purpose.ForRecovery? ==> InService(w, p.doc))
    case AfterAudit(purpose) =>
      && p.doc.current.Some? && Closed(w.log) == Some(p.doc.current.value.campaign)
      && (!purpose.ForRecovery? ==> InService(w, p.doc))
    case LaunchChecks =>
      p.doc.current.Some? && Closed(w.log) == Some(p.doc.current.value.campaign) && Closing(p.doc.phase)
    case LaunchSampling =>
      p.doc.current.Some? && Closed(w.log) == Some(p.doc.current.value.campaign) && Closing(p.doc.phase)
    case LaunchUpdate(previous) =>
      && Closed(w.log) == Some(previous) && !Closing(p.doc.phase) && w.disk == Some(p.doc)
      && p.doc.current.Some? && !p.doc.current.value.adopted
    case LaunchWaiting => !Ready(w.log)
    case _ => true
  }

  /** A launch is still owed when the document says so, or when the new campaign is already in it. */
  predicate Owed(w: World) {
    (w.disk.Some? && Closing(w.disk.value.phase)) || (w.process.Some? && w.process.value.at.LaunchUpdate?)
  }

  ghost predicate EventOk(max: nat, log: seq<Event>, i: nat)
    requires i < |log|
  {
    match log[i]
    case Launched(previous, _, running) => Closed(log[..i]) == Some(previous) && !running && Ready(log[..i])
    case Classified(c, native, _) =>
      && TransportFailure(native)
      && forall h :: 0 <= h < i && log[h].Classified? && log[h].campaign != c ==> Settled(log[..i], h, log[h].campaign)
    case Failed(_) => Failures(log[..i]) < max
    case Stops(c, stopper) => c == ADOPTED ==> stopper.BootRecovery? && Brought(log[..i]) == Some(ADOPTED)
    case _ => true
  }

  ghost predicate LogOk(max: nat, log: seq<Event>) {
    forall i {:trigger EventOk(max, log, i)} :: 0 <= i < |log| ==> EventOk(max, log, i)
  }

  ghost predicate DiskOk(w: World) {
    && (w.disk.Some? ==> DocumentOk(w, w.disk.value) && (!w.disk.value.phase.Paused? ==> BudgetOk(w, w.disk.value)))
    && (w.disk.None? ==> BudgetOk(w, Load(w)))
  }

  ghost predicate WorldOk(w: World) {
    && w.next >= 1
    && (w.boot > 0 && Running(w) && w.container.value.campaign == ADOPTED ==> Brought(w.log) == Some(ADOPTED))
    && LogOk(w.max, w.log)
    && (Closed(w.log).Some? ==> !Running(w))
    && (Owed(w) ==> Ready(w.log))
    && DiskOk(w)
    && (w.process.Some? ==> MemoryOk(w, w.process.value) && PointOk(w, w.process.value))
  }

  // --------------------------------------------------- every step keeps it

  lemma {:induction false} LogGrows(max: nat, log: seq<Event>, e: Event)
    requires LogOk(max, log) && EventOk(max, log + [e], |log|)
    ensures LogOk(max, log + [e])
  {
    hide Closed, Failures, TransportFailure, Ready, Brought, Settled;
    forall i | 0 <= i < |log + [e]| ensures EventOk(max, log + [e], i) {
      if i < |log| {
        assert EventOk(max, log, i);
        assert (log + [e])[..i] == log[..i];
        assert forall h :: 0 <= h <= i ==> (log + [e])[h] == log[h];
      }
    }
  }

  /** What the readings of a log become with one more event. */
  lemma {:induction false} OneMore(log: seq<Event>, e: Event)
    ensures Closed(log + [e]) ==
            if e.Audited? then Some(e.campaign) else if e.Launched? || e.Rebooted? then None else Closed(log)
    ensures Failures(log + [e]) ==
            if e.Completed? then 0 else if e.Failed? then Failures(log) + 1 else Failures(log)
    ensures Ready(log + [e]) == (IsGround(e) || (!e.Launched? && Ready(log)))
    ensures Brought(log + [e]) == if e.Rebooted? then e.brought else Brought(log)
    ensures (log + [e])[..|log|] == log && (log + [e])[|log|] == e
  {
    assert (log + [e])[..|log + [e]| - 1] == log;
  }

  lemma {:induction false} SettledGrows(log: seq<Event>, e: Event, i: nat, c: Campaign)
    ensures Settled(log, i, c) ==> Settled(log + [e], i, c)
    ensures i < |log| && SettledBy(e, c) ==> Settled(log + [e], i, c)
  {
    var more := log + [e];
    if Settled(log, i, c) {
      var k :| i < k < |log| && SettledBy(log[k], c);
      assert more[k] == log[k];
    }
    assert more[|log|] == e;
  }

  /** A further event that classifies nothing leaves a document accountable. */
  lemma {:induction false} AccountableGrows(log: seq<Event>, e: Event, doc: Document)
    requires Accountable(log, doc) && !e.Classified?
    ensures Accountable(log + [e], doc)
  {
    hide Settled;
    var more := log + [e];
    forall i | 0 <= i < |more| && more[i].Classified?
      ensures Settled(more, i, more[i].campaign)
           || (!Closing(doc.phase) && doc.current.Some? && doc.current.value.campaign == more[i].campaign)
    {
      assert more[i] == log[i];
      SettledGrows(log, e, i, log[i].campaign);
    }
  }

  /** The documents of a world stay accountable when something is logged. */
  lemma {:induction false} LoggingKeepsAccounts(w: World, e: Event)
    requires WorldOk(w) && !e.Classified?
    ensures !Load(w).phase.Paused? ==> Accountable(w.log + [e], Load(w))
    ensures w.process.Some? && (Orderly(w.process.value.at) || w.process.value.at.AdoptionChecks?) ==>
              Accountable(w.log + [e], w.process.value.doc)
  {
    hide Accountable, LogOk, Closed, Failures, Ready, Brought;
    if Accountable(w.log, Load(w)) {
      AccountableGrows(w.log, e, Load(w));
    }
    if w.process.Some? && Accountable(w.log, w.process.value.doc) {
      AccountableGrows(w.log, e, w.process.value.doc);
    }
  }

  /** A document that owed nothing, or still speaks of the same campaign, stays accountable. */
  lemma {:induction false} StaysAccountable(log: seq<Event>, doc: Document, later: Document)
    requires Closing(doc.phase) || doc.current.None?
          || (&& !Closing(later.phase) && later.current.Some?
              && later.current.value.campaign == doc.current.value.campaign)
    ensures Accountable(log, doc) ==> Accountable(log, later)
  {
    hide Settled;
  }

  lemma {:induction false} RebootKeeps(w: World, restarts: bool, left: seq<Health>)
    requires WorldOk(w)
    ensures WorldOk(EnvNext(w, Reboots(restarts, left)).value)
  {
    hide LogOk, Closed, Failures, Ready, Brought, Accountable, TransportFailure, MemoryOk, PointOk;
    var e := Rebooted(if restarts && w.container.Some? then Some(w.container.value.campaign) else None);
    OneMore(w.log, e);
    LogGrows(w.max, w.log, e);
    LoggingKeepsAccounts(w, e);
  }

  lemma {:induction false} ExitKeeps(w: World, zero: bool, native: seq<Health>)
    requires WorldOk(w) && EnvNext(w, Exits(zero, native)).Some?
    ensures WorldOk(EnvNext(w, Exits(zero, native)).value)
  {
    hide LogOk, Closed, Failures, Ready, Brought, Accountable, TransportFailure;
  }

  lemma {:induction false} SpawnKeeps(w: World, command: Command)
    requires WorldOk(w) && EnvNext(w, Spawns(command)).Some?
    ensures WorldOk(EnvNext(w, Spawns(command)).value)
  {
    hide LogOk, Closed, Failures, Ready, Brought, Accountable, TransportFailure;
  }

  lemma {:induction false} SignalKeeps(w: World, a: Action)
    requires WorldOk(w) && EnvNext(w, a).Some? && !a.Reboots? && !a.Exits? && !a.Spawns?
    ensures WorldOk(EnvNext(w, a).value)
  {
    hide LogOk, Closed, Failures, Ready, Brought, Accountable, TransportFailure;
  }

  lemma {:induction false} EnvKeeps(w: World, a: Action)
    requires WorldOk(w) && EnvNext(w, a).Some?
    ensures WorldOk(EnvNext(w, a).value)
  {
    hide WorldOk, EnvNext;
    match a
    case Reboots(restarts, left) => RebootKeeps(w, restarts, left);
    case Exits(zero, native) => ExitKeeps(w, zero, native);
    case Spawns(command) => SpawnKeeps(w, command);
    case _ => SignalKeeps(w, a);
  }

  lemma {:induction false} TickKeeps(w: World, p: Process)
    requires WorldOk(w) && w.process == Some(p) && TickNext(w, p).Some?
    ensures WorldOk(TickNext(w, p).value)
  {
    hide LogOk, Closed, Failures, Ready, Brought, Accountable, TransportFailure;
  }

  lemma {:induction false} RaiseKeeps(w: World, p: Process, operator: bool)
    requires WorldOk(w) && w.process == Some(p) && RaiseNext(w, p, operator).Some?
    ensures WorldOk(RaiseNext(w, p, operator).value)
  {
    hide LogOk, Closed, Failures, Ready, Brought, Accountable, TransportFailure;
  }

  lemma {:induction false} CleaningKeeps(w: World, p: Process)
    requires WorldOk(w) && w.process == Some(p)
    ensures WorldOk(At(w, p, Cleaning))
  {
    hide LogOk, Closed, Failures, Ready, Brought, Accountable, TransportFailure;
  }

  lemma {:induction false} LastWordKeeps(w: World, p: Process, doc: Document)
    requires WorldOk(w) && w.process == Some(p)
    requires doc == p.doc.(phase := doc.phase, graceful := doc.graceful)
    requires doc.phase.Paused? || (doc.phase.Stopped? && (p.at == Failing(true) || p.at.Quitting?))
    ensures WorldOk(Save(w, p, doc, Cleaning))
  {
    StaysAccountable(w.log, p.doc, doc);
    hide LogOk, Closed, Failures, Ready, Brought, Accountable, TransportFailure;
  }

  lemma {:induction false} PersistKeeps(w: World, p: Process, graceful: bool)
    requires WorldOk(w) && w.process == Some(p) && PersistNext(w, p, graceful).Some?
    ensures WorldOk(PersistNext(w, p, graceful).value)
  {
    hide WorldOk, BudgetOk;
    if p.at.StopCommand? && (p.doc.phase.Paused? || p.doc.phase.Stopped?) {
      CleaningKeeps(w, p);
    } else {
      LastWordKeeps(w, p, LastWord(w, p.doc, graceful));
    }
  }

  lemma {:induction false} StoppingCleanKeeps(w: World, p: Process)
    requires WorldOk(w) && w.process == Some(p) && CleanNext(w, p, true).Some?
    ensures WorldOk(CleanNext(w, p, true).value)
  {
    hide LogOk, Closed, Failures, Ready, Brought, Accountable, TransportFailure;
    var e := Stops(w.container.value.campaign, Cleanup);
    OneMore(w.log, e);
    LogGrows(w.max, w.log, e);
    LoggingKeepsAccounts(w, e);
  }

  lemma {:induction false} QuietCleanKeeps(w: World, p: Process)
    requires WorldOk(w) && w.process == Some(p) && CleanNext(w, p, false).Some?
    ensures WorldOk(CleanNext(w, p, false).value)
  {
    hide LogOk, Closed, Failures, Ready, Brought, Accountable, TransportFailure;
  }

  lemma {:induction false} EnterKeeps(w: World, p: Process)
    requires WorldOk(w) && w.process == Some(p) && p.at.Entering?
    ensures WorldOk(EnterNext(w, p))
  {
    StaysAccountable(w.log, p.doc, p.doc.(phase := Auditing));
    hide LogOk, Closed, Failures, Ready, Brought, Accountable, TransportFailure;
  }

  lemma {:induction false} LoopKeeps(w: World, p: Process, g: Generation)
    requires WorldOk(w) && w.process == Some(p) && p.at.AtLoop? && p.doc.current == Some(g) && LoopNext(w, p, g).Some?
    ensures WorldOk(LoopNext(w, p, g).value)
  {
    hide LogOk, Closed, Failures, Ready, Brought, Accountable, TransportFailure;
    StaysAccountable(w.log, p.doc, p.doc.(phase := Auditing));
    var v := LoopNext(w, p, g).value;
    if v.log != w.log {
      ClassifyingKeepsAccounts(w, p.doc, g, v.log[|w.log|]);
    }
  }

  /** Only the campaign in the document can be classified, and everything else is settled by then. */
  lemma {:induction false} ClassifyingKeepsAccounts(w: World, doc: Document, g: Generation, e: Event)
    requires LogOk(w.max, w.log) && Accountable(w.log, doc) && doc.current == Some(g)
    requires e.Classified? && e.campaign == g.campaign && TransportFailure(e.native)
    ensures var more := w.log + [e];
            LogOk(w.max, more) && Accountable(more, doc.(phase := Auditing))
            && Closed(more) == Closed(w.log) && Failures(more) == Failures(w.log)
            && Ready(more) == Ready(w.log) && Brought(more) == Brought(w.log)
  {
    hide LogOk, Closed, Failures, Ready, Brought, TransportFailure, Settled;
    var more := w.log + [e];
    OneMore(w.log, e);
    forall i | 0 <= i < |w.log| && w.log[i].Classified?
      ensures more[i] == w.log[i] && (Settled(w.log, i, w.log[i].campaign) ==> Settled(more, i, w.log[i].campaign))
    {
      SettledGrows(w.log, e, i, w.log[i].campaign);
    }
    LogGrows(w.max, w.log, e);
  }

  lemma {:induction false} StopOldKeeps(w: World, p: Process, g: Generation)
    requires WorldOk(w) && w.process == Some(p) && p.at.StoppingOld? && p.doc.current == Some(g) && Running(w)
    ensures WorldOk(StopOldNext(w, p, g))
  {
    hide LogOk, Closed, Failures, Ready, Brought, Accountable, TransportFailure;
    var e := Stops(w.container.value.campaign, BootRecovery);
    OneMore(w.log, e);
    LogGrows(w.max, w.log, e);
    LoggingKeepsAccounts(w, e);
  }

  lemma {:induction false} NothingToStopKeeps(w: World, p: Process, g: Generation)
    requires WorldOk(w) && w.process == Some(p) && p.at.StoppingOld? && p.doc.current == Some(g) && !Running(w)
    ensures WorldOk(StopOldNext(w, p, g))
  {
    hide LogOk, Closed, Failures, Ready, Brought, Accountable, TransportFailure;
  }

  lemma {:induction false} AuditKeeps(w: World, p: Process, g: Generation)
    requires WorldOk(w) && w.process == Some(p) && p.at.Audit? && p.doc.current == Some(g)
    ensures ProceedNext(w, p).Some? && WorldOk(ProceedNext(w, p).value)
  {
    hide LogOk, Closed, Failures, Ready, Brought, Accountable, TransportFailure;
    OneMore(w.log, Audited(g.campaign));
    LogGrows(w.max, w.log, Audited(g.campaign));
    LoggingKeepsAccounts(w, Audited(g.campaign));
  }

  /** Whatever is granted or accepted for the campaign in the document settles it, and so everything. */
  lemma {:induction false} SettlingSettlesAll(log: seq<Event>, e: Event, doc: Document, later: Document)
    requires Accountable(log, doc) && IsGround(e) && doc.current.Some? && e.campaign == doc.current.value.campaign
    ensures Accountable(log + [e], later)
  {
    hide Settled;
    var more := log + [e];
    forall i | 0 <= i < |more| && more[i].Classified? ensures Settled(more, i, more[i].campaign) {
      assert more[i] == log[i];
      SettledGrows(log, e, i, log[i].campaign);
    }
  }

  lemma {:induction false} RetryKeeps(w: World, p: Process, g: Generation)
    requires WorldOk(w) && w.process == Some(p) && p.at == AfterAudit(ForRetry) && p.doc.current == Some(g)
    ensures WorldOk(AfterAuditNext(w, p, g, p.at.purpose))
  {
    hide LogOk, Closed, Failures, Ready, Brought, Accountable, TransportFailure;
    var e := Failed(g.campaign);
    OneMore(w.log, e);
    SettlingSettlesAll(w.log, e, p.doc, p.doc.(phase := RetryWait, retries := p.doc.retries + 1));
    if p.doc.retries < w.max {
      LogGrows(w.max, w.log, e);
    }
  }

  lemma {:induction false} AfterAuditKeeps(w: World, p: Process, g: Generation)
    requires WorldOk(w) && w.process == Some(p) && p.at.AfterAudit? && p.doc.current == Some(g)
    ensures WorldOk(AfterAuditNext(w, p, g, p.at.purpose))
  {
    hide LogOk, Closed, Failures, Ready, Brought, Accountable, TransportFailure;
    if p.at.purpose.ForRetry? {
      RetryKeeps(w, p, g);
    } else {
      var e := if p.at.purpose.ForRecovery? then Recovered(g.campaign) else Completed(g.campaign);
      OneMore(w.log, e);
      LogGrows(w.max, w.log, e);
      SettlingSettlesAll(w.log, e, p.doc, AfterAuditNext(w, p, g, p.at.purpose).disk.value);
    }
  }

  lemma {:induction false} UpdateKeeps(w: World, p: Process, g: Generation, previous: Campaign)
    requires WorldOk(w) && w.process == Some(p) && p.doc.current == Some(g) && p.at == LaunchUpdate(previous)
    ensures WorldOk(UpdateNext(w, p, g, previous))
  {
    hide LogOk, Closed, Failures, Ready, Brought, Accountable, TransportFailure;
    var e := Launched(previous, g.campaign, Running(w));
    OneMore(w.log, e);
    LogGrows(w.max, w.log, e);
    LoggingKeepsAccounts(w, e);
  }

  lemma {:induction false} LaunchKeeps(w: World, p: Process, g: Generation)
    requires WorldOk(w) && w.process == Some(p) && p.doc.current == Some(g) && LaunchNext(w, p, g).Some?
    ensures WorldOk(LaunchNext(w, p, g).value)
  {
    if p.at.LaunchSampling? || p.at.LaunchWaiting? {
      StaysAccountable(w.log, p.doc, LaunchNext(w, p, g).value.disk.value);
    }
    hide LogOk, Closed, Failures, Ready, Brought, Accountable, TransportFailure;
    if p.at.LaunchUpdate? {
      UpdateKeeps(w, p, g, p.at.previous);
    }
  }

  lemma {:induction false} ProceedKeeps(w: World, p: Process)
    requires WorldOk(w) && w.process == Some(p) && ProceedNext(w, p).Some?
    ensures WorldOk(ProceedNext(w, p).value)
  {
    hide LogOk, Closed, Failures, Ready, Brought, Accountable, TransportFailure;
    hide EnterNext, LoopNext, StopOldNext, AfterAuditNext, LaunchNext;
    if p.at.Entering? {
      EnterKeeps(w, p);
    } else if p.doc.current.Some? {
      var g := p.doc.current.value;
      match p.at
      case AtLoop => LoopKeeps(w, p, g);
      case StoppingOld =>
        if Running(w) {
          StopOldKeeps(w, p, g);
        } else {
          NothingToStopKeeps(w, p, g);
        }
      case Audit(_) => AuditKeeps(w, p, g);
      case AfterAudit(_) => AfterAuditKeeps(w, p, g);
      case AdoptionChecks => StaysAccountable(w.log, p.doc, p.doc.(phase := Adopting));
      case Observed =>
      case Recovering => StaysAccountable(w.log, p.doc, p.doc.(phase := Auditing));
      case Sampling =>
      case _ => LaunchKeeps(w, p, g);
    }
  }

  lemma {:induction false} NextKeeps(w: World, a: Action)
    requires WorldOk(w) && Next(w, a).Some?
    ensures WorldOk(Next(w, a).value)
  {
    hide LogOk, Closed, Failures, Ready, Brought, Accountable, TransportFailure;
    hide EnvNext, TickNext, RaiseNext, ProceedNext, PersistNext, CleanNext;
    if IsEnvironment(a) {
      EnvKeeps(w, a);
    } else {
      var p := w.process.value;
      match a
      case Ticks => TickKeeps(w, p);
      case Raises(operator) => RaiseKeeps(w, p, operator);
      case Proceeds => ProceedKeeps(w, p);
      case Persists(graceful) => PersistKeeps(w, p, graceful);
      case Cleans(stops) =>
        if stops {
          StoppingCleanKeeps(w, p);
        } else {
          QuietCleanKeeps(w, p);
        }
      case Adopts(_) => OthersKeep(w, p, a);
      case Reports(_) => OthersKeep(w, p, a);
      case Loses => OthersKeep(w, p, a);
      case _ =>
    }
  }

  lemma {:induction false} OthersKeep(w: World, p: Process, a: Action)
    requires WorldOk(w) && w.process == Some(p) && (a.Adopts? || a.Reports? || a.Loses?)
    requires SupervisorNext(w, p, a).Some?
    ensures WorldOk(SupervisorNext(w, p, a).value)
  {
    StaysAccountable(w.log, p.doc, SupervisorNext(w, p, a).value.process.value.doc);
    hide LogOk, Closed, Failures, Ready, Brought, Accountable, TransportFailure;
  }

  lemma {:induction false} RunKeeps(w: World, actions: seq<Action>)
    requires WorldOk(w) && Run(w, actions).Some?
    ensures WorldOk(Run(w, actions).value) && Run(w, actions).value.max == w.max
    decreases |actions|
  {
    hide WorldOk, Next;
    if actions != [] {
      NextKeeps(w, actions[0]);
      MaxStays(w, actions[0]);
      RunKeeps(Next(w, actions[0]).value, actions[1..]);
    }
  }

  lemma {:induction false} MaxStays(w: World, a: Action)
    requires Next(w, a).Some?
    ensures Next(w, a).value.max == w.max
  {
  }

  lemma {:induction false} InitIsOk(max: nat, first: First)
    ensures WorldOk(Init(max, first))
  {
  }
}
