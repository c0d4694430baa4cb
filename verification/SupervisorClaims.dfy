/**
  What holds of the supervisor in every run: over process lives, kills, signals, commands and reboots.
 */
module SupervisorClaims {
  import opened Wrappers
  import opened Supervisor

  lemma {:induction false} RunIsOk(max: nat, first: First, actions: seq<Action>)
    requires Run(Init(max, first), actions).Some?
    ensures WorldOk(Run(Init(max, first), actions).value)
    ensures Run(Init(max, first), actions).value.max == max
  {
    hide WorldOk, Run;
    InitIsOk(max, first);
    RunKeeps(Init(max, first), actions);
  }

  // ----------------------------------------------------------------- counting

  predicate IsLaunch(e: Event) {
    e.Launched?
  }

  predicate IsRetry(e: Event) {
    e.Failed?
  }

  predicate IsRecovery(e: Event) {
    e.Recovered?
  }

  /** Events of one kind in the stretch from `i` up to but not including `j`. */
  function CountIn(log: seq<Event>, kind: Event -> bool, i: nat, j: nat): nat
    requires i <= j <= |log|
  {
    if i == j then 0 else CountIn(log, kind, i, j - 1) + (if kind(log[j - 1]) then 1 else 0)
  }

  ghost predicate NoCompletion(log: seq<Event>, i: nat, j: nat)
    requires i <= j <= |log|
  {
    forall k :: i <= k < j ==> !log[k].Completed?
  }

  // -------------------------------------------------------- launch after audit

  lemma {:induction false} ClosedSince(log: seq<Event>) returns (j: nat)
    requires Closed(log).Some?
    ensures j < |log| && log[j] == Audited(Closed(log).value)
    ensures forall k :: j < k < |log| ==> !log[k].Launched? && !log[k].Rebooted?
  {
    if log[|log| - 1].Audited? {
      j := |log| - 1;
    } else {
      j := ClosedSince(log[..|log| - 1]);
    }
  }

  /**
    Every launch in every run replaces a campaign that was not running and whose closed copies had passed
    an audit since the last launch and the last reboot.
   */
  lemma {:induction false} LaunchesFollowAudits(max: nat, first: First, actions: seq<Action>, i: nat) returns (j: nat)
    requires Run(Init(max, first), actions).Some?
    requires var log := Run(Init(max, first), actions).value.log; i < |log| && log[i].Launched?
    ensures var log := Run(Init(max, first), actions).value.log;
            && !log[i].replacedRunning
            && j < i && log[j] == Audited(log[i].previous)
            && forall k :: j < k < i ==> !log[k].Launched? && !log[k].Rebooted?
  {
    hide Run, Next, Closed, Ready;
    RunIsOk(max, first, actions);
    var log := Run(Init(max, first), actions).value.log;
    assert EventOk(max, log, i);
    j := ClosedSince(log[..i]);
    assert log[..i][j] == log[j];
    forall k | j < k < i ensures !log[k].Launched? && !log[k].Rebooted? {
      assert log[..i][k] == log[k];
    }
  }

  // -------------------------------------------------------------- retry budget

  lemma {:induction false} StretchIsCounted(log: seq<Event>, i: nat, j: nat)
    requires i <= j <= |log| && NoCompletion(log, i, j)
    ensures CountIn(log, IsRetry, i, j) <= Failures(log[..j])
    decreases j
  {
    if i < j {
      assert log[..j][..j - 1] == log[..j - 1];
      StretchIsCounted(log, i, j - 1);
    }
  }

  lemma {:induction false} FailuresStayBounded(max: nat, log: seq<Event>, j: nat)
    requires j <= |log| && LogOk(max, log)
    ensures Failures(log[..j]) <= max
    decreases j
  {
    if j > 0 {
      FailuresStayBounded(max, log, j - 1);
      assert log[..j][..j - 1] == log[..j - 1];
      assert EventOk(max, log, j - 1);
    }
  }

  /** In every run, no stretch without an accepted completion holds more than `max` retries. */
  lemma {:induction false} RetriesAreBounded(max: nat, first: First, actions: seq<Action>, i: nat, j: nat)
    requires Run(Init(max, first), actions).Some?
    requires var log := Run(Init(max, first), actions).value.log; i <= j <= |log| && NoCompletion(log, i, j)
    ensures CountIn(Run(Init(max, first), actions).value.log, IsRetry, i, j) <= max
  {
    hide Run, Next, TransportFailure, Failures, CountIn, LogOk;
    RunIsOk(max, first, actions);
    var log := Run(Init(max, first), actions).value.log;
    StretchIsCounted(log, i, j);
    FailuresStayBounded(max, log, j);
  }

  /** The campaigns whose failure was classified as a transport failure in a stretch. */
  function ClassifiedIn(log: seq<Event>, i: nat, j: nat): set<Campaign>
    requires i <= j <= |log|
  {
    set k | i <= k < j && log[k].Classified? :: log[k].campaign
  }

  /** The campaigns granted a retry in a stretch. */
  function RetriedIn(log: seq<Event>, i: nat, j: nat): set<Campaign>
    requires i <= j <= |log|
  {
    set k | i <= k < j && log[k].Failed? :: log[k].campaign
  }

  /** The campaigns of a stretch that a boot recovery took on with their failure classified and no retry granted. */
  function OverlookedIn(log: seq<Event>, i: nat, j: nat): set<Campaign>
    requires i <= j <= |log|
  {
    set k | i <= k < j && log[k].Recovered? && log[k].campaign in ClassifiedIn(log, i, k)
            && log[k].campaign !in RetriedIn(log, i, k) :: log[k].campaign
  }

  lemma {:induction false} FewAreRetried(log: seq<Event>, i: nat, j: nat)
    requires i <= j <= |log|
    ensures |RetriedIn(log, i, j)| <= CountIn(log, IsRetry, i, j)
    decreases j
  {
    if i == j {
      assert RetriedIn(log, i, j) == {};
    } else {
      FewAreRetried(log, i, j - 1);
      var e := log[j - 1];
      assert RetriedIn(log, i, j) == RetriedIn(log, i, j - 1) + (if e.Failed? then {e.campaign} else {});
    }
  }

  /** A classified campaign that is settled before a completion was retried or overlooked. */
  lemma {:induction false} SettledIsAccounted(log: seq<Event>, i: nat, j: nat, h: nat, c: Campaign)
    requires i <= h < j <= |log| && NoCompletion(log, i, j)
    requires log[h].Classified? && log[h].campaign == c && Settled(log[..j], h, c)
    ensures c in RetriedIn(log, i, j) + OverlookedIn(log, i, j)
  {
    var k :| h < k < j && SettledBy(log[..j][k], c);
    assert log[..j][k] == log[k];
    if log[k].Recovered? && c !in RetriedIn(log, i, j) {
      assert c in ClassifiedIn(log, i, k) && c !in RetriedIn(log, i, k);
    }
  }

  /** All classified campaigns of a stretch but one were retried or overlooked in it. */
  lemma {:induction false} ClassifiedAreAccounted(max: nat, log: seq<Event>, i: nat, j: nat) returns (c: Campaign)
    requires LogOk(max, log) && i <= j <= |log| && NoCompletion(log, i, j)
    ensures ClassifiedIn(log, i, j) <= RetriedIn(log, i, j) + OverlookedIn(log, i, j) + {c}
    decreases j
  {
    if i == j {
      c := ADOPTED;
    } else if !log[j - 1].Classified? {
      c := ClassifiedAreAccounted(max, log, i, j - 1);
      assert ClassifiedIn(log, i, j) == ClassifiedIn(log, i, j - 1);
      assert RetriedIn(log, i, j - 1) <= RetriedIn(log, i, j) && OverlookedIn(log, i, j - 1) <= OverlookedIn(log, i, j);
    } else {
      c := log[j - 1].campaign;
      assert EventOk(max, log, j - 1);
      forall b | b in ClassifiedIn(log, i, j) && b != c ensures b in RetriedIn(log, i, j) + OverlookedIn(log, i, j) {
        var h :| i <= h < j && log[h].Classified? && log[h].campaign == b;
        SettledLater(log, h, j, b);
        SettledIsAccounted(log, i, j, h, b);
      }
    }
  }

  lemma {:induction false} SettledLater(log: seq<Event>, h: nat, j: nat, c: Campaign)
    requires h < j <= |log| && Settled(log[..j - 1], h, c)
    ensures Settled(log[..j], h, c)
  {
    var k :| h < k < j - 1 && SettledBy(log[..j - 1][k], c);
    assert log[..j][k] == log[..j - 1][k];
  }

  /**
    In every run, reboots included: the campaigns classified as transport failures in a stretch without an
    accepted completion number at most one more than the retry budget and the campaigns a boot recovery
    overlooked; each was classified from the terminal health of every lane.
   */
  lemma {:induction false} ClassifiedFailuresAreBounded(max: nat, first: First, actions: seq<Action>, i: nat, j: nat)
    requires Run(Init(max, first), actions).Some?
    requires var log := Run(Init(max, first), actions).value.log; i <= j <= |log| && NoCompletion(log, i, j)
    ensures var log := Run(Init(max, first), actions).value.log;
            && |ClassifiedIn(log, i, j)| <= max + 1 + |OverlookedIn(log, i, j)|
            && forall k :: i <= k < j && log[k].Classified? ==> TransportFailure(log[k].native)
  {
    hide Run, Next, TransportFailure, Failures, CountIn, ClassifiedIn, RetriedIn, OverlookedIn, Settled;
    RunIsOk(max, first, actions);
    var log := Run(Init(max, first), actions).value.log;
    RetriesAreBounded(max, first, actions, i, j);
    FewAreRetried(log, i, j);
    var c := ClassifiedAreAccounted(max, log, i, j);
    NoLarger(ClassifiedIn(log, i, j), RetriedIn(log, i, j) + OverlookedIn(log, i, j) + {c});
    forall k | i <= k < j && log[k].Classified? ensures TransportFailure(log[k].native) {
      assert EventOk(max, log, k);
    }
  }

  /** The stored count is the number of retries since the last accepted completion, except after a pause. */
  lemma {:induction false} StoredCountIsTrue(max: nat, first: First, actions: seq<Action>)
    requires Run(Init(max, first), actions).Some?
    requires var w := Run(Init(max, first), actions).value; w.disk.Some? && !w.disk.value.phase.Paused?
    ensures var w := Run(Init(max, first), actions).value;
            w.disk.value.retries == Failures(w.log) && w.disk.value.retries <= max
  {
    hide Run, Next, Failures;
    RunIsOk(max, first, actions);
  }

  // ------------------------------------------------------------------ launches

  lemma {:induction false} StretchIsGrounded(max: nat, log: seq<Event>, i: nat, j: nat)
    requires LogOk(max, log) && i <= j <= |log|
    ensures CountIn(log, IsLaunch, i, j) + (if Ready(log[..j]) then 1 else 0)
            <= CountIn(log, IsGround, i, j) + (if Ready(log[..i]) then 1 else 0)
    decreases j
  {
    if i < j {
      StretchIsGrounded(max, log, i, j - 1);
      assert log[..j][..j - 1] == log[..j - 1];
      assert EventOk(max, log, j - 1);
    }
  }

  /**
    Every launch of every run uses up an accepted completion, a retry or a boot recovery: a whole run has
    no more launches than those together, and any stretch of it at most one more.
   */
  lemma {:induction false} LaunchesAreGrounded(max: nat, first: First, actions: seq<Action>, i: nat, j: nat)
    requires Run(Init(max, first), actions).Some?
    requires i <= j <= |Run(Init(max, first), actions).value.log|
    ensures var log := Run(Init(max, first), actions).value.log;
            CountIn(log, IsLaunch, i, j) <= CountIn(log, IsGround, i, j) + (if i == 0 then 0 else 1)
  {
    hide Run, Next, CountIn, LogOk;
    RunIsOk(max, first, actions);
    StretchIsGrounded(max, Run(Init(max, first), actions).value.log, i, j);
  }

  /** Nothing is classified, settled or launched by itself: from here on the log only grows. */
  lemma {:induction false} LogOnlyGrows(w: World, actions: seq<Action>)
    requires Run(w, actions).Some?
    ensures w.log <= Run(w, actions).value.log
    decreases |actions|
  {
    hide Next;
    if actions != [] {
      NextExtendsLog(w, actions[0]);
      LogOnlyGrows(Next(w, actions[0]).value, actions[1..]);
    }
  }

  lemma {:induction false} NextExtendsLog(w: World, a: Action)
    requires Next(w, a).Some?
    ensures w.log <= Next(w, a).value.log
  {
  }

  lemma {:induction false} NoGroundNoLaunch(max: nat, log: seq<Event>, i: nat, j: nat)
    requires LogOk(max, log) && i <= j <= |log| && !Ready(log[..i]) && Failures(log[..i]) >= max
    requires forall k :: i <= k < j ==> !log[k].Completed? && !log[k].Recovered?
    ensures CountIn(log, IsLaunch, i, j) == 0 && !Ready(log[..j]) && Failures(log[..j]) >= max
    decreases j
  {
    if i < j {
      NoGroundNoLaunch(max, log, i, j - 1);
      assert log[..j][..j - 1] == log[..j - 1];
      assert EventOk(max, log, j - 1);
    }
  }

  /**
    A failure classified with the budget used up, in any run: whatever is killed, started, signalled or
    rebooted afterwards, nothing is launched again before an accepted completion or a boot recovery.
   */
  lemma {:induction false} ExhaustionEndsLaunches(max: nat, first: First, before: seq<Action>, after: seq<Action>)
    requires Run(Init(max, first), before).Some?
    requires var w := Run(Init(max, first), before).value;
             && w.process.Some? && w.process.value.at == AfterAudit(ForRetry) && Failures(w.log) == max
             && Run(w, after).Some?
    requires var w := Run(Init(max, first), before).value;
             var log := Run(w, after).value.log;
             forall k :: |w.log| <= k < |log| ==> !log[k].Completed? && !log[k].Recovered?
    ensures var w := Run(Init(max, first), before).value;
            var log := Run(w, after).value.log;
            w.log <= log && CountIn(log, IsLaunch, |w.log|, |log|) == 0
  {
    hide Run, Next, CountIn, LogOk, Failures, Ready;
    RunIsOk(max, first, before);
    var w := Run(Init(max, first), before).value;
    RunKeeps(w, after);
    LogOnlyGrows(w, after);
    var log := Run(w, after).value.log;
    assert log[..|w.log|] == w.log;
    NoGroundNoLaunch(max, log, |w.log|, |log|);
  }

  /** The end of a supervisor that ran out of retries. */
  predicate Exhausted(w: World, disk: Option<Document>) {
    && (w.disk == disk || (w.disk.Some? && w.disk.value.phase.Paused?))
    && (w.process.Some? ==>
          var p := w.process.value;
          || (p.at == AfterAudit(ForRetry) && p.doc.retries + 1 > w.max && p.doc.current.Some?)
          || p.at == Failing(false)
          || p.at.Cleaning?)
  }

  lemma {:induction false} ExhaustedStep(w: World, a: Action, disk: Option<Document>)
    requires Exhausted(w, disk) && Next(w, a).Some? && !a.Spawns?
    ensures Exhausted(Next(w, a).value, disk)
  {
  }

  lemma {:induction false} ExhaustedLasts(w: World, actions: seq<Action>, disk: Option<Document>)
    requires Exhausted(w, disk) && Run(w, actions).Some?
    requires forall i :: 0 <= i < |actions| ==> !actions[i].Spawns?
    ensures Exhausted(Run(w, actions).value, disk)
    decreases |actions|
  {
    hide Exhausted, Next;
    if actions != [] {
      ExhaustedStep(w, actions[0], disk);
      ExhaustedLasts(Next(w, actions[0]).value, actions[1..], disk);
    }
  }

  /** Until something is started again, the only document such a supervisor writes is a paused one. */
  lemma {:induction false} ExhaustionOnlyPauses(max: nat, first: First, before: seq<Action>, after: seq<Action>)
    requires Run(Init(max, first), before).Some?
    requires var w := Run(Init(max, first), before).value;
             && w.process.Some? && w.process.value.at == AfterAudit(ForRetry) && Failures(w.log) == max
             && Run(w, after).Some?
    requires forall i :: 0 <= i < |after| ==> !after[i].Spawns?
    ensures var w := Run(Init(max, first), before).value;
            var v := Run(w, after).value;
            v.disk == w.disk || (v.disk.Some? && v.disk.value.phase.Paused?)
  {
    hide Run, Next, Failures, LogOk;
    RunIsOk(max, first, before);
    var w := Run(Init(max, first), before).value;
    ExhaustedLasts(w, after, w.disk);
  }

  // --------------------------------------------------------------------- pause

  lemma {:induction false} PauseStays(w: World, a: Action)
    requires WorldOk(w) && w.disk.Some? && w.disk.value.phase.Paused? && Next(w, a).Some?
    ensures var v := Next(w, a).value;
            && v.disk.Some? && v.disk.value.phase.Paused?
            && (v.log == w.log || (|v.log| == |w.log| + 1 && w.log <= v.log && !v.log[|w.log|].Launched?))
  {
    hide LogOk, Closed, Failures, Ready, Brought;
    hide Accountable, TransportFailure, ProceedNext, DocumentOk, DiskOk, PointOk;
    if a.Proceeds? {
      OnlyStartedWorkProceeds(w, w.process.value);
    }
  }

  lemma {:induction false} OnlyStartedWorkProceeds(w: World, p: Process)
    requires ProceedNext(w, p).Some?
    ensures p.at.Entering? || Working(p.at)
    ensures p.at.Entering? ==> ProceedNext(w, p).value.disk == w.disk && ProceedNext(w, p).value.log == w.log
  {
  }

  /** Nothing was launched between two worlds. */
  ghost predicate NoLaunchSince(log: seq<Event>, later: seq<Event>) {
    log <= later && forall k :: |log| <= k < |later| ==> !later[k].Launched?
  }

  lemma {:induction false} PauseLasts(w: World, actions: seq<Action>)
    requires WorldOk(w) && w.disk.Some? && w.disk.value.phase.Paused? && Run(w, actions).Some?
    ensures var v := Run(w, actions).value;
            v.disk.Some? && v.disk.value.phase.Paused? && NoLaunchSince(w.log, v.log)
    decreases |actions|
  {
    hide WorldOk, Next;
    if actions != [] {
      PauseStays(w, actions[0]);
      NextKeeps(w, actions[0]);
      PauseLasts(Next(w, actions[0]).value, actions[1..]);
    }
  }

  /**
    Once a run has paused the document, it stays paused and nothing is launched again, whatever is started
    and however often the host reboots.
   */
  lemma {:induction false} PausedForGood(max: nat, first: First, before: seq<Action>, after: seq<Action>)
    requires Run(Init(max, first), before).Some?
    requires var w := Run(Init(max, first), before).value;
             w.disk.Some? && w.disk.value.phase.Paused? && Run(w, after).Some?
    ensures var w := Run(Init(max, first), before).value;
            var v := Run(w, after).value;
            v.disk.Some? && v.disk.value.phase.Paused? && NoLaunchSince(w.log, v.log)
  {
    hide Run, Next, WorldOk;
    RunIsOk(max, first, before);
    PauseLasts(Run(Init(max, first), before).value, after);
  }

  // ---------------------------------------------------------------------- stop

  /** A stopped document changes in one step only by an operator's pause, or when its campaign is of another boot. */
  lemma {:induction false} StopStays(w: World, a: Action)
    requires WorldOk(w) && w.disk.Some? && w.disk.value.phase.Stopped? && Next(w, a).Some?
    requires !OfAnotherBoot(w, w.disk.value)
    ensures var v := Next(w, a).value;
            || (v.disk == w.disk
                && (v.log == w.log || (|v.log| == |w.log| + 1 && w.log <= v.log && !v.log[|w.log|].Launched?)))
            || (v.disk.Some? && v.disk.value.phase.Paused? && w.process.Some? && w.process.value.at.PauseCommand?)
  {
    hide LogOk, Closed, Failures, Ready, Brought;
    hide Accountable, TransportFailure, ProceedNext, DocumentOk, DiskOk, PointOk;
    if a.Proceeds? {
      OnlyStartedWorkProceeds(w, w.process.value);
    }
  }

  predicate NotPausing(w: World) {
    w.process.Some? ==> !w.process.value.at.PauseCommand?
  }

  lemma {:induction false} NoPauseByItself(w: World, a: Action)
    requires Next(w, a).Some? && !a.Reboots? && a != Spawns(Pause)
    ensures Next(w, a).value.boot == w.boot && (NotPausing(w) ==> NotPausing(Next(w, a).value))
  {
  }

  /** Neither the host goes down nor an operator pauses. */
  ghost predicate Undisturbed(actions: seq<Action>) {
    forall i :: 0 <= i < |actions| ==> !actions[i].Reboots? && actions[i] != Spawns(Pause)
  }

  lemma {:induction false} StopLasts(w: World, actions: seq<Action>)
    requires WorldOk(w) && w.disk.Some? && w.disk.value.phase.Stopped? && !OfAnotherBoot(w, w.disk.value)
    requires NotPausing(w) && Run(w, actions).Some? && Undisturbed(actions)
    ensures Run(w, actions).value.disk == w.disk && NoLaunchSince(w.log, Run(w, actions).value.log)
    decreases |actions|
  {
    hide WorldOk, Next;
    if actions != [] {
      StopStays(w, actions[0]);
      NextKeeps(w, actions[0]);
      NoPauseByItself(w, actions[0]);
      StopLasts(Next(w, actions[0]).value, actions[1..]);
    }
  }

  /** Without a reboot or a pause, the stopped document can be replaced by one that is neither stopped nor paused. */
  ghost predicate CanResume(w: World) {
    exists actions :: Undisturbed(actions) && Run(w, actions).Some? && Resumed(Run(w, actions).value)
  }

  predicate Resumed(w: World) {
    w.disk.Some? && !w.disk.value.phase.Stopped? && !w.disk.value.phase.Paused?
  }

  /**
    The exact condition, for every reachable world with a stopped document: without a reboot or an
    operator's pause the stop can be left if and only if the campaign in the document is of another boot.
    If it is not, the document stays as it is and nothing is launched.
   */
  lemma {:induction false} StopIsLeftIff(max: nat, first: First, before: seq<Action>)
    requires Run(Init(max, first), before).Some?
    requires var w := Run(Init(max, first), before).value;
             w.disk.Some? && w.disk.value.phase.Stopped? && NotPausing(w)
    ensures var w := Run(Init(max, first), before).value;
            CanResume(w) <==> OfAnotherBoot(w, w.disk.value)
    ensures var w := Run(Init(max, first), before).value;
            !OfAnotherBoot(w, w.disk.value) ==>
              forall after :: Undisturbed(after) && Run(w, after).Some? ==>
                Run(w, after).value.disk == w.disk && NoLaunchSince(w.log, Run(w, after).value.log)
  {
    hide Run, Next, WorldOk;
    RunIsOk(max, first, before);
    var w := Run(Init(max, first), before).value;
    if OfAnotherBoot(w, w.disk.value) {
      NextStartResumes(w);
    } else {
      forall after | Undisturbed(after) && Run(w, after).Some?
        ensures Run(w, after).value.disk == w.disk && NoLaunchSince(w.log, Run(w, after).value.log)
      {
        StopLasts(w, after);
      }
    }
  }

  /** The next start leaves the stop: it reads the document, sees the other boot and stores that it is auditing. */
  lemma {:induction false} NextStartResumes(w: World)
    requires w.disk.Some? && w.disk.value.phase.Stopped? && OfAnotherBoot(w, w.disk.value)
    ensures CanResume(w)
  {
    var idle := w.(process := None);
    var start := [Spawns(RunCommand), Proceeds, Ticks];
    var v1 := Next(idle, Spawns(RunCommand)).value;
    var v2 := Next(v1, Proceeds).value;
    var v3 := Next(v2, Ticks).value;
    assert v2.process.value.at.Sampling? && v2.process.value.doc == w.disk.value.(phase := Auditing);
    ThreeSteps(idle, v1, v2, v3, Spawns(RunCommand), Proceeds, Ticks);
    if w.process.Some? {
      assert ([Killed] + start)[0] == Killed && ([Killed] + start)[1..] == start;
      assert Run(w, [Killed] + start) == Run(idle, start);
      assert Undisturbed([Killed] + start);
    } else {
      assert idle == w && Undisturbed(start);
    }
  }

  lemma {:induction false} ThreeSteps(w: World, v1: World, v2: World, v3: World, a: Action, b: Action, c: Action)
    requires Next(w, a) == Some(v1) && Next(v1, b) == Some(v2) && Next(v2, c) == Some(v3)
    ensures Run(w, [a, b, c]) == Some(v3)
  {
    hide Next;
    assert [a, b, c][1..] == [b, c] && [b, c][1..] == [c] && [c][1..] == [];
    assert Run(v3, []) == Some(v3);
    assert Run(v2, [c]) == Some(v3);
    assert Run(v1, [b, c]) == Some(v3);
  }

  // ------------------------------------------------------ the adopted campaign

  /** The step logs that the adopted campaign was stopped. */
  predicate StopsAdopted(w: World, v: World) {
    |v.log| == |w.log| + 1 && v.log[|w.log|].Stops? && v.log[|w.log|].campaign == ADOPTED
  }

  /**
    The exact condition for one step of any run: it stops the adopted campaign if and only if it is the
    process that goes on from the point where a boot recovery closes the old campaign, and the adopted
    container is running there.
   */
  lemma {:induction false} AdoptedIsStoppedIff(max: nat, first: First, before: seq<Action>, a: Action)
    requires Run(Init(max, first), before).Some? && Next(Run(Init(max, first), before).value, a).Some?
    ensures var w := Run(Init(max, first), before).value;
            StopsAdopted(w, Next(w, a).value) <==>
              && a.Proceeds? && w.process.Some? && w.process.value.at.StoppingOld?
              && Running(w) && w.container.value.campaign == ADOPTED
  {
    hide Run, Next;
    RunIsOk(max, first, before);
    StopStepIff(Run(Init(max, first), before).value, a);
  }

  lemma {:induction false} StopStepIff(w: World, a: Action)
    requires WorldOk(w) && Next(w, a).Some?
    ensures StopsAdopted(w, Next(w, a).value) <==>
              && a.Proceeds? && w.process.Some? && w.process.value.at.StoppingOld?
              && Running(w) && w.container.value.campaign == ADOPTED
  {
    hide LogOk, Closed, Failures, Ready, Brought, Accountable, TransportFailure, BudgetOk;
  }

  lemma {:induction false} BroughtBy(log: seq<Event>) returns (j: nat)
    requires Brought(log).Some?
    ensures j < |log| && log[j] == Rebooted(Brought(log)) && forall k :: j < k < |log| ==> !log[k].Rebooted?
  {
    if log[|log| - 1].Rebooted? {
      j := |log| - 1;
    } else {
      j := BroughtBy(log[..|log| - 1]);
    }
  }

  /**
    Cleanup never stops the adopted campaign in any run. Where it is stopped at all, that is a boot
    recovery, and the last reboot before it had brought the adopted campaign back.
   */
  lemma {:induction false} OnlyBootRecoveryStopsTheAdopted(max: nat, first: First, actions: seq<Action>, i: nat)
    returns (j: nat)
    requires Run(Init(max, first), actions).Some?
    requires var log := Run(Init(max, first), actions).value.log;
             i < |log| && log[i].Stops? && log[i].campaign == ADOPTED
    ensures var log := Run(Init(max, first), actions).value.log;
            && log[i].stopper.BootRecovery?
            && j < i && log[j] == Rebooted(Some(ADOPTED)) && forall k :: j < k < i ==> !log[k].Rebooted?
  {
    hide Run, Next, Brought;
    RunIsOk(max, first, actions);
    var log := Run(Init(max, first), actions).value.log;
    assert EventOk(max, log, i);
    j := BroughtBy(log[..i]);
    assert log[..i][j] == log[j];
    forall k | j < k < i ensures !log[k].Rebooted? {
      assert log[..i][k] == log[k];
    }
  }
}
