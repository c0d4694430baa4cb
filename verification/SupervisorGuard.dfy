/**
  Whether the retry budget bounds classified failures across reboots: it does while no classified campaign
  passes the guard of a boot recovery, and it need not as soon as one does.
 */
module SupervisorGuard {
  import opened Wrappers
  import opened Supervisor
  import opened SupervisorClaims
  import opened SupervisorBudget

  // ------------------------------------------------------ recorded failures

  /** In every run: a campaign whose classified failure its runtime had recorded is never recovered from a reboot. */
  lemma {:induction false} RecordedFailureIsNeverRecovered(max: nat, first: First, actions: seq<Action>, i: nat, j: nat)
    requires Run(Init(max, first), actions).Some?
    requires var log := Run(Init(max, first), actions).value.log;
             i < j < |log| && log[i].Classified? && log[i].reported && log[j].Recovered?
    ensures var log := Run(Init(max, first), actions).value.log; log[j].campaign != log[i].campaign
  {
    hide Run, WorldOk;
    AllBooks(max, first, actions);
    var log := Run(Init(max, first), actions).value.log;
    assert EntryOk(log, j);
    assert log[..j][i] == log[i];
  }

  /** In every run, where all failures are recorded, the budget bounds the classified ones, reboots included. */
  lemma {:induction false} RecordedFailuresAreWithinBudget(max: nat, first: First, actions: seq<Action>, i: nat, j: nat)
    requires Run(Init(max, first), actions).Some?
    requires var log := Run(Init(max, first), actions).value.log;
             && i <= j <= |log| && NoCompletion(log, i, j)
             && forall k :: i <= k < j && log[k].Classified? ==> log[k].reported
    ensures |ClassifiedIn(Run(Init(max, first), actions).value.log, i, j)| <= max + 1
  {
    hide Run, RetriedIn;
    var log := Run(Init(max, first), actions).value.log;
    ClassifiedFailuresAreBounded(max, first, actions, i, j);
    forall c | c in OverlookedIn(log, i, j) ensures false {
      var k :| i <= k < j && log[k].Recovered? && log[k].campaign == c && c in ClassifiedIn(log, i, k);
      var h :| i <= h < k && log[h].Classified? && log[h].campaign == c;
      RecordedFailureIsNeverRecovered(max, first, actions, h, k);
    }
    assert OverlookedIn(log, i, j) == {};
  }

  // ---------------------------------------------------------------- counting

  /** More campaigns have been classified since the last completion than the retry budget allows for. */
  predicate Exceeds(w: World) {
    |ClassifiedSince(w.log)| > w.max + 1
  }

  /** Where the stretch since the last completion begins. */
  function SinceWhen(log: seq<Event>): (s: nat)
    ensures s <= |log|
  {
    if log == [] then 0
    else if log[|log| - 1].Completed? then |log|
    else SinceWhen(log[..|log| - 1])
  }

  lemma {:induction false} SinceIsStretch(log: seq<Event>)
    ensures NoCompletion(log, SinceWhen(log), |log|)
    ensures ClassifiedSince(log) == ClassifiedIn(log, SinceWhen(log), |log|)
    decreases |log|
  {
    if log != [] {
      var n := |log| - 1;
      var rest, s := log[..n], SinceWhen(log);
      SinceIsStretch(rest);
      if !log[n].Completed? {
        assert forall k :: s <= k < n ==> rest[k] == log[k];
        assert ClassifiedIn(rest, s, n) == ClassifiedIn(log, s, n);
        assert ClassifiedIn(log, s, n + 1) ==
               ClassifiedIn(log, s, n) + (if log[n].Classified? then {log[n].campaign} else {});
      }
    }
  }

  /** Every retry since the last completion was for another campaign, classified before. */
  lemma {:induction false} RetriesAreOfClassified(log: seq<Event>)
    requires Entries(log)
    ensures RetriedSince(log) <= ClassifiedSince(log) && |RetriedSince(log)| == Failures(log)
    decreases |log|
  {
    if log != [] {
      var n := |log| - 1;
      var rest := log[..n];
      assert Entries(rest) by {
        forall i | 0 <= i < n ensures EntryOk(rest, i) {
          assert EntryOk(log, i) && rest[..i] == log[..i];
        }
      }
      RetriesAreOfClassified(rest);
      assert EntryOk(log, n);
      if log[n].Failed? {
        SinceIsEver(rest, log[n].campaign);
      }
    }
  }

  // ------------------------------------------------- what a refusal leads to

  /** After a reboot: the guard refuses the campaign of the earlier boot, and its spool cannot change. */
  predicate Refused(w: World, g: Generation) {
    && g.boot < w.boot
    && (Alive(w) ==> w.container.value.campaign != g.campaign)
    && w.disk.Some? && w.disk.value.current == Some(g) && !MayRecover(w, w.disk.value, g)
    && (w.process.Some? ==>
          && w.process.value.doc.current == Some(g) && !MayRecover(w, w.process.value.doc, g)
          && BeforeGuard(w.process.value.at))
  }

  predicate BeforeGuard(at: Point) {
    || at.Entering? || at.Sampling? || at.AtLoop? || at.Recovering? || at.Failing? || at.Quitting?
    || at.PauseCommand? || at.StopCommand? || at.Cleaning?
  }

  /** Nothing was classified, settled or launched between two worlds. */
  ghost predicate NothingSince(log: seq<Event>, later: seq<Event>) {
    log <= later && forall k :: |log| <= k < |later| ==> later[k].Rebooted? || later[k].Stops?
  }

  lemma {:induction false} RefusedByHost(w: World, a: Action, g: Generation)
    requires Refused(w, g) && EnvNext(w, a).Some?
    ensures Refused(EnvNext(w, a).value, g) && NothingSince(w.log, EnvNext(w, a).value.log)
  {
    hide NativeOk, TransportFailure;
  }

  lemma {:induction false} RefusedBySupervisor(w: World, p: Process, a: Action, g: Generation)
    requires Refused(w, g) && w.process == Some(p) && SupervisorNext(w, p, a).Some?
    ensures Refused(SupervisorNext(w, p, a).value, g) && NothingSince(w.log, SupervisorNext(w, p, a).value.log)
  {
    hide NativeOk, TransportFailure;
  }

  lemma {:induction false} RefusedStep(w: World, a: Action, g: Generation)
    requires Refused(w, g) && Next(w, a).Some?
    ensures Refused(Next(w, a).value, g) && NothingSince(w.log, Next(w, a).value.log)
  {
    hide Refused, NothingSince, EnvNext, SupervisorNext;
    if IsEnvironment(a) {
      RefusedByHost(w, a, g);
    } else {
      RefusedBySupervisor(w, w.process.value, a, g);
    }
  }

  lemma {:induction false} RefusedForGood(w: World, actions: seq<Action>, g: Generation)
    requires Refused(w, g) && Run(w, actions).Some?
    ensures NothingSince(w.log, Run(w, actions).value.log) && Run(w, actions).value.max == w.max
    decreases |actions|
  {
    hide Refused, Next;
    if actions != [] {
      RefusedStep(w, actions[0], g);
      MaxStays(w, actions[0]);
      RefusedForGood(Next(w, actions[0]).value, actions[1..], g);
    }
  }

  lemma {:induction false} NothingIsClassified(log: seq<Event>, later: seq<Event>)
    requires NothingSince(log, later)
    ensures ClassifiedSince(later) == ClassifiedSince(log)
    decreases |later|
  {
    if |later| > |log| {
      var n := |later| - 1;
      NothingIsClassified(log, later[..n]);
      assert later[n].Rebooted? || later[n].Stops?;
    } else {
      assert log == later;
    }
  }

  // ------------------------------------------------- what a recovery leads to

  /** Some run goes from one world to the other. */
  ghost predicate Leads(w: World, v: World) {
    exists actions :: Run(w, actions) == Some(v)
  }

  lemma {:induction false} RunThenStep(w: World, actions: seq<Action>, a: Action)
    requires Run(w, actions).Some?
    ensures Run(w, actions + [a]) == Next(Run(w, actions).value, a)
    decreases |actions|
  {
    hide Next;
    if actions == [] {
      assert [] + [a] == [a];
      assert Next(w, a).Some? ==> Run(Next(w, a).value, []) == Next(w, a);
    } else {
      assert (actions + [a])[0] == actions[0] && (actions + [a])[1..] == actions[1..] + [a];
      RunThenStep(Next(w, actions[0]).value, actions[1..], a);
    }
  }

  lemma {:induction false} Onward(w: World, v: World, a: Action) returns (u: World)
    requires Leads(w, v) && Next(v, a).Some?
    ensures Some(u) == Next(v, a) && Leads(w, u)
  {
    hide Next, Run;
    var actions :| Run(w, actions) == Some(v);
    RunThenStep(w, actions, a);
    u := Next(v, a).value;
    assert Run(w, actions + [a]) == Some(u);
  }

  /** A step of the process, spelled out. */
  lemma {:induction false} Goes(w: World, v: World, p: Process, u: World)
    requires Leads(w, v) && v.process == Some(p) && ProceedNext(v, p) == Some(u)
    ensures Leads(w, u)
  {
    hide Leads, ProceedNext;
    var next := Onward(w, v, Proceeds);
  }

  const LOST := [Health(FAILED, "TimeoutError", Some(0), true)]

  lemma {:induction false} LostIsTransport()
    ensures TransportFailure(LOST)
  {
    assert LOST[0].status.FAILED?;
  }

  /** A campaign just launched, its supervisor at the top of its loop. */
  predicate InRound(w: World, retries: nat) {
    && w.next > 0
    && var c := w.next - 1;
       && SpoolOf(w, c) == Spool(None, [])
       && w.container == Some(Container(c, true, true, false))
       && w.disk.Some?
       && w.disk.value == Document(Capturing, retries, Some(Generation(c, w.boot, false, true)), w.disk.value.graceful)
       && w.process == Some(Process(AtLoop, w.disk.value, false))
       && forall d :: d in w.spools ==> d < w.next
  }

  /** At the point of a launch, the previous campaign closed. */
  predicate AtLaunch(w: World, g: Generation, retries: nat) {
    && w.container.Some? && w.container.value.campaign == g.campaign && !Running(w) && g.admitted
    && w.process.Some?
    && w.process.value == Process(LaunchChecks, w.process.value.doc, false)
    && w.process.value.doc.current == Some(g) && w.process.value.doc.retries == retries
    && forall d :: d in w.spools ==> d < w.next
  }

  /** The launch of a fresh campaign: only a launch is logged. */
  lemma {:induction false} LaunchesRound(w: World, v: World, g: Generation, retries: nat) returns (u: World)
    requires Leads(w, v) && AtLaunch(v, g, retries)
    ensures Leads(w, u) && InRound(u, retries) && u.next == v.next + 1 && u.max == v.max && u.boot == v.boot
    ensures u.log == v.log + [Launched(g.campaign, v.next, false)]
  {
    hide Leads;
    var p := v.process.value;
    var v1 := At(v, p, LaunchSampling);
    assert ProceedNext(v, p) == LaunchNext(v, p, g);
    Goes(w, v, p, v1);
    var p1 := v1.process.value;
    var launched := Generation(v.next, v.boot, false, false);
    var v2 := Save(v1.(next := v.next + 1), p1, p1.doc.(phase := Admitting, current := Some(launched)),
                   LaunchUpdate(g.campaign));
    assert ProceedNext(v1, p1) == LaunchNext(v1, p1, g);
    Goes(w, v1, p1, v2);
    var p2 := v2.process.value;
    var v3 := UpdateNext(v2, p2, launched, g.campaign);
    assert ProceedNext(v2, p2) == LaunchNext(v2, p2, launched);
    Goes(w, v2, p2, v3);
    var p3 := v3.process.value;
    var v4 := Save(v3, p3, p3.doc.(phase := Capturing, current := Some(launched.(admitted := true))), AfterWork);
    assert ProceedNext(v3, p3) == LaunchNext(v3, p3, launched);
    Goes(w, v3, p3, v4);
    u := Onward(w, v4, Ticks);
  }

  /** The runtime records a failure and exits, and the failure is classified. */
  lemma {:induction false} RoundFails(w: World, v: World, retries: nat) returns (u: World)
    requires Leads(w, v) && InRound(v, retries)
    ensures Leads(w, u) && u.max == v.max && u.next == v.next && u.boot == v.boot
    ensures var g := Generation(v.next - 1, v.boot, false, true);
            && u.log == v.log + [Classified(g.campaign, LOST, true)]
            && u.container == Some(Container(g.campaign, false, false, false))
            && u.process.Some? && u.process.value == Process(Audit(ForRetry), u.process.value.doc, false)
            && u.process.value.doc.current == Some(g) && u.process.value.doc.retries == retries
            && forall d :: d in u.spools ==> d < u.next
  {
    hide Leads, TransportFailure;
    LostIsTransport();
    var v1 := Onward(w, v, Writes(Report(RuntimeFailed, true)));
    var v2 := Onward(w, v1, Exits(false, LOST));
    var p, g := v2.process.value, Generation(v.next - 1, v.boot, false, true);
    u := LoopNext(v2, p, g).value;
    assert ProceedNext(v2, p) == LoopNext(v2, p, g);
    Goes(w, v2, p, u);
  }

  /** A retry is granted, and its wait is over. */
  lemma {:induction false} RoundIsRetried(w: World, v: World, g: Generation, retries: nat) returns (u: World)
    requires Leads(w, v) && retries < v.max && g.boot == v.boot && g.admitted
    requires v.container == Some(Container(g.campaign, false, false, false))
    requires v.process.Some? && v.process.value == Process(Audit(ForRetry), v.process.value.doc, false)
    requires v.process.value.doc.current == Some(g) && v.process.value.doc.retries == retries
    requires forall d :: d in v.spools ==> d < v.next
    ensures Leads(w, u) && AtLaunch(u, g, retries + 1) && u.next == v.next && u.max == v.max && u.boot == v.boot
    ensures u.log == v.log + [Audited(g.campaign)] + [Failed(g.campaign)]
  {
    hide Leads;
    var p := v.process.value;
    var v1 := Logged(Save(v, p, p.doc, AfterAudit(ForRetry)), Audited(g.campaign));
    Goes(w, v, p, v1);
    var p1 := v1.process.value;
    var v2 := AfterAuditNext(v1, p1, g, ForRetry);
    Goes(w, v1, p1, v2);
    var p2 := v2.process.value;
    u := At(v2, p2, LaunchChecks);
    assert ProceedNext(v2, p2) == LoopNext(v2, p2, g);
    Goes(w, v2, p2, u);
  }

  /** Rounds go on until the budget is used up, each with a campaign of its own classified. */
  lemma {:induction false} RoundsExceed(w: World, v: World, retries: nat) returns (u: World)
    requires Leads(w, v) && InRound(v, retries) && retries <= v.max
    requires |ClassifiedSince(v.log)| >= retries + 1 && forall c :: c in ClassifiedSince(v.log) ==> c < v.next - 1
    ensures Leads(w, u) && Exceeds(u) && u.max == v.max
    decreases v.max - retries
  {
    hide Leads, InRound, AtLaunch, ClassifiedSince;
    var failed := RoundFails(w, v, retries);
    var c := v.next - 1;
    OneMoreBook(v.log, Classified(c, LOST, true), c);
    assert |ClassifiedSince(failed.log)| >= retries + 2;
    if retries == v.max {
      u := failed;
    } else {
      var g := Generation(c, v.boot, false, true);
      var granted := RoundIsRetried(w, failed, g, retries);
      var again := LaunchesRound(w, granted, g, retries + 1);
      OneMoreBook(failed.log, Audited(c), c);
      OneMoreBook(failed.log + [Audited(c)], Failed(c), c);
      OneMoreBook(granted.log, Launched(c, granted.next, false), c);
      u := RoundsExceed(w, again, retries + 1);
    }
  }

  /** The host is up again, and the campaign of the earlier boot had failed without being granted a retry. */
  ghost predicate OpenAfterReboot(w: World, g: Generation) {
    && w.process.None? && w.disk.Some? && !w.disk.value.phase.Paused?
    && w.disk.value.current == Some(g) && g.boot != w.boot
    && g.campaign in ClassifiedSince(w.log) && !EverRetried(w.log, g.campaign)
  }

  /** A start in the new boot comes to the guard and, if that lets it, behind it. */
  lemma {:induction false} PassesGuard(w: World, g: Generation) returns (v: World)
    requires w.process.None? && w.disk.Some? && !w.disk.value.phase.Paused? && w.disk.value.current == Some(g)
    requires g.boot != w.boot && LiesStill(w, g) && MayRecover(w, w.disk.value, g)
    ensures var doc := w.disk.value.(phase := Auditing);
            v == w.(disk := Some(doc), process := Some(Process(StoppingOld, doc, false))) && Leads(w, v)
  {
    hide Leads, MayRecover;
    var doc := w.disk.value.(phase := Auditing);
    var p := Process(Sampling, doc, false);
    assert Leads(w, w) by {
      Stays(w);
    }
    var w1 := Onward(w, w, Spawns(RunCommand));
    var w2 := Onward(w, w1, Proceeds);
    assert w2 == w.(process := Some(p));
    var w3 := w.(process := Some(p.(at := AtLoop)));
    Goes(w, w2, p, w3);
    var w4 := w.(process := Some(p.(at := Recovering)));
    assert ProceedNext(w3, p.(at := AtLoop)) == LoopNext(w3, p.(at := AtLoop), g);
    Goes(w, w3, p.(at := AtLoop), w4);
    v := w.(disk := Some(doc), process := Some(p.(at := StoppingOld)));
    SameGuard(w, w4, w.disk.value, doc, g);
    Goes(w, w4, p.(at := Recovering), v);
  }

  lemma {:induction false} Stays(w: World)
    ensures Leads(w, w)
  {
    assert Run(w, []) == Some(w);
  }

  lemma {:induction false} SameGuard(w: World, v: World, doc: Document, later: Document, g: Generation)
    requires v.spools == w.spools && later.graceful == doc.graceful
    ensures MayRecover(v, later, g) == MayRecover(w, doc, g)
  {
  }

  lemma {:induction false} Recovers(w: World, v: World, g: Generation) returns (u: World)
    requires Leads(w, v) && v.process.Some? && v.process.value == Process(StoppingOld, v.process.value.doc, false)
    requires v.process.value.doc.current == Some(g) && LiesStill(v, g) && forall d :: d in v.spools ==> d < v.next
    ensures Leads(w, u) && AtLaunch(u, g, v.process.value.doc.retries)
    ensures u.next == v.next && u.max == v.max && ClassifiedSince(u.log) == ClassifiedSince(v.log)
  {
    hide Leads, ClassifiedSince;
    var p := v.process.value;
    var v1 := StopOldNext(v, p, g);
    assert ProceedNext(v, p) == Some(v1);
    Goes(w, v, p, v1);
    var p1 := v1.process.value;
    var v2 := Logged(Save(v1, p1, p1.doc, AfterAudit(ForRecovery)), Audited(g.campaign));
    Goes(w, v1, p1, v2);
    var p2 := v2.process.value;
    u := AfterAuditNext(v2, p2, g, ForRecovery);
    Goes(w, v2, p2, u);
    if Running(v) {
      OneMoreBook(v.log, Stops(v.container.value.campaign, BootRecovery), ADOPTED);
    }
    OneMoreBook(v1.log, Audited(g.campaign), ADOPTED);
    OneMoreBook(v2.log, Recovered(g.campaign), ADOPTED);
  }

  /** If the guard lets the campaign pass, the classified failures can come to exceed the budget. */
  lemma {:induction false} PassingExceeds(w: World, g: Generation) returns (u: World)
    requires WorldOk(w) && Books(w) && OpenAfterReboot(w, g) && MayRecover(w, w.disk.value, g)
    ensures Leads(w, u) && Exceeds(u) && u.max == w.max
  {
    hide Leads, AtLaunch, InRound, MayRecover, ClassifiedSince, EverRetried;
    var r := w.disk.value.retries;
    OpenIsCounted(w, g);
    var v := PassesGuard(w, g);
    var v1 := Recovers(w, v, g);
    var v2 := LaunchesRound(w, v1, g, r);
    OneMoreBook(v1.log, Launched(g.campaign, v1.next, false), ADOPTED);
    u := RoundsExceed(w, v2, r);
  }

  /** The open failure comes on top of those that were retried. */
  lemma {:induction false} OpenIsCounted(w: World, g: Generation)
    requires WorldOk(w) && Books(w) && OpenAfterReboot(w, g)
    ensures LiesStill(w, g) && w.disk.value.retries <= w.max
    ensures |ClassifiedSince(w.log)| >= w.disk.value.retries + 1
    ensures forall c :: c in ClassifiedSince(w.log) ==> c < w.next
    ensures forall d :: d in w.spools ==> d < w.next
  {
    SinceIsEver(w.log, g.campaign);
    RetriesAreOfClassified(w.log);
    forall c | c in ClassifiedSince(w.log) ensures c < w.next {
      SinceIsEver(w.log, c);
    }
    NoLarger(RetriedSince(w.log) + {g.campaign}, ClassifiedSince(w.log));
    hide Failures, Closed, Ready, Brought, LogOk, ClassifiedSince, RetriedSince;
  }

  /** Some way on from this world the classified failures exceed the budget. */
  ghost predicate CanExceed(w: World) {
    exists actions :: Run(w, actions).Some? && Exceeds(Run(w, actions).value)
  }

  /**
    The exact condition, for every world that a run can reach right after a reboot with a classified
    failure open and the budget not yet exceeded: it can be exceeded if and only if the guard lets the
    campaign pass. If not, nothing is classified, settled or launched ever again.
   */
  lemma {:induction false} GuardDecidesTheBudget(max: nat, first: First, before: seq<Action>, g: Generation)
    requires Run(Init(max, first), before).Some?
    requires var w := Run(Init(max, first), before).value; OpenAfterReboot(w, g) && !Exceeds(w)
    ensures var w := Run(Init(max, first), before).value;
            CanExceed(w) <==> MayRecover(w, w.disk.value, g)
    ensures var w := Run(Init(max, first), before).value;
            !MayRecover(w, w.disk.value, g) ==>
              forall after :: Run(w, after).Some? ==> NothingSince(w.log, Run(w, after).value.log)
  {
    hide Run, WorldOk, Books, MayRecover, Exceeds, EverRetried, ClassifiedSince;
    AllBooks(max, first, before);
    var w := Run(Init(max, first), before).value;
    if MayRecover(w, w.disk.value, g) {
      var u := PassingExceeds(w, g);
      LeadsByActions(w, u);
    } else {
      RefusedFromHere(w, g);
      forall after | Run(w, after).Some?
        ensures NothingSince(w.log, Run(w, after).value.log) && !Exceeds(Run(w, after).value)
      {
        RefusedForGood(w, after, g);
        NothingIsClassified(w.log, Run(w, after).value.log);
        StillWithin(w, Run(w, after).value);
      }
    }
  }

  lemma {:induction false} StillWithin(w: World, v: World)
    requires !Exceeds(w) && v.max == w.max && ClassifiedSince(v.log) == ClassifiedSince(w.log)
    ensures !Exceeds(v)
  {
  }

  lemma {:induction false} LeadsByActions(w: World, u: World)
    requires Leads(w, u) && Exceeds(u)
    ensures CanExceed(w)
  {
    var actions :| Run(w, actions) == Some(u);
  }

  lemma {:induction false} RefusedFromHere(w: World, g: Generation)
    requires WorldOk(w) && Books(w) && OpenAfterReboot(w, g) && !MayRecover(w, w.disk.value, g)
    ensures Refused(w, g)
  {
    OpenIsCounted(w, g);
    hide Failures, Closed, Ready, Brought, LogOk, ClassifiedSince, RetriedSince, MayRecover;
  }
}
