/**
  Short concrete runs of the supervisor, for what can happen.
 */
module SupervisorWitnesses {
  import opened Wrappers
  import opened Supervisor
  import opened SupervisorClaims
  import opened SupervisorBudget
  import opened SupervisorGuard

  ghost predicate Reachable(w: World) {
    exists first :: Leads(Init(w.max, first), w)
  }

  lemma {:induction false} Step(w: World, a: Action) returns (v: World)
    requires Reachable(w) && Next(w, a).Some?
    ensures Reachable(v) && Some(v) == Next(w, a)
  {
    MaxStays(w, a);
    hide Next, Leads;
    var first :| Leads(Init(w.max, first), w);
    v := Onward(Init(w.max, first), w, a);
  }

  /** A step of the process `p`, spelled out. */
  lemma {:induction false} Proceed(w: World, p: Process, v: World)
    requires Reachable(w) && w.process == Some(p) && ProceedNext(w, p) == Some(v)
    ensures Reachable(v)
  {
    hide Reachable, ProceedNext;
    var next := Step(w, Proceeds);
  }

  lemma {:induction false} Follow(w: World, v: World)
    requires Reachable(w) && Leads(w, v) && v.max == w.max
    ensures Reachable(v)
  {
    hide Next;
    var first :| Leads(Init(w.max, first), w);
    var before :| Run(Init(w.max, first), before) == Some(w);
    var after :| Run(w, after) == Some(v);
    RunOn(Init(w.max, first), before, after);
    assert Run(Init(v.max, first), before + after) == Some(v);
  }

  lemma {:induction false} RunOn(w: World, before: seq<Action>, after: seq<Action>)
    requires Run(w, before).Some?
    ensures Run(w, before + after) == Run(Run(w, before).value, after)
    decreases |before|
  {
    hide Next;
    if before == [] {
      assert before + after == after;
    } else {
      assert (before + after)[0] == before[0] && (before + after)[1..] == before[1..] + after;
      RunOn(Next(w, before[0]).value, before[1..], after);
    }
  }

  const CAPTURES := Spool(Some(Report(RuntimeCapturing, true)), [])
  const ADMITTED := Generation(ADOPTED, 0, true, true)

  /** The adopted campaign is running and its supervisor is at the top of its loop. */
  lemma {:induction false} Adopted(max: nat) returns (w: World)
    ensures Reachable(w)
    ensures var doc := Document(Adopting, 0, Some(ADMITTED), NEVER);
            w == World(max, Some(doc), 0, Some(Container(ADOPTED, true, true, false)), 1,
                       Some(Process(AtLoop, doc, false)), map[ADOPTED := CAPTURES], [])
  {
    hide Reachable, Run, Leads;
    w := Init(max, First(true, false, CAPTURES));
    Stays(w);
    assert Reachable(w) by {
      StartIsReachable(w, First(true, false, CAPTURES));
    }
    w := Step(w, Spawns(RunCommand));
    w := Step(w, Proceeds);
    w := Step(w, Proceeds);
    w := Step(w, Adopts(0));
    w := Step(w, Proceeds);
  }

  lemma {:induction false} StartIsReachable(w: World, first: First)
    requires w == Init(w.max, first) && Leads(w, w)
    ensures Reachable(w)
  {
  }

  /** Then the host comes up again, with the campaign or without it. */
  lemma {:induction false} RebootedAfterAdoption(restarts: bool) returns (w: World)
    ensures Reachable(w)
    ensures w == World(5, Some(Document(Adopting, 0, Some(ADMITTED), NEVER)), 1,
                       Some(Container(ADOPTED, restarts, false, false)), 1, None, map[ADOPTED := CAPTURES],
                       [Rebooted(if restarts then Some(ADOPTED) else None)])
  {
    hide Reachable, Run;
    w := Adopted(5);
    w := Step(w, Reboots(restarts, []));
    assert map[ADOPTED := CAPTURES][ADOPTED := CAPTURES] == map[ADOPTED := CAPTURES];
  }

  /** The supervisor does stop the campaign it only adopted: in the recovery of a changed boot. */
  lemma {:induction false} AdoptedCanBeStopped()
    ensures exists w :: Reachable(w) && w.log == [Rebooted(Some(ADOPTED)), Stops(ADOPTED, BootRecovery)]
  {
    hide Reachable, Leads, ProceedNext;
    var w := RebootedAfterAdoption(true);
    var v := PassesGuard(w, ADMITTED);
    Follow(w, v);
    var p := v.process.value;
    StopsOld(v, p);
    Proceed(v, p, StopOldNext(v, p, ADMITTED));
    assert StopOldNext(v, p, ADMITTED).log == [Rebooted(Some(ADOPTED)), Stops(ADOPTED, BootRecovery)];
  }

  lemma {:induction false} StopsOld(w: World, p: Process)
    requires p.at.StoppingOld? && p.doc.current.Some?
    ensures ProceedNext(w, p) == Some(StopOldNext(w, p, p.doc.current.value))
  {
  }

  /** Stopped by a signal while it was sampling the host after a reboot, cleanup still to come. */
  lemma {:induction false} StoppedDuringRecovery() returns (w: World)
    ensures Reachable(w)
    ensures var doc := Document(Stopped, 0, Some(ADMITTED), Graceful(Some(ADOPTED), Some(1)));
            w == World(5, Some(doc), 1, Some(Container(ADOPTED, false, false, false)), 1,
                       Some(Process(Cleaning, doc, true)), map[ADOPTED := CAPTURES], [Rebooted(None)])
  {
    hide Reachable, Run;
    w := RebootedAfterAdoption(false);
    w := Step(w, Spawns(RunCommand));
    w := Step(w, Proceeds);
    assert w.process.value.at.Sampling?;
    w := Step(w, Signalled);
    w := Step(w, Raises(true));
    w := Step(w, Persists(true));
  }

  /**
    A stop ordered while the supervisor still recovers from a reboot can be left in the same boot: there
    is such a world in every sense of the word.
   */
  lemma {:induction false} StopIsLeftInTheSameBoot()
    ensures exists w :: Reachable(w) && w.disk.Some? && w.disk.value.phase.Stopped? && NotPausing(w) && CanResume(w)
  {
    hide Reachable, CanResume;
    var w := StoppedDuringRecovery();
    NextStartResumes(w);
  }

  // ------------------------------------------------- beyond the retry budget

  /** What the failed campaign leaves: its runtime had recorded the failure, or was killed before it could. */
  function Remains(records: bool): Spool {
    Spool(Some(Report(if records then RuntimeFailed else RuntimeCapturing, true)), LOST)
  }

  /** The adopted campaign has failed in transport, its failure is classified, and the host has gone down. */
  function Fallen(records: bool): World {
    World(0, Some(Document(Auditing, 0, Some(ADMITTED), NEVER)), 1, Some(Container(ADOPTED, false, false, false)), 1,
          None, map[ADOPTED := Remains(records)], [Classified(ADOPTED, LOST, records), Rebooted(None)])
  }

  lemma {:induction false} FailsBeforeReboot(records: bool)
    ensures Reachable(Fallen(records))
  {
    hide Reachable, Run, TransportFailure;
    LostIsTransport();
    var w := Adopted(0);
    if records {
      w := Step(w, Writes(Report(RuntimeFailed, true)));
    }
    w := Step(w, Exits(false, LOST));
    assert w.spools == map[ADOPTED := Remains(records)];
    var p := w.process.value;
    var v := LoopNext(w, p, ADMITTED).value;
    assert ProceedNext(w, p) == LoopNext(w, p, ADMITTED);
    Proceed(w, p, v);
    var u := Step(v, Reboots(false, []));
    assert u.log == Fallen(records).log;
    assert u.spools == Fallen(records).spools && u.container == Fallen(records).container;
    assert u == Fallen(records);
  }

  lemma {:induction false} FallenIsOpen(records: bool)
    ensures OpenAfterReboot(Fallen(records), ADMITTED) && !Exceeds(Fallen(records))
  {
    var e := Classified(ADOPTED, LOST, records);
    OneMoreBook([], e, ADOPTED);
    OneMoreBook([e], Rebooted(None), ADOPTED);
    assert [] + [e] == [e] && [e] + [Rebooted(None)] == Fallen(records).log;
    assert ClassifiedSince([]) == {};
  }

  lemma {:induction false} FallenMayRecoverIff(records: bool)
    ensures MayRecover(Fallen(records), Fallen(records).disk.value, ADMITTED) <==> !records
  {
    LostIsTransport();
    hide TransportFailure;
  }

  /**
    Boot recoveries are outside the budget where the guard lets them pass: with no retry allowed at all,
    more campaigns than one are classified as failed without a completion between.
   */
  lemma {:induction false} RecoveryExceedsTheBudget()
    ensures exists w :: Reachable(w) && w.max == 0 && Exceeds(w)
  {
    hide Reachable, Leads, Exceeds, OpenAfterReboot, MayRecover;
    var w := Fallen(false);
    FailsBeforeReboot(false);
    FallenIsOpen(false);
    FallenMayRecoverIff(false);
    ReachableIsBooked(w);
    var u := PassingExceeds(w, ADMITTED);
    Follow(w, u);
  }

  lemma {:induction false} ReachableIsBooked(w: World)
    requires Reachable(w)
    ensures WorldOk(w) && Books(w)
  {
    hide WorldOk, Books, Next;
    var first :| Leads(Init(w.max, first), w);
    var actions :| Run(Init(w.max, first), actions) == Some(w);
    AllBooks(w.max, first, actions);
  }

  /** The ordinary failure: the runtime recorded it, and the guard refuses to recover from the reboot. */
  lemma {:induction false} RecordedFailureIsRefused()
    ensures exists w :: Reachable(w) && OpenAfterReboot(w, ADMITTED) && !MayRecover(w, w.disk.value, ADMITTED)
  {
    hide Reachable, MayRecover;
    FailsBeforeReboot(true);
    FallenIsOpen(true);
    FallenMayRecoverIff(true);
  }
}
