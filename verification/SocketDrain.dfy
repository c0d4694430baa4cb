/**
  The socket drain of one Binance session: a task that reads frames into a bounded queue and the
  session that takes them out, interleaved at every await, with stop, idle and error events and with
  the clock by which a required stream counts as silent.
 */
module SocketDrain {
  import opened Wrappers

  type Stream = nat

  datatype Frame = Frame(id: nat, stream: Stream)

  /** The queue bound, the streams that must not fall silent, and the silence in seconds that is too long. */
  datatype Config = Config(max: nat, required: set<Stream>, threshold: real)

  predicate ValidConfig(c: Config) {
    c.max > 0 && c.threshold > 0.0
  }

  /** The drain task, at its awaits: it holds a frame from the end of a read until it is queued. */
  datatype Drain = Checking | Receiving | Holding(frame: Frame) | TimedOut | Finished

  datatype Ending = ErrorRaised | Stopped | Starved | Aborted

  /**
    The session. `AtTop` is the head of the take loop; `Joining` and `JoiningLate` await the drain
    task; `Waiting` races the queue against stop and idle; `Cancelling` winds that race up;
    `NoFrame` has just been handed nothing; `Consuming` stores a frame, `Yielding` has stored it.
   */
  datatype Consumer =
    | AtTop | Joining | Waiting | Cancelling | JoiningLate | NoFrame
    | Consuming(frame: Frame) | Yielding | Ended(why: Ending)

  /** What the drain saw when it declared the socket idle: the silent streams, and the frame still on its way. */
  datatype Check = Check(silent: set<Stream>, pending: Option<Frame>)

  datatype State = State(
    received: seq<Frame>,
    queue: seq<Frame>,
    taken: Option<Frame>,     // what the racing queue read has already removed
    consumed: seq<Frame>,
    drain: Drain,
    consumer: Consumer,
    stop: bool,
    idle: bool,
    error: bool,
    now: real,
    seen: map<Stream, real>,  // when a required stream was last stored, or watching it began
    check: Option<Check>)

  /** A session that has just been opened. Its streams may have been watched for any time before. */
  ghost predicate Opened(c: Config, s: State) {
    && s == State([], [], None, [], Checking, AtTop, false, false, false, s.now, s.seen, None)
    && forall st :: st in c.required ==> st in s.seen && s.seen[st] <= s.now
  }

  datatype Action =
    | Elapse(seconds: real)
    | DrainCheck | DrainFrame(frame: Frame) | DrainTimeout | DrainError | DrainPut | DrainIdleCheck
    | RequestStop
    | RaceTake
    | Take | Join | Wake | Cancelled | JoinLate | HandleNothing | Store | ConsumeFails | Resume

  predicate Silent(c: Config, s: State, st: Stream) {
    st in s.seen && s.now - s.seen[st] >= c.threshold
  }

  function SilentStreams(c: Config, s: State): set<Stream> {
    set st | st in c.required && Silent(c, s, st)
  }

  /** The frame that has left the queue and is not stored yet. */
  function Pending(s: State): Option<Frame> {
    if s.consumer.Consuming? then Some(s.consumer.frame) else s.taken
  }

  function Deliver(s: State, f: Frame): State {
    s.(consumed := s.consumed + [f], consumer := Consuming(f))
  }

  /** What a take without a frame comes to once the drain has finished. */
  function Conclude(s: State): State {
    s.(consumer := if s.error then Ended(ErrorRaised) else NoFrame)
  }

  predicate Signalled(s: State) {
    s.stop || s.idle || s.drain.Finished?
  }

  /** The state after an action, or nothing when the action is not enabled. */
  function Apply(c: Config, s: State, a: Action): Option<State> {
    if s.consumer.Ended? then None
    else
      match a
      case DrainCheck | DrainFrame(_) | DrainTimeout | DrainError | DrainPut | DrainIdleCheck =>
        ApplyDrain(c, s, a)
      case RequestStop => Some(s.(stop := true))
      case Elapse(seconds) => if seconds < 0.0 then None else Some(s.(now := s.now + seconds))
      case _ => ApplyConsumer(c, s, a)
  }

  function ApplyDrain(c: Config, s: State, a: Action): Option<State> {
    match a
    case DrainCheck =>
      if !s.drain.Checking? then None
      else if s.stop then Some(s.(drain := Finished))
      else if |s.queue| >= c.max then Some(s)
      else Some(s.(drain := Receiving))
    case DrainFrame(f) =>
      if s.drain.Receiving? then Some(s.(received := s.received + [f], drain := Holding(f))) else None
    case DrainTimeout =>
      if s.drain.Receiving? then Some(s.(drain := TimedOut)) else None
    case DrainError =>
      if s.drain.Receiving? then Some(s.(drain := Finished, error := true, idle := true)) else None
    case DrainPut =>
      if s.drain.Holding? then Some(s.(queue := s.queue + [s.drain.frame], drain := Checking)) else None
    case DrainIdleCheck =>
      if !s.drain.TimedOut? then None
      else if s.stop then Some(s.(drain := Finished))
      else if s.queue == [] && SilentStreams(c, s) != {} then Some(Idle(c, s))
      else Some(s.(drain := Checking))
    case _ => None
  }

  /** The drain declares the socket idle and finishes. */
  function Idle(c: Config, s: State): State {
    s.(drain := Finished, idle := true, check := Some(Check(SilentStreams(c, s), Pending(s))))
  }

  /** A stored frame refreshes the clock of its stream, if that is a required one. */
  function Stored(c: Config, s: State, f: Frame): State {
    s.(consumer := Yielding, seen := if f.stream in c.required then s.seen[f.stream := s.now] else s.seen)
  }

  function ApplyConsumer(c: Config, s: State, a: Action): Option<State> {
    match a
    case RaceTake =>
      if s.consumer.Waiting? && s.taken.None? && s.queue != []
      then Some(s.(taken := Some(s.queue[0]), queue := s.queue[1..])) else None
    case Take =>
      if !s.consumer.AtTop? then None
      else if s.queue != [] then Some(Deliver(s.(queue := s.queue[1..]), s.queue[0]))
      else if s.error then Some(s.(consumer := Ended(ErrorRaised)))
      else if !Signalled(s) then Some(s.(consumer := Waiting))
      else if s.drain.Finished? then Some(Conclude(s))
      else Some(s.(consumer := Joining))
    case Join =>
      if !(s.consumer.Joining? && s.drain.Finished?) then None
      else if s.queue != [] then Some(Deliver(s.(queue := s.queue[1..]), s.queue[0]))
      else Some(Conclude(s))
    case Wake =>
      if s.consumer.Waiting? && (s.taken.Some? || s.stop || s.idle)
      then Some(s.(consumer := Cancelling)) else None
    case Cancelled =>
      if !s.consumer.Cancelling? then None
      else if s.taken.Some? then Some(Deliver(s.(taken := None), s.taken.value))
      else if s.queue != [] || !Signalled(s) then Some(s.(consumer := AtTop))
      else if s.drain.Finished? then Some(Conclude(s))
      else Some(s.(consumer := JoiningLate))
    case JoinLate =>
      if !(s.consumer.JoiningLate? && s.drain.Finished?) then None
      else if s.queue != [] then Some(s.(consumer := AtTop))
      else Some(Conclude(s))
    case HandleNothing =>
      if !s.consumer.NoFrame? then None
      else if s.error && !s.stop && s.queue == [] then Some(s.(consumer := Ended(ErrorRaised)))
      else if s.stop then Some(s.(consumer := Ended(Stopped)))
      else if SilentStreams(c, s) != {} then Some(s.(consumer := Ended(Starved)))
      else Some(s.(consumer := AtTop))
    case Store =>
      if s.consumer.Consuming? then Some(Stored(c, s, s.consumer.frame)) else None
    case ConsumeFails =>
      if s.consumer.Consuming? then Some(s.(consumer := Ended(Aborted))) else None
    case Resume =>
      if s.consumer.Yielding? then Some(s.(consumer := AtTop)) else None
    case _ => None
  }

  /** The state after a schedule of actions from `s`, each enabled when its turn comes. */
  function Execute(c: Config, s: State, actions: seq<Action>): Option<State> {
    if actions == [] then Some(s)
    else
      match Execute(c, s, actions[..|actions| - 1])
      case None => None
      case Some(t) => Apply(c, t, actions[|actions| - 1])
  }

  function InHand(d: Drain): seq<Frame> {
    if d.Holding? then [d.frame] else []
  }

  function InRace(taken: Option<Frame>): seq<Frame> {
    if taken.Some? then [taken.value] else []
  }

  /** Everything received, oldest first, by where it is now. */
  function Accounted(s: State): seq<Frame> {
    s.consumed + (InRace(s.taken) + (s.queue + InHand(s.drain)))
  }

  predicate Orderly(c: Config, s: State) {
    && |s.queue| <= c.max
    && (s.drain.Receiving? || s.drain.Holding? || s.drain.TimedOut? ==> |s.queue| < c.max)
    && (s.error ==> s.idle)
    && (s.idle ==> s.drain.Finished?)
    && (s.drain.Finished? ==> s.stop || s.idle)
    && (s.taken.Some? ==> s.consumer.Waiting? || s.consumer.Cancelling?)
    && (s.consumer.NoFrame? ==> s.drain.Finished? && s.queue == [])
    && (s.consumer.Ended? && !s.consumer.why.Aborted? ==> s.drain.Finished? && s.queue == [])
  }

  predicate IsPending(check: Check, st: Stream) {
    check.pending.Some? && check.pending.value.stream == st
  }

  /**
    Since the idle check no clock but that of the pending frame's stream was refreshed: what was silent
    then and is not waiting for that frame is silent still.
   */
  ghost predicate Timely(c: Config, s: State) {
    && (forall st :: st in c.required ==> st in s.seen && s.seen[st] <= s.now)
    && (s.check.Some? <==> s.idle && !s.error)
    && (s.check.Some? ==>
          && s.queue == []
          && s.check.value.silent != {} && s.check.value.silent <= c.required
          && (Pending(s).Some? ==> s.check.value.pending == Pending(s))
          && forall st :: st in s.check.value.silent && !IsPending(s.check.value, st) ==> Silent(c, s, st))
  }

  ghost predicate Consistent(c: Config, s: State) {
    Orderly(c, s) && s.received == Accounted(s) && Timely(c, s)
  }

  lemma {:induction false} DrainActionKeepsOrderly(c: Config, s: State, a: Action)
    requires Orderly(c, s) && ApplyDrain(c, s, a).Some?
    ensures Orderly(c, ApplyDrain(c, s, a).value)
  {
  }

  lemma {:induction false} ConsumerActionKeepsOrderly(c: Config, s: State, a: Action)
    requires Orderly(c, s) && !s.consumer.Ended? && ApplyConsumer(c, s, a).Some?
    ensures Orderly(c, ApplyConsumer(c, s, a).value)
  {
  }

  lemma {:induction false} DrainActionConserves(c: Config, s: State, a: Action)
    requires s.received == Accounted(s) && ApplyDrain(c, s, a).Some?
    ensures var next := ApplyDrain(c, s, a).value; next.received == Accounted(next)
  {
    if a.DrainPut? {
      assert (s.queue + [s.drain.frame]) + [] == s.queue + [s.drain.frame];
    } else if a.DrainFrame? {
      assert s.consumed + (InRace(s.taken) + (s.queue + [])) + [a.frame]
          == s.consumed + (InRace(s.taken) + (s.queue + [a.frame]));
    }
  }

  lemma {:induction false} MoveUp(xs: seq<Frame>, f: Frame, ys: seq<Frame>)
    ensures (xs + [f]) + ([] + ys) == xs + ([f] + ys)
    ensures [] + ([f] + ys) == [f] + ys
  {
  }

  lemma {:induction false} ConsumerActionConserves(c: Config, s: State, a: Action)
    requires s.received == Accounted(s) && (s.taken.Some? ==> s.consumer.Waiting? || s.consumer.Cancelling?)
    requires ApplyConsumer(c, s, a).Some?
    ensures var next := ApplyConsumer(c, s, a).value; next.received == Accounted(next)
  {
    if s.taken.Some? {
      MoveUp(s.consumed, s.taken.value, s.queue + InHand(s.drain));
    } else if s.queue != [] {
      var rest := s.queue[1..] + InHand(s.drain);
      assert s.queue + InHand(s.drain) == [s.queue[0]] + rest;
      MoveUp(s.consumed, s.queue[0], rest);
    }
  }

  lemma {:induction false} DrainActionIsTimely(c: Config, s: State, a: Action)
    requires Orderly(c, s) && Timely(c, s) && ApplyDrain(c, s, a).Some?
    ensures Timely(c, ApplyDrain(c, s, a).value)
  {
  }

  lemma {:induction false} ConsumerActionIsTimely(c: Config, s: State, a: Action)
    requires Orderly(c, s) && Timely(c, s) && ApplyConsumer(c, s, a).Some?
    ensures Timely(c, ApplyConsumer(c, s, a).value)
  {
  }

  lemma {:induction false} OutsideActionsKeepAll(c: Config, s: State, a: Action)
    requires Consistent(c, s) && (a.RequestStop? || a.Elapse?) && Apply(c, s, a).Some?
    ensures Consistent(c, Apply(c, s, a).value)
  {
  }

  lemma {:induction false} ActionKeepsConsistent(c: Config, s: State, a: Action)
    requires Consistent(c, s) && Apply(c, s, a).Some?
    ensures Consistent(c, Apply(c, s, a).value)
  {
    hide ApplyDrain, ApplyConsumer, Accounted, Timely, Orderly;
    if a.RequestStop? || a.Elapse? {
      OutsideActionsKeepAll(c, s, a);
    } else if a.DrainCheck? || a.DrainFrame? || a.DrainTimeout? || a.DrainError? || a.DrainPut? || a.DrainIdleCheck? {
      DrainActionKeepsOrderly(c, s, a);
      DrainActionConserves(c, s, a);
      DrainActionIsTimely(c, s, a);
    } else {
      RacesOnlyThen(c, s);
      ConsumerActionKeepsOrderly(c, s, a);
      ConsumerActionConserves(c, s, a);
      ConsumerActionIsTimely(c, s, a);
    }
  }

  lemma {:induction false} RacesOnlyThen(c: Config, s: State)
    requires Orderly(c, s)
    ensures s.taken.Some? ==> s.consumer.Waiting? || s.consumer.Cancelling?
  {
  }

  lemma {:induction false} ExecuteKeepsConsistent(c: Config, s: State, actions: seq<Action>)
    requires Consistent(c, s) && Execute(c, s, actions).Some?
    ensures Consistent(c, Execute(c, s, actions).value)
    decreases |actions|
  {
    hide Consistent;
    if actions != [] {
      var n := |actions| - 1;
      ExecuteKeepsConsistent(c, s, actions[..n]);
      ActionKeepsConsistent(c, Execute(c, s, actions[..n]).value, actions[n]);
    }
  }

  lemma {:induction false} OpenedIsConsistent(c: Config, s: State)
    requires ValidConfig(c) && Opened(c, s)
    ensures Consistent(c, s)
  {
  }

  /**
    In every interleaving no frame is lost, duplicated or reordered: what was received is what was
    consumed, then at most one frame in the race, then the queue, then at most one in the drain's hand.
    The queue respects its bound and a put never finds it full.
   */
  lemma {:induction false} FramesAreConserved(c: Config, start: State, actions: seq<Action>)
    requires ValidConfig(c) && Opened(c, start) && Execute(c, start, actions).Some?
    ensures var s := Execute(c, start, actions).value;
            && s.received == s.consumed + InRace(s.taken) + s.queue + InHand(s.drain)
            && s.consumed <= s.received
            && |s.queue| <= c.max
            && (s.drain.Holding? ==> |s.queue| < c.max)
  {
    hide Execute, Timely;
    OpenedIsConsistent(c, start);
    ExecuteKeepsConsistent(c, start, actions);
    var s := Execute(c, start, actions).value;
    assert Accounted(s) == s.consumed + InRace(s.taken) + s.queue + InHand(s.drain);
  }

  /**
    A take that yields nothing, and a session that ends by stop, starvation or the drain's error,
    happen only when the drain has finished and every received frame has been consumed.
   */
  lemma {:induction false} NothingIsReportedEarly(c: Config, start: State, actions: seq<Action>)
    requires ValidConfig(c) && Opened(c, start) && Execute(c, start, actions).Some?
    ensures var s := Execute(c, start, actions).value;
            s.consumer.NoFrame? || (s.consumer.Ended? && s.consumer.why != Aborted) ==>
              s.drain.Finished? && s.consumed == s.received
  {
    hide Execute, Timely;
    OpenedIsConsistent(c, start);
    ExecuteKeepsConsistent(c, start, actions);
    var s := Execute(c, start, actions).value;
    if s.consumer.NoFrame? || (s.consumer.Ended? && s.consumer.why != Aborted) {
      assert Accounted(s) == s.consumed;
    }
  }

  /** No lost wake-up: once the drain has finished, a session parked on it or on the queue can go on. */
  lemma {:induction false} NeverParkedForGood(c: Config, start: State, actions: seq<Action>)
    requires ValidConfig(c) && Opened(c, start) && Execute(c, start, actions).Some?
    ensures var s := Execute(c, start, actions).value;
            s.drain.Finished? ==>
              && (s.consumer.Waiting? ==> Apply(c, s, Wake).Some?)
              && (s.consumer.Joining? ==> Apply(c, s, Join).Some?)
              && (s.consumer.JoiningLate? ==> Apply(c, s, JoinLate).Some?)
  {
    hide Execute, Timely;
    OpenedIsConsistent(c, start);
    ExecuteKeepsConsistent(c, start, actions);
  }

  // ------------------------------------------------ what idle leads to

  /** The session, handed nothing, ends as starved. */
  ghost predicate EndsStarved(c: Config, s: State) {
    Apply(c, s, HandleNothing) == Some(s.(consumer := Ended(Starved)))
  }

  /** A stream the drain found silent whose clock the pending frame cannot refresh. */
  ghost predicate FoundSilentForGood(check: Check) {
    exists st :: st in check.silent && !IsPending(check, st)
  }

  /** Whatever happens from here on, a session handed nothing without a stop ends as starved. */
  ghost predicate BoundToStarve(c: Config, s: State) {
    forall actions ::
      Execute(c, s, actions).Some? && Execute(c, s, actions).value.consumer.NoFrame?
      && !Execute(c, s, actions).value.stop
      ==> EndsStarved(c, Execute(c, s, actions).value)
  }

  /**
    In every run: a session that the idle drain has handed nothing ends as starved exactly when a stream
    found silent was not the pending frame's, or some other required stream has fallen silent since.
   */
  lemma {:induction false} EndsStarvedIff(c: Config, start: State, actions: seq<Action>)
    requires ValidConfig(c) && Opened(c, start) && Execute(c, start, actions).Some?
    requires var s := Execute(c, start, actions).value; s.consumer.NoFrame? && s.check.Some? && !s.stop
    ensures var s := Execute(c, start, actions).value;
            EndsStarved(c, s) <==>
              || FoundSilentForGood(s.check.value)
              || exists st :: st in c.required && Silent(c, s, st)
                              && (st !in s.check.value.silent || IsPending(s.check.value, st))
  {
    hide Execute;
    OpenedIsConsistent(c, start);
    ExecuteKeepsConsistent(c, start, actions);
    var s := Execute(c, start, actions).value;
    if EndsStarved(c, s) {
      var st :| st in SilentStreams(c, s);
      assert Silent(c, s, st);
    }
    if FoundSilentForGood(s.check.value) {
      var st :| st in s.check.value.silent && !IsPending(s.check.value, st);
      assert st in SilentStreams(c, s);
    }
    forall st | st in c.required && Silent(c, s, st) ensures EndsStarved(c, s) {
      assert st in SilentStreams(c, s);
    }
  }

  lemma {:induction false} OneMoreAction(c: Config, s: State, actions: seq<Action>, a: Action)
    requires Execute(c, s, actions).Some?
    ensures Execute(c, s, actions + [a]) == Apply(c, Execute(c, s, actions).value, a)
  {
    assert (actions + [a])[..|actions|] == actions;
  }

  lemma {:induction false} CheckIsKept(c: Config, s: State, actions: seq<Action>)
    requires Consistent(c, s) && s.check.Some? && Execute(c, s, actions).Some?
    ensures Execute(c, s, actions).value.check == s.check
    decreases |actions|
  {
    if actions != [] {
      var n := |actions| - 1;
      CheckIsKept(c, s, actions[..n]);
      ExecuteKeepsConsistent(c, s, actions[..n]);
      CheckStays(c, Execute(c, s, actions[..n]).value, actions[n]);
    }
  }

  lemma {:induction false} CheckStays(c: Config, s: State, a: Action)
    requires Consistent(c, s) && s.check.Some? && Apply(c, s, a).Some?
    ensures Apply(c, s, a).value.check == s.check
  {
    hide Accounted, SilentStreams;
  }

  lemma {:induction false} SilentForGoodStarves(c: Config, s: State)
    requires Consistent(c, s) && s.check.Some? && FoundSilentForGood(s.check.value)
    requires s.consumer.NoFrame? && !s.stop
    ensures EndsStarved(c, s)
  {
    hide Accounted;
    var st :| st in s.check.value.silent && !IsPending(s.check.value, st);
    assert st in SilentStreams(c, s);
  }

  /** The frame is stored, nothing is left, and no stream is silent: the session is told to go on. */
  lemma {:induction false} StoringGoesOn(c: Config, s: State, f: Frame) returns (t: State)
    requires ValidConfig(c) && Consistent(c, s) && s.check.Some? && !s.stop
    requires s.consumer == Consuming(f) && f.stream in c.required
    requires forall st :: st in c.required && Silent(c, s, st) ==> st == f.stream
    ensures Execute(c, s, [Store, Resume, Take]) == Some(t)
    ensures t.consumer.NoFrame? && !t.stop && SilentStreams(c, t) == {} && t.check == s.check
  {
    hide Execute, Accounted;
    var stored := Stored(c, s, f);
    NothingYet(c, s);
    OneMoreAction(c, s, [], Store);
    assert [] + [Store] == [Store];
    OneMoreAction(c, s, [Store], Resume);
    assert [Store] + [Resume] == [Store, Resume];
    OneMoreAction(c, s, [Store, Resume], Take);
    assert [Store, Resume] + [Take] == [Store, Resume, Take];
    t := stored.(consumer := NoFrame);
    forall st | st in c.required ensures !Silent(c, t, st) {
      assert st != f.stream ==> Silent(c, t, st) == Silent(c, s, st);
    }
  }

  lemma {:induction false} NothingYet(c: Config, s: State)
    ensures Execute(c, s, []) == Some(s)
  {
  }

  lemma {:induction false} ExecuteFurther(c: Config, s: State, first: seq<Action>, second: seq<Action>)
    requires Execute(c, s, first).Some?
    ensures Execute(c, s, first + second) == Execute(c, Execute(c, s, first).value, second)
    decreases |second|
  {
    hide Apply;
    if second == [] {
      assert first + second == first;
    } else {
      var n := |second| - 1;
      ExecuteFurther(c, s, first, second[..n]);
      assert (first + second)[..|first| + n] == first + second[..n];
    }
  }

  /** From the idle check on, the pending frame is delivered. */
  lemma {:induction false} PendingIsDelivered(c: Config, s: State, f: Frame) returns (actions: seq<Action>, t: State)
    requires Consistent(c, s) && s.check.Some? && !s.consumer.Ended? && Pending(s) == Some(f)
    ensures Execute(c, s, actions) == Some(t) && t.consumer == Consuming(f)
    ensures t.check == s.check && t.stop == s.stop && t.now == s.now && t.seen == s.seen
  {
    hide Execute, Accounted;
    actions, t := [], s;
    NothingYet(c, s);
    if t.consumer.Waiting? {
      OneMoreAction(c, s, actions, Wake);
      actions, t := actions + [Wake], t.(consumer := Cancelling);
    }
    if t.consumer.Cancelling? {
      OneMoreAction(c, s, actions, Cancelled);
      actions, t := actions + [Cancelled], Deliver(t.(taken := None), f);
    }
  }

  /**
    The exact condition, read off at the idle check of any run: declaring the socket idle binds the
    session to end as starved if and only if some stream found silent does not belong to a frame that
    is being stored or is in the race at that moment. Otherwise the session can be told to go on.
   */
  lemma {:induction false} IdleBindsIff(c: Config, start: State, actions: seq<Action>)
    requires ValidConfig(c) && Opened(c, start) && Execute(c, start, actions).Some?
    requires var s := Execute(c, start, actions).value;
             Apply(c, s, DrainIdleCheck).Some? && Apply(c, s, DrainIdleCheck).value.idle
    ensures var s := Execute(c, start, actions).value;
            var idle := Apply(c, s, DrainIdleCheck).value;
            && idle.check == Some(Check(SilentStreams(c, s), Pending(s)))
            && (BoundToStarve(c, idle) <==> FoundSilentForGood(idle.check.value))
  {
    hide Execute, Accounted, BoundToStarve, FoundSilentForGood, SilentStreams;
    OpenedIsConsistent(c, start);
    ExecuteKeepsConsistent(c, start, actions);
    var s := Execute(c, start, actions).value;
    var idle := Apply(c, s, DrainIdleCheck).value;
    ActionKeepsConsistent(c, s, DrainIdleCheck);
    JustChecked(c, s);
    if FoundSilentForGood(idle.check.value) {
      SilentForGoodBinds(c, idle);
    } else {
      OtherwiseGoesOn(c, idle);
    }
  }

  lemma {:induction false} JustChecked(c: Config, s: State)
    requires Consistent(c, s) && Apply(c, s, DrainIdleCheck).Some? && Apply(c, s, DrainIdleCheck).value.idle
    ensures var idle := Apply(c, s, DrainIdleCheck).value;
            && !idle.stop && !idle.consumer.Ended?
            && idle.check == Some(Check(SilentStreams(c, idle), Pending(idle)))
            && SilentStreams(c, idle) == SilentStreams(c, s) && Pending(idle) == Pending(s)
  {
    hide Accounted;
    var idle := Apply(c, s, DrainIdleCheck).value;
    assert SilentStreams(c, idle) == SilentStreams(c, s);
  }

  lemma {:induction false} SilentForGoodBinds(c: Config, idle: State)
    requires Consistent(c, idle) && idle.check.Some? && FoundSilentForGood(idle.check.value)
    ensures BoundToStarve(c, idle)
  {
    hide Execute, Consistent, FoundSilentForGood, EndsStarved;
    forall actions | Execute(c, idle, actions).Some? && Execute(c, idle, actions).value.consumer.NoFrame?
                     && !Execute(c, idle, actions).value.stop
      ensures EndsStarved(c, Execute(c, idle, actions).value)
    {
      ExecuteKeepsConsistent(c, idle, actions);
      CheckIsKept(c, idle, actions);
      SilentForGoodStarves(c, Execute(c, idle, actions).value);
    }
  }

  lemma {:induction false} OtherwiseGoesOn(c: Config, idle: State)
    requires ValidConfig(c) && Consistent(c, idle) && !idle.stop && !idle.consumer.Ended?
    requires idle.check == Some(Check(SilentStreams(c, idle), Pending(idle)))
    requires !FoundSilentForGood(idle.check.value)
    ensures !BoundToStarve(c, idle)
  {
    hide Execute, Accounted;
    var silent :| silent in idle.check.value.silent;
    assert IsPending(idle.check.value, silent);
    var f := Pending(idle).value;
    forall st | st in c.required && Silent(c, idle, st) ensures st == f.stream {
      assert st in idle.check.value.silent;
    }
    var delivery, t := PendingIsDelivered(c, idle, f);
    ExecuteKeepsConsistent(c, idle, delivery);
    assert forall st :: Silent(c, t, st) == Silent(c, idle, st);
    var u := StoringGoesOn(c, t, f);
    ExecuteFurther(c, idle, delivery, [Store, Resume, Take]);
    var run := delivery + [Store, Resume, Take];
    assert Execute(c, idle, run) == Some(u) && !EndsStarved(c, u);
  }

  /**
    A session told to go on after idle takes nothing and comes back to the same state, without an await,
    until the silence of some required stream reaches the threshold again; then it ends as starved.
   */
  lemma {:induction false} GoesRoundUntilSilent(c: Config, start: State, actions: seq<Action>)
    requires ValidConfig(c) && Opened(c, start) && Execute(c, start, actions).Some?
    requires var s := Execute(c, start, actions).value; s.consumer.NoFrame? && s.check.Some? && !s.stop
    ensures var s := Execute(c, start, actions).value;
            && (!EndsStarved(c, s) <==> Execute(c, s, [HandleNothing, Take]) == Some(s))
            && EndsStarved(c, s.(now := s.now + c.threshold))
  {
    hide Execute, Consistent, EndsStarved;
    OpenedIsConsistent(c, start);
    ExecuteKeepsConsistent(c, start, actions);
    GoesRound(c, Execute(c, start, actions).value);
  }

  lemma {:induction false} GoesRound(c: Config, s: State)
    requires ValidConfig(c) && Consistent(c, s) && s.consumer.NoFrame? && s.check.Some? && !s.stop
    ensures !EndsStarved(c, s) <==> Execute(c, s, [HandleNothing, Take]) == Some(s)
    ensures EndsStarved(c, s.(now := s.now + c.threshold))
  {
    hide Execute, Accounted;
    var st :| st in s.check.value.silent;
    assert st in SilentStreams(c, s.(now := s.now + c.threshold));
    NothingYet(c, s);
    OneMoreAction(c, s, [], HandleNothing);
    assert [] + [HandleNothing] == [HandleNothing];
    OneMoreAction(c, s, [HandleNothing], Take);
    assert [HandleNothing] + [Take] == [HandleNothing, Take];
  }

  // ----------------------------------------------------- the two inputs

  /** The next action of a schedule. */
  lemma {:induction false} Follow(c: Config, start: State, actions: seq<Action>, k: nat, s: State, next: State)
    requires k < |actions| && Execute(c, start, actions[..k]) == Some(s) && Apply(c, s, actions[k]) == Some(next)
    ensures Execute(c, start, actions[..k + 1]) == Some(next)
  {
    assert actions[..k + 1][..k] == actions[..k];
  }

  function WhileStoring(c: Config, f: Frame): seq<Action> {
    [DrainCheck, DrainFrame(f), DrainPut, Take, DrainCheck, Elapse(c.threshold), DrainTimeout, DrainIdleCheck]
  }

  function WhileRacing(c: Config, f: Frame): seq<Action> {
    [Take, DrainCheck, DrainFrame(f), DrainPut, RaceTake, DrainCheck, Elapse(c.threshold), DrainTimeout, DrainIdleCheck]
  }

  /** Idle, with the only silent stream's own frame still on its way. */
  ghost predicate IdleTooSoon(s: State, f: Frame) {
    s.idle && !s.stop && s.received == [f] && s.check == Some(Check({f.stream}, Some(f)))
  }

  /** From the next read on, silence alone brings the drain to its idle check. */
  lemma {:induction false} FallsIdle(c: Config, start: State, actions: seq<Action>, k: nat, s: State, f: Frame)
    requires ValidConfig(c) && c.required == {f.stream} && f.stream in s.seen && s.seen[f.stream] <= s.now
    requires k + 4 == |actions| && actions[k..] == [DrainCheck, Elapse(c.threshold), DrainTimeout, DrainIdleCheck]
    requires Execute(c, start, actions[..k]) == Some(s)
    requires s.drain.Checking? && s.queue == [] && !s.stop && !s.consumer.Ended?
    requires s.received == [f] && Pending(s) == Some(f)
    ensures var t := Execute(c, start, actions);
            t.Some? && t.value.consumer == s.consumer && t.value.taken == s.taken && t.value.consumed == s.consumed
            && IdleTooSoon(t.value, f)
  {
    hide Execute;
    var later := s.now + c.threshold;
    var s3 := s.(drain := TimedOut, now := later);
    assert forall i :: 0 <= i < 4 ==> actions[k + i] == actions[k..][i];
    Follow(c, start, actions, k, s, s.(drain := Receiving));
    Follow(c, start, actions, k + 1, s.(drain := Receiving), s.(drain := Receiving, now := later));
    Follow(c, start, actions, k + 2, s.(drain := Receiving, now := later), s3);
    assert SilentStreams(c, s3) == {f.stream};
    Follow(c, start, actions, k + 3, s3, Idle(c, s3));
    assert actions[..k + 4] == actions;
  }

  /** A frame that is being stored when the drain looks at the clock. */
  lemma {:induction false} IdleWhileStoring(c: Config, start: State, f: Frame)
    requires ValidConfig(c) && Opened(c, start) && c.required == {f.stream}
    ensures var s := Execute(c, start, WhileStoring(c, f));
            s.Some? && s.value.consumer == Consuming(f) && IdleTooSoon(s.value, f)
  {
    var all := WhileStoring(c, f);
    var s1, s2 := start.(drain := Receiving), start.(received := [f], drain := Holding(f));
    var s3 := start.(received := [f], queue := [f]);
    hide Execute;
    assert all[..0] == [];
    NothingYet(c, start);
    assert [] + [f] == [f] && [f][1..] == [];
    Follow(c, start, all, 0, start, s1);
    Follow(c, start, all, 1, s1, s2);
    Follow(c, start, all, 2, s2, s3);
    Follow(c, start, all, 3, s3, start.(received := [f], consumed := [f], consumer := Consuming(f)));
    FallsIdle(c, start, all, 4, start.(received := [f], consumed := [f], consumer := Consuming(f)), f);
  }

  /** A frame that the racing read has removed and the session has not been handed yet. */
  lemma {:induction false} IdleWhileRacing(c: Config, start: State, f: Frame)
    requires ValidConfig(c) && Opened(c, start) && c.required == {f.stream}
    ensures var s := Execute(c, start, WhileRacing(c, f));
            s.Some? && s.value.taken == Some(f) && s.value.consumed == [] && IdleTooSoon(s.value, f)
  {
    var all := WhileRacing(c, f);
    var s1 := start.(consumer := Waiting);
    var s2, s3 := s1.(drain := Receiving), s1.(received := [f], drain := Holding(f));
    hide Execute;
    assert all[..0] == [];
    NothingYet(c, start);
    assert [] + [f] == [f] && [f][1..] == [];
    Follow(c, start, all, 0, start, s1);
    Follow(c, start, all, 1, s1, s2);
    Follow(c, start, all, 2, s2, s3);
    Follow(c, start, all, 3, s3, s1.(received := [f], queue := [f]));
    Follow(c, start, all, 4, s1.(received := [f], queue := [f]), s1.(received := [f], taken := Some(f)));
    FallsIdle(c, start, all, 5, s1.(received := [f], taken := Some(f)), f);
  }
}
