/**
  The bounded PAPER round trip: trade ticks with a tie-broken clock, one entry and one exit order, each
  deferred by a tick and filled in full where it is submitted, the records a run leaves, and an
  independent check of such records. Prices and quantities are exact.
 */
module PaperLifecycle {
  import opened Wrappers

  const STARTING_CASH := 100000.0

  /** Ticks before the first decision, ticks to hold, and how many inputs are recorded; any integers will do. */
  datatype Config = Config(quantity: real, warmup: int, hold: int, recordLimit: int)

  predicate Aligned(quantity: real) {
    quantity > 0.0 && quantity * 100000.0 == (quantity * 100000.0).Floor as real
  }

  predicate ValidConfig(c: Config) {
    Aligned(c.quantity)
  }

  datatype Tick = Tick(price: real, tsInit: int)

  datatype Side = BUY | SELL

  datatype Kind = TwoTradeDirection | FixedObservedTickExit

  datatype Signal = Signal(
    kind: Kind, decision: int, previous: Option<real>, current: real, side: Side, entryFill: Option<int>,
    lookahead: int)

  datatype Intent = Intent(decision: int, submission: int, side: Side, quantity: real, market: bool, reduceOnly: bool)

  datatype Fill = Fill(
    ordinal: int, observed: int, side: Side, quantity: real, price: real, tsEvent: int, positionAfter: real)

  datatype Input = Input(tick: Tick, ordinal: nat)

  function Signed(side: Side, quantity: real): real {
    if side.BUY? then quantity else -quantity
  }

  function Opposite(side: Side): Side {
    if side.BUY? then SELL else BUY
  }

  // -------------------------------------------------------------- tick clock

  datatype Trade = Trade(price: real, received: int)

  ghost predicate StrictlyIncreasing(ticks: seq<Tick>) {
    forall i, j :: 0 <= i < j < |ticks| ==> ticks[i].tsInit < ticks[j].tsInit
  }

  /** Ticks in capture order; a receive time that does not move on is pushed one nanosecond past the last one. */
  method LoadTicks(trades: seq<Trade>) returns (ticks: seq<Tick>)
    ensures |ticks| == |trades| && StrictlyIncreasing(ticks)
    ensures forall i :: 0 <= i < |trades| ==> ticks[i].price == trades[i].price && ticks[i].tsInit >= trades[i].received
    ensures forall i :: 0 <= i < |trades| && ticks[i].tsInit != trades[i].received ==>
      i > 0 && ticks[i].tsInit == ticks[i - 1].tsInit + 1
  {
    ticks := [];
    var prior: Option<int> := None;
    for i := 0 to |trades|
      invariant |ticks| == i && StrictlyIncreasing(ticks)
      invariant prior == if i == 0 then None else Some(ticks[i - 1].tsInit)
      invariant forall k :: 0 <= k < i ==> ticks[k].price == trades[k].price && ticks[k].tsInit >= trades[k].received
      invariant forall k :: 0 <= k < i && ticks[k].tsInit != trades[k].received ==>
        k > 0 && ticks[k].tsInit == ticks[k - 1].tsInit + 1
    {
      var tsInit := trades[i].received;
      if prior.Some? && tsInit <= prior.value {
        tsInit := prior.value + 1;
      }
      ticks := ticks + [Tick(trades[i].price, tsInit)];
      prior := Some(tsInit);
    }
  }

  // ------------------------------------------------- the run, told from its ticks

  function DecideEntry(previous: real, current: real): Option<Side> {
    if current > previous then Some(BUY) else if current < previous then Some(SELL) else None
  }

  predicate Moves(c: Config, ticks: seq<Tick>, d: nat) {
    2 <= d <= |ticks| && c.warmup <= d && ticks[d - 1].price != ticks[d - 2].price
  }

  /** The first ordinal from the warm-up on at which the price differs from the one before. */
  function EntryDecision(c: Config, ticks: seq<Tick>): (d: Option<nat>)
    ensures d.Some? ==> Moves(c, ticks, d.value) && forall k :: 0 <= k < d.value ==> !Moves(c, ticks, k)
    ensures d.None? ==> forall k :: !Moves(c, ticks, k)
    decreases |ticks|
  {
    if |ticks| == 0 then None
    else
      var before := EntryDecision(c, ticks[..|ticks| - 1]);
      assert forall k :: 0 <= k < |ticks| ==> Moves(c, ticks, k) == Moves(c, ticks[..|ticks| - 1], k);
      if before.Some? then before
      else if Moves(c, ticks, |ticks|) then Some(|ticks|)
      else None
  }

  function EntrySide(c: Config, ticks: seq<Tick>, d: nat): Side
    requires Moves(c, ticks, d)
  {
    if ticks[d - 1].price > ticks[d - 2].price then BUY else SELL
  }

  /** The exit is decided this many ticks after the entry. */
  function ExitAfter(c: Config): nat {
    1 + if c.hold > 1 then c.hold else 1
  }

  function EntrySignal(c: Config, ticks: seq<Tick>, d: nat): Signal
    requires Moves(c, ticks, d)
  {
    Signal(TwoTradeDirection, d, Some(ticks[d - 2].price), ticks[d - 1].price, EntrySide(c, ticks, d), None, 0)
  }

  function ExitSignal(c: Config, ticks: seq<Tick>, d: nat): Signal
    requires Moves(c, ticks, d) && d + ExitAfter(c) <= |ticks|
  {
    Signal(FixedObservedTickExit, d + ExitAfter(c), None, ticks[d + ExitAfter(c) - 1].price,
           Opposite(EntrySide(c, ticks, d)), Some(d + 1), 0)
  }

  function Signals(c: Config, ticks: seq<Tick>): seq<Signal> {
    match EntryDecision(c, ticks)
    case None => []
    case Some(d) =>
      if |ticks| < d + ExitAfter(c) then [EntrySignal(c, ticks, d)]
      else [EntrySignal(c, ticks, d), ExitSignal(c, ticks, d)]
  }

  function EntryIntent(c: Config, ticks: seq<Tick>, d: nat): Intent
    requires Moves(c, ticks, d)
  {
    Intent(d, d + 1, EntrySide(c, ticks, d), c.quantity, true, false)
  }

  function ExitIntent(c: Config, ticks: seq<Tick>, d: nat): Intent
    requires Moves(c, ticks, d)
  {
    Intent(d + ExitAfter(c), d + ExitAfter(c) + 1, Opposite(EntrySide(c, ticks, d)), c.quantity, true, true)
  }

  function Intents(c: Config, ticks: seq<Tick>): seq<Intent> {
    match EntryDecision(c, ticks)
    case None => []
    case Some(d) =>
      if |ticks| <= d then []
      else if |ticks| <= d + ExitAfter(c) then [EntryIntent(c, ticks, d)]
      else [EntryIntent(c, ticks, d), ExitIntent(c, ticks, d)]
  }

  function EntryFill(c: Config, ticks: seq<Tick>, d: nat): Fill
    requires Moves(c, ticks, d) && d < |ticks|
  {
    var side := EntrySide(c, ticks, d);
    Fill(1, d + 1, side, c.quantity, ticks[d].price, ticks[d].tsInit, Signed(side, c.quantity))
  }

  function ExitFill(c: Config, ticks: seq<Tick>, d: nat): Fill
    requires Moves(c, ticks, d) && d + ExitAfter(c) < |ticks|
  {
    var at := ticks[d + ExitAfter(c)];
    Fill(2, d + ExitAfter(c) + 1, Opposite(EntrySide(c, ticks, d)), c.quantity, at.price, at.tsInit, 0.0)
  }

  function Fills(c: Config, ticks: seq<Tick>): seq<Fill> {
    match EntryDecision(c, ticks)
    case None => []
    case Some(d) =>
      if |ticks| <= d then []
      else if |ticks| <= d + ExitAfter(c) then [EntryFill(c, ticks, d)]
      else [EntryFill(c, ticks, d), ExitFill(c, ticks, d)]
  }

  function Position(c: Config, ticks: seq<Tick>): real {
    match EntryDecision(c, ticks)
    case None => 0.0
    case Some(d) => if d < |ticks| <= d + ExitAfter(c) then Signed(EntrySide(c, ticks, d), c.quantity) else 0.0
  }

  // ----------------------------------------------------------------- strategy

  datatype Pending = Pending(side: Side, reduceOnly: bool, decision: nat)

  function PendingAt(c: Config, ticks: seq<Tick>): Option<Pending> {
    match EntryDecision(c, ticks)
    case None => None
    case Some(d) =>
      if |ticks| == d then Some(Pending(EntrySide(c, ticks, d), false, d))
      else if |ticks| == d + ExitAfter(c) then Some(Pending(Opposite(EntrySide(c, ticks, d)), true, d + ExitAfter(c)))
      else None
  }

  predicate Recorded(c: Config, ticks: seq<Tick>, inputs: seq<Input>) {
    && |inputs| == (if |ticks| < c.recordLimit then |ticks| else if c.recordLimit > 0 then c.recordLimit else 0)
    && forall i :: 0 <= i < |inputs| ==> inputs[i] == Input(ticks[i], i + 1)
  }

  /** Everything a run holds besides its inputs and the last price. */
  datatype Book = Book(
    signals: seq<Signal>, intents: seq<Intent>, fills: seq<Fill>, position: real, pending: Option<Pending>,
    entryRequested: bool, exitRequested: bool, entryFillTick: Option<nat>)

  function BookOf(c: Config, ticks: seq<Tick>): Book {
    var d := EntryDecision(c, ticks);
    Book(Signals(c, ticks), Intents(c, ticks), Fills(c, ticks), Position(c, ticks), PendingAt(c, ticks),
         d.Some?, d.Some? && |ticks| >= d.value + ExitAfter(c),
         if d.Some? && |ticks| > d.value then Some(d.value + 1) else None)
  }

  predicate Complete(book: Book) {
    && book.exitRequested && book.pending.None? && book.position == 0.0
    && |book.intents| == 2 && |book.fills| >= 2
  }

  function Size(position: real): real {
    if position < 0.0 then -position else position
  }

  /** A market order submitted and filled in full at the tick that is being handled, the `n`-th. */
  function Submitted(c: Config, book: Book, n: nat, pending: Pending, tick: Tick): Book {
    var quantity := if pending.reduceOnly then Size(book.position) else c.quantity;
    var position := book.position + Signed(pending.side, quantity);
    book.(
      intents := book.intents + [Intent(pending.decision, n, pending.side, quantity, true, pending.reduceOnly)],
      fills := book.fills + [Fill(|book.fills| + 1, n, pending.side, quantity, tick.price, tick.tsInit, position)],
      position := position,
      pending := None,
      entryFillTick := if book.entryFillTick.None? then Some(n) else book.entryFillTick)
  }

  lemma {:induction false} PendingIsUsedUp(c: Config, book: Book, n: nat, pending: Pending, tick: Tick)
    ensures Submitted(c, book.(pending := None), n, pending, tick) == Submitted(c, book, n, pending, tick)
  {
  }

  /** One more tick decides the entry only where no entry was decided before. */
  lemma {:induction false} OneMoreTick(c: Config, ticks: seq<Tick>, tick: Tick)
    ensures EntryDecision(c, ticks + [tick]) ==
            if EntryDecision(c, ticks).Some? then EntryDecision(c, ticks)
            else if Moves(c, ticks + [tick], |ticks| + 1) then Some(|ticks| + 1) else None
  {
    assert (ticks + [tick])[..|ticks|] == ticks;
  }

  lemma {:induction false} PendingIsSubmitted(c: Config, ticks: seq<Tick>, tick: Tick)
    requires ValidConfig(c)
    requires PendingAt(c, ticks).Some?
    ensures BookOf(c, ticks + [tick]) == Submitted(c, BookOf(c, ticks), |ticks| + 1, PendingAt(c, ticks).value, tick)
  {
    OneMoreTick(c, ticks, tick);
  }

  /** What the `n`-th tick decides when nothing is pending. */
  function Decided(c: Config, book: Book, n: nat, last: real, price: real): Book {
    var entry := DecideEntry(last, price);
    var exit := if book.position > 0.0 then SELL else BUY;
    if !book.entryRequested && n >= c.warmup then
      if entry.None? then book
      else book.(signals := book.signals + [Signal(TwoTradeDirection, n, Some(last), price, entry.value, None, 0)],
                 pending := Some(Pending(entry.value, false, n)),
                 entryRequested := true)
    else if book.entryFillTick.Some? && !book.exitRequested && book.position != 0.0
            && n - book.entryFillTick.value >= c.hold then
      book.(signals := book.signals
              + [Signal(FixedObservedTickExit, n, None, price, exit, Some(book.entryFillTick.value), 0)],
            pending := Some(Pending(exit, true, n)),
            exitRequested := true)
    else book
  }

  lemma {:induction false} NextIsDecided(c: Config, ticks: seq<Tick>, tick: Tick)
    requires ValidConfig(c)
    requires ticks != [] && PendingAt(c, ticks).None?
    ensures BookOf(c, ticks + [tick]) == Decided(c, BookOf(c, ticks), |ticks| + 1, ticks[|ticks| - 1].price, tick.price)
  {
    OneMoreTick(c, ticks, tick);
  }

  lemma {:induction false} FirstTickIsOnlySeen(c: Config, tick: Tick)
    ensures BookOf(c, [] + [tick]) == BookOf(c, [])
  {
    OneMoreTick(c, [], tick);
  }

  lemma {:induction false} RecordingGoesOn(c: Config, ticks: seq<Tick>, tick: Tick, inputs: seq<Input>)
    requires Recorded(c, ticks, inputs)
    ensures var more := [Input(tick, |ticks| + 1)];
            Recorded(c, ticks + [tick], if |inputs| < c.recordLimit then inputs + more else inputs)
  {
  }

  class SmokeStrategy {
    const config: Config
    var inputs: seq<Input>
    var signals: seq<Signal>
    var orderIntents: seq<Intent>
    var fills: seq<Fill>
    var rejections: nat
    var tickCount: nat
    var previousPrice: Option<real>
    var entryRequested: bool
    var exitRequested: bool
    var entryFillTick: Option<nat>
    var positionQty: real
    var pendingOrder: Option<Pending>
    ghost var seen: seq<Tick>

    ghost function Held(): Book
      reads this
    {
      Book(signals, orderIntents, fills, positionQty, pendingOrder, entryRequested, exitRequested, entryFillTick)
    }

    /** The fields are what the ticks seen so far make of them. */
    ghost predicate Valid()
      reads this
    {
      && ValidConfig(config)
      && tickCount == |seen|
      && previousPrice == (if seen == [] then None else Some(seen[|seen| - 1].price))
      && Recorded(config, seen, inputs)
      && rejections == 0
      && Held() == BookOf(config, seen)
    }

    constructor (c: Config)
      requires ValidConfig(c)
      ensures Valid() && config == c && seen == []
    {
      config := c;
      inputs, signals, orderIntents, fills, rejections := [], [], [], [], 0;
      tickCount, previousPrice := 0, None;
      entryRequested, exitRequested, entryFillTick := false, false, None;
      positionQty, pendingOrder := 0.0, None;
      seen := [];
    }

    /** Both orders submitted and filled, flat again, nothing refused. */
    ghost predicate IsComplete()
      reads this
    {
      Complete(Held()) && rejections == 0
    }

    method OnTradeTick(tick: Tick)
      requires Valid()
      modifies this
      ensures Valid() && seen == old(seen) + [tick]
    {
      hide BookOf, Recorded, EntryDecision, PendingAt, Submitted, Decided;
      BookTells(config, seen);
      ghost var before := seen;
      var previous := previousPrice;
      Observe(tick);

      if pendingOrder.Some? {
        PendingIsSubmitted(config, before, tick);
        PendingIsUsedUp(config, BookOf(config, before), tickCount, pendingOrder.value, tick);
        var pending := pendingOrder.value;
        pendingOrder := None;
        SubmitMarket(pending.side, pending.reduceOnly, pending.decision, tick);
        return;
      }
      if previous.None? {
        FirstTickIsOnlySeen(config, tick);
        return;
      }
      NextIsDecided(config, before, tick);
      Decide(previous.value, tick.price);
    }

    method Observe(tick: Tick)
      requires tickCount == |seen| && Recorded(config, seen, inputs)
      modifies this`tickCount, this`inputs, this`previousPrice, this`seen
      ensures seen == old(seen) + [tick] && tickCount == |seen| && Recorded(config, seen, inputs)
      ensures previousPrice == Some(tick.price)
    {
      RecordingGoesOn(config, seen, tick, inputs);
      tickCount := tickCount + 1;
      if |inputs| < config.recordLimit {
        inputs := inputs + [Input(tick, tickCount)];
      }
      previousPrice := Some(tick.price);
      seen := seen + [tick];
    }

    /** The two decisions: the entry once after the warm-up, the exit once after the holding time. */
    method Decide(previous: real, price: real)
      modifies this`signals, this`pendingOrder, this`entryRequested, this`exitRequested
      ensures Held() == Decided(config, old(Held()), tickCount, previous, price)
    {
      if !entryRequested && tickCount >= config.warmup {
        var side := DecideEntry(previous, price);
        if side.None? {
          return;
        }
        signals := signals + [Signal(TwoTradeDirection, tickCount, Some(previous), price, side.value, None, 0)];
        pendingOrder := Some(Pending(side.value, false, tickCount));
        entryRequested := true;
        return;
      }
      if entryFillTick.Some? && !exitRequested && positionQty != 0.0 && tickCount - entryFillTick.value >= config.hold {
        var side := if positionQty > 0.0 then SELL else BUY;
        signals := signals
          + [Signal(FixedObservedTickExit, tickCount, None, price, side, Some(entryFillTick.value), 0)];
        pendingOrder := Some(Pending(side, true, tickCount));
        exitRequested := true;
      }
    }

    /** Submit a market order, which the engine fills in full at the tick that is being handled. */
    method SubmitMarket(side: Side, reduceOnly: bool, decision: nat, tick: Tick)
      requires pendingOrder.None?
      modifies this`orderIntents, this`fills, this`positionQty, this`entryFillTick
      ensures Held() == Submitted(config, old(Held()), tickCount, Pending(side, reduceOnly, decision), tick)
    {
      var quantity := if reduceOnly then Size(positionQty) else config.quantity;
      orderIntents := orderIntents + [Intent(decision, tickCount, side, quantity, true, reduceOnly)];
      OnOrderFilled(side, quantity, tick.price, tick.tsInit);
    }

    method OnOrderFilled(side: Side, quantity: real, price: real, tsEvent: int)
      modifies this`fills, this`positionQty, this`entryFillTick
      ensures positionQty == old(positionQty) + Signed(side, quantity)
      ensures entryFillTick == if old(entryFillTick).None? then Some(tickCount) else old(entryFillTick)
      ensures fills == old(fills) + [Fill(|old(fills)| + 1, tickCount, side, quantity, price, tsEvent, positionQty)]
    {
      positionQty := positionQty + Signed(side, quantity);
      if entryFillTick.None? {
        entryFillTick := Some(tickCount);
      }
      fills := fills + [Fill(|fills| + 1, tickCount, side, quantity, price, tsEvent, positionQty)];
    }
  }

  /** What the fields of a book say about the decision behind it. */
  lemma {:induction false} BookTells(c: Config, ticks: seq<Tick>)
    ensures BookOf(c, ticks).pending == PendingAt(c, ticks)
    ensures BookOf(c, ticks).entryRequested <==> EntryDecision(c, ticks).Some?
    ensures EntryDecision(c, ticks).None? ==> BookOf(c, ticks).entryFillTick.None?
  {
  }

  /** A run over a whole list of ticks. */
  method Replay(c: Config, ticks: seq<Tick>) returns (strategy: SmokeStrategy)
    requires ValidConfig(c)
    ensures fresh(strategy) && strategy.Valid() && strategy.config == c && strategy.seen == ticks
  {
    strategy := new SmokeStrategy(c);
    for i := 0 to |ticks|
      invariant fresh(strategy) && strategy.Valid() && strategy.config == c && strategy.seen == ticks[..i]
    {
      strategy.OnTradeTick(ticks[i]);
    }
  }

  /**
    A run completes exactly when the price moved at some tick from the warm-up on and at least the holding
    time and the two deferred orders lie behind that tick.
   */
  lemma {:induction false} CompletesIff(c: Config, ticks: seq<Tick>)
    requires ValidConfig(c)
    ensures Complete(BookOf(c, ticks)) <==> exists d: nat :: Moves(c, ticks, d) && d + ExitAfter(c) < |ticks|
  {
    var first := EntryDecision(c, ticks);
    if first.Some? && Complete(BookOf(c, ticks)) {
      assert Moves(c, ticks, first.value);
    }
  }

  /**
    In every run there are at most two orders, each decided by the signal at the same place and submitted
    exactly one tick later, the second one in the opposite direction and only to reduce.
   */
  lemma {:induction false} OrdersAreDeferred(c: Config, ticks: seq<Tick>)
    requires ValidConfig(c)
    ensures |Intents(c, ticks)| <= |Signals(c, ticks)| <= 2 && |Fills(c, ticks)| == |Intents(c, ticks)|
    ensures forall i :: 0 <= i < |Intents(c, ticks)| ==>
      var intent, fill := Intents(c, ticks)[i], Fills(c, ticks)[i];
      && intent.decision == Signals(c, ticks)[i].decision && intent.side == Signals(c, ticks)[i].side
      && intent.submission == intent.decision + 1 == fill.observed <= |ticks|
      && fill.price == ticks[intent.decision].price && fill.quantity == intent.quantity
      && (intent.reduceOnly <==> i == 1)
    ensures |Intents(c, ticks)| == 2 ==>
      && Intents(c, ticks)[1].side == Opposite(Intents(c, ticks)[0].side)
      && Intents(c, ticks)[1].quantity == Intents(c, ticks)[0].quantity
  {
  }
}
