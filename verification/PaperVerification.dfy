/**
  The check of a PAPER artifact from its own records, the economics recomputed from the fills, and what
  an accepted artifact must be.
 */
module PaperVerification {
  import opened Wrappers
  import opened PaperLifecycle

  // ---------------------------------------------------------------- economics

  datatype Assumptions = Assumptions(takerFeeBps: real, halfSpreadBps: real, slippageBps: real, fundingPayment: real)

  const DEFAULT_ASSUMPTIONS := Assumptions(4.5, 0.5, 1.0, 0.0)

  datatype Overlay = Overlay(
    cash: real, mark: real, position: real, equity: real, netPnl: real,
    fee: real, spread: real, slippage: real, funding: real)

  function Net(fills: seq<Fill>): real {
    if fills == [] then 0.0
    else Net(fills[..|fills| - 1]) + Signed(fills[|fills| - 1].side, fills[|fills| - 1].quantity)
  }

  function Turnover(fills: seq<Fill>): real {
    if fills == [] then 0.0
    else Turnover(fills[..|fills| - 1]) + fills[|fills| - 1].quantity * fills[|fills| - 1].price
  }

  /** What every fill has gained at the mark price. */
  function Gain(fills: seq<Fill>, mark: real): real {
    if fills == [] then 0.0
    else
      var last := fills[|fills| - 1];
      Gain(fills[..|fills| - 1], mark) + Signed(last.side, last.quantity) * (mark - last.price)
  }

  function Spent(fills: seq<Fill>): real {
    if fills == [] then 0.0
    else
      var last := fills[|fills| - 1];
      Spent(fills[..|fills| - 1]) + Signed(last.side, last.quantity) * last.price
  }

  lemma {:induction false} GainIsWorthLessSpent(fills: seq<Fill>, mark: real)
    ensures Gain(fills, mark) == Net(fills) * mark - Spent(fills)
  {
    if fills != [] {
      GainIsWorthLessSpent(fills[..|fills| - 1], mark);
    }
  }

  function Bps(amount: real, bps: real): real {
    amount * bps / 10000.0
  }

  /** Equity is the starting cash plus the gain at the mark, less costs on the turnover and funding. */
  predicate Recomputes(o: Overlay, fills: seq<Fill>, mark: real, a: Assumptions) {
    && o.mark == mark && o.position == Net(fills) && o.funding == a.fundingPayment
    && o.fee == Bps(Turnover(fills), a.takerFeeBps)
    && o.spread == Bps(Turnover(fills), a.halfSpreadBps)
    && o.slippage == Bps(Turnover(fills), a.slippageBps)
    && o.equity == STARTING_CASH + Gain(fills, mark) - (o.fee + o.spread + o.slippage) - o.funding
    && o.cash == o.equity - o.position * mark
    && o.netPnl == o.equity - STARTING_CASH
  }

  method CostOverlay(fills: seq<Fill>, mark: real, a: Assumptions) returns (o: Overlay)
    ensures Recomputes(o, fills, mark, a)
  {
    var cash, position, fees, spreads, slippages := STARTING_CASH, 0.0, 0.0, 0.0, 0.0;
    for i := 0 to |fills|
      invariant position == Net(fills[..i])
      invariant fees == Bps(Turnover(fills[..i]), a.takerFeeBps)
      invariant spreads == Bps(Turnover(fills[..i]), a.halfSpreadBps)
      invariant slippages == Bps(Turnover(fills[..i]), a.slippageBps)
      invariant cash == STARTING_CASH - Spent(fills[..i]) - (fees + spreads + slippages)
    {
      assert fills[..i + 1][..i] == fills[..i];
      var signed := Signed(fills[i].side, fills[i].quantity);
      var notional := fills[i].quantity * fills[i].price;
      var fee, spread := Bps(notional, a.takerFeeBps), Bps(notional, a.halfSpreadBps);
      var slippage := Bps(notional, a.slippageBps);
      cash := cash - signed * fills[i].price;
      cash := cash - (fee + spread + slippage);
      position := position + signed;
      fees, spreads, slippages := fees + fee, spreads + spread, slippages + slippage;
    }
    assert fills[..|fills|] == fills;
    GainIsWorthLessSpent(fills, mark);
    cash := cash - a.fundingPayment;
    var equity := cash + position * mark;
    o := Overlay(cash, mark, position, equity, equity - STARTING_CASH, fees, spreads, slippages, a.fundingPayment);
  }

  // --------------------------------------------------------------- the check

  datatype Status = Canceled | Expired | Filled | Rejected | Working

  datatype OrderReport = OrderReport(
    id: string, status: Status, market: bool, immediateOrCancel: bool, instrument: string, side: Side,
    reduceOnly: bool, quantity: real, filled: real)

  datatype FillReport = FillReport(id: string, side: Side, quantity: real, price: real)

  datatype PositionReport = PositionReport(flat: bool, quantity: real)

  /** What the engine itself reports of a run; of its order fills only the order they belong to is looked at. */
  datatype Reports = Reports(
    orders: seq<OrderReport>, orderFills: seq<string>, fills: seq<FillReport>, positions: seq<PositionReport>)

  const INSTRUMENT := "BTC-USD-PERP.HYPERLIQUID"

  datatype Artifact = Artifact(
    signals: seq<Signal>, intents: seq<Intent>, fills: seq<Fill>, rejections: nat, tickCount: nat,
    finalPosition: real, complete: bool, reports: Reports, assumptions: Assumptions, overlay: Overlay)

  predicate SignalOk(signal: Signal, exit: bool, ticks: seq<Tick>) {
    && 2 <= signal.decision <= |ticks| && signal.lookahead == 0
    && signal.current == ticks[signal.decision - 1].price
    && if exit then signal.kind.FixedObservedTickExit?
       else
         && signal.kind.TwoTradeDirection?
         && signal.previous == Some(ticks[signal.decision - 2].price)
         && DecideEntry(ticks[signal.decision - 2].price, ticks[signal.decision - 1].price) == Some(signal.side)
  }

  /** The one tick at which something happened, by its clock. */
  predicate Identifies(ticks: seq<Tick>, tsEvent: int, k: nat) {
    && k < |ticks| && ticks[k].tsInit == tsEvent
    && forall j :: 0 <= j < |ticks| && ticks[j].tsInit == tsEvent ==> j == k
  }

  predicate Executed(fill: Fill, intent: Intent, ticks: seq<Tick>, k: nat) {
    && Identifies(ticks, fill.tsEvent, k)
    && intent.submission <= k + 1 <= fill.observed
    && fill.price == ticks[k].price
  }

  /** One order, from its signal to its fill. */
  ghost predicate LegOk(signal: Signal, intent: Intent, fill: Fill, exit: bool, ticks: seq<Tick>) {
    && intent.decision == signal.decision && intent.submission == signal.decision + 1
    && intent.side == signal.side && intent.market && (intent.reduceOnly <==> exit)
    && Aligned(fill.quantity) && intent.quantity == fill.quantity
    && fill.ordinal == (if exit then 2 else 1) && fill.side == intent.side
    && intent.submission <= fill.observed <= |ticks|
    && exists k :: Executed(fill, intent, ticks, k)
  }

  predicate IsTerminal(status: Status) {
    status.Canceled? || status.Expired? || status.Filled? || status.Rejected?
  }

  /** The engine's report of one order and of its fill say the same as the intent and the fill recorded. */
  predicate ReportOk(
    intent: Intent, fill: Fill, order: OrderReport, orderFill: string, reported: FillReport, exit: bool)
  {
    && order.status.Filled? && order.market && order.immediateOrCancel && order.instrument == INSTRUMENT
    && order.side == intent.side && (order.reduceOnly <==> exit)
    && order.quantity == order.filled == fill.quantity
    && orderFill == order.id
    && reported == FillReport(order.id, fill.side, fill.quantity, fill.price)
  }

  predicate IsFlat(p: PositionReport) {
    p.flat && p.quantity == 0.0
  }

  ghost predicate ReportsOk(r: Reports, intents: seq<Intent>, fills: seq<Fill>)
    requires |intents| == |fills| == 2
  {
    && |r.orders| == |r.orderFills| == |r.fills| == 2
    && (forall i :: 0 <= i < 2 ==> ReportOk(intents[i], fills[i], r.orders[i], r.orderFills[i], r.fills[i], i == 1))
    && exists i :: 0 <= i < |r.positions| && IsFlat(r.positions[i])
  }

  ghost predicate Accepts(a: Artifact, ticks: seq<Tick>) {
    && |a.signals| == |a.intents| == |a.fills| == 2 && a.rejections == 0 && a.tickCount == |ticks|
    && (forall i :: 0 <= i < 2 ==> SignalOk(a.signals[i], i == 1, ticks))
    && (forall i :: 0 <= i < 2 ==> LegOk(a.signals[i], a.intents[i], a.fills[i], i == 1, ticks))
    && (forall i :: 0 <= i < 2 ==> a.fills[i].positionAfter == Net(a.fills[..i + 1]))
    && Net(a.fills) == 0.0 && a.finalPosition == 0.0 && a.complete
    && a.signals[1].entryFill == Some(a.fills[0].observed)
    && ReportsOk(a.reports, a.intents, a.fills)
    && a.assumptions == DEFAULT_ASSUMPTIONS
    && Recomputes(a.overlay, a.fills, ticks[|ticks| - 1].price, DEFAULT_ASSUMPTIONS)
  }

  /** Collect the ticks with this time stamp; the only one, if there is just one. */
  method FindExecution(ticks: seq<Tick>, tsEvent: int) returns (k: Option<nat>)
    ensures k.Some? ==> Identifies(ticks, tsEvent, k.value)
    ensures k.None? ==> forall j :: !Identifies(ticks, tsEvent, j)
  {
    var matches: seq<nat> := [];
    for i := 0 to |ticks|
      invariant forall m :: 0 <= m < |matches| ==> matches[m] < i && ticks[matches[m]].tsInit == tsEvent
      invariant forall m, n :: 0 <= m < n < |matches| ==> matches[m] < matches[n]
      invariant forall j :: 0 <= j < i && ticks[j].tsInit == tsEvent ==> j in matches
    {
      if ticks[i].tsInit == tsEvent {
        matches := matches + [i];
      }
    }
    if |matches| != 1 {
      assert |matches| >= 2 ==> ticks[matches[0]].tsInit == tsEvent && ticks[matches[1]].tsInit == tsEvent;
      return None;
    }
    return Some(matches[0]);
  }

  method CheckLeg(signal: Signal, intent: Intent, fill: Fill, exit: bool, ticks: seq<Tick>) returns (ok: bool)
    ensures ok <==> LegOk(signal, intent, fill, exit, ticks)
  {
    if intent.decision != signal.decision || intent.submission != signal.decision + 1
       || intent.side != signal.side || !intent.market || intent.reduceOnly != exit
       || !Aligned(fill.quantity) || intent.quantity != fill.quantity
       || fill.ordinal != (if exit then 2 else 1) || fill.side != intent.side
       || !(intent.submission <= fill.observed <= |ticks|)
    {
      return false;
    }
    var k := FindExecution(ticks, fill.tsEvent);
    if k.None? {
      return false;
    }
    ok := Executed(fill, intent, ticks, k.value);
  }

  method CheckSignals(a: Artifact, ticks: seq<Tick>) returns (ok: bool)
    requires |a.signals| == 2
    ensures ok <==> forall i :: 0 <= i < 2 ==> SignalOk(a.signals[i], i == 1, ticks)
  {
    for i := 0 to 2
      invariant forall k :: 0 <= k < i ==> SignalOk(a.signals[k], k == 1, ticks)
    {
      if !SignalOk(a.signals[i], i == 1, ticks) {
        return false;
      }
    }
    return true;
  }

  method CheckLegs(a: Artifact, ticks: seq<Tick>) returns (ok: bool, position: real)
    requires |a.signals| == |a.intents| == |a.fills| == 2
    ensures ok <==>
      && (forall i :: 0 <= i < 2 ==> LegOk(a.signals[i], a.intents[i], a.fills[i], i == 1, ticks))
      && (forall i :: 0 <= i < 2 ==> a.fills[i].positionAfter == Net(a.fills[..i + 1]))
    ensures ok ==> position == Net(a.fills)
  {
    hide LegOk;
    position := 0.0;
    for i := 0 to 2
      invariant position == Net(a.fills[..i])
      invariant forall k :: 0 <= k < i ==> LegOk(a.signals[k], a.intents[k], a.fills[k], k == 1, ticks)
      invariant forall k :: 0 <= k < i ==> a.fills[k].positionAfter == Net(a.fills[..k + 1])
    {
      var leg := CheckLeg(a.signals[i], a.intents[i], a.fills[i], i == 1, ticks);
      if !leg {
        return false, position;
      }
      assert a.fills[..i + 1][..i] == a.fills[..i];
      position := position + Signed(a.fills[i].side, a.fills[i].quantity);
      if a.fills[i].positionAfter != position {
        return false, position;
      }
    }
    assert a.fills[..2] == a.fills;
    return true, position;
  }

  method CheckReports(r: Reports, intents: seq<Intent>, fills: seq<Fill>) returns (ok: bool)
    requires |intents| == |fills| == 2
    ensures ok <==> ReportsOk(r, intents, fills)
  {
    hide ReportOk;
    if |r.orders| != 2 || |r.orderFills| != 2 || |r.fills| != 2 {
      return false;
    }
    for i := 0 to 2
      invariant forall k :: 0 <= k < i ==> IsTerminal(r.orders[k].status)
    {
      if !IsTerminal(r.orders[i].status) {
        FilledIsTerminal(intents[i], fills[i], r.orders[i], r.orderFills[i], r.fills[i], i == 1);
        return false;
      }
    }
    for i := 0 to 2
      invariant forall k :: 0 <= k < i ==>
        ReportOk(intents[k], fills[k], r.orders[k], r.orderFills[k], r.fills[k], k == 1)
    {
      if !ReportOk(intents[i], fills[i], r.orders[i], r.orderFills[i], r.fills[i], i == 1) {
        return false;
      }
    }
    for i := 0 to |r.positions|
      invariant forall k :: 0 <= k < i ==> !IsFlat(r.positions[k])
    {
      if IsFlat(r.positions[i]) {
        return true;
      }
    }
    return false;
  }

  lemma {:induction false} FilledIsTerminal(
    intent: Intent, fill: Fill, order: OrderReport, orderFill: string, reported: FillReport, exit: bool)
    requires !IsTerminal(order.status)
    ensures !ReportOk(intent, fill, order, orderFill, reported, exit)
  {
  }

  method ValidateLifecycle(a: Artifact, ticks: seq<Tick>) returns (accepted: bool)
    ensures accepted <==> Accepts(a, ticks)
  {
    hide LegOk, Net, ReportsOk;
    if |a.signals| != 2 || |a.intents| != 2 || |a.fills| != 2 || a.rejections != 0 || a.tickCount != |ticks| {
      return false;
    }
    var signals := CheckSignals(a, ticks);
    if !signals {
      return false;
    }
    var legs, position := CheckLegs(a, ticks);
    if !legs || position != 0.0 || a.finalPosition != position || !a.complete
       || a.signals[1].entryFill != Some(a.fills[0].observed)
    {
      return false;
    }
    var reports := CheckReports(a.reports, a.intents, a.fills);
    if !reports || a.assumptions != DEFAULT_ASSUMPTIONS {
      return false;
    }
    var recomputed := CostOverlay(a.fills, ticks[|ticks| - 1].price, DEFAULT_ASSUMPTIONS);
    accepted := a.overlay == recomputed;
  }

  // ------------------------------------------------------------- main claims

  function OrderReportOf(id: string, intent: Intent, fill: Fill): OrderReport {
    OrderReport(
      id, Filled, intent.market, true, INSTRUMENT, intent.side, intent.reduceOnly, intent.quantity, fill.quantity)
  }

  /** What the engine reports of immediate orders it filled in full, whatever ids it gave them. */
  function ReportsOf(ids: seq<string>, intents: seq<Intent>, fills: seq<Fill>, position: real): Reports
    requires |ids| == |intents| == |fills|
  {
    Reports(
      seq(|ids|, i requires 0 <= i < |ids| => OrderReportOf(ids[i], intents[i], fills[i])),
      ids,
      seq(|ids|, i requires 0 <= i < |ids| => FillReport(ids[i], fills[i].side, fills[i].quantity, fills[i].price)),
      [PositionReport(position == 0.0, if position < 0.0 then -position else position)])
  }

  /** What a run leaves behind for the check. */
  function ArtifactOf(c: Config, ticks: seq<Tick>, reports: Reports, overlay: Overlay): Artifact {
    var book := BookOf(c, ticks);
    Artifact(book.signals, book.intents, book.fills, 0, |ticks|, book.position, Complete(book), reports,
             DEFAULT_ASSUMPTIONS, overlay)
  }

  /**
    Every run of any configuration over ticks with a strictly increasing clock passes the check, once it is
    complete, with the overlay recomputed from its own fills at the last price.
   */
  lemma {:induction false} CompleteRunsAreAccepted(c: Config, ticks: seq<Tick>, ids: seq<string>, overlay: Overlay)
    requires ValidConfig(c) && StrictlyIncreasing(ticks) && Complete(BookOf(c, ticks))
    requires Recomputes(overlay, BookOf(c, ticks).fills, ticks[|ticks| - 1].price, DEFAULT_ASSUMPTIONS)
    requires |ids| == |BookOf(c, ticks).intents| == |BookOf(c, ticks).fills|
    ensures var book := BookOf(c, ticks);
            Accepts(ArtifactOf(c, ticks, ReportsOf(ids, book.intents, book.fills, book.position), overlay), ticks)
  {
    hide Recomputes, Aligned, ReportsOk, ReportsOf;
    var d := EntryDecision(c, ticks).value;
    TwoFills(Fills(c, ticks), 0.0);
    EntryLegIsOk(c, ticks, d);
    ExitLegIsOk(c, ticks, d);
    var book := BookOf(c, ticks);
    FullFillsAreReported(ids, book.intents, book.fills);
  }

  lemma {:induction false} FullFillsAreReported(ids: seq<string>, intents: seq<Intent>, fills: seq<Fill>)
    requires |ids| == |intents| == |fills| == 2
    requires forall i :: 0 <= i < 2 ==>
      intents[i].market && (intents[i].reduceOnly <==> i == 1) && intents[i].quantity == fills[i].quantity
    ensures ReportsOk(ReportsOf(ids, intents, fills, 0.0), intents, fills)
  {
    var r := ReportsOf(ids, intents, fills, 0.0);
    assert IsFlat(r.positions[0]);
  }

  lemma {:induction false} EntryLegIsOk(c: Config, ticks: seq<Tick>, d: nat)
    requires ValidConfig(c) && StrictlyIncreasing(ticks) && Moves(c, ticks, d) && d < |ticks|
    ensures LegOk(EntrySignal(c, ticks, d), EntryIntent(c, ticks, d), EntryFill(c, ticks, d), false, ticks)
  {
    assert Executed(EntryFill(c, ticks, d), EntryIntent(c, ticks, d), ticks, d);
  }

  lemma {:induction false} ExitLegIsOk(c: Config, ticks: seq<Tick>, d: nat)
    requires ValidConfig(c) && StrictlyIncreasing(ticks) && Moves(c, ticks, d) && d + ExitAfter(c) < |ticks|
    ensures LegOk(ExitSignal(c, ticks, d), ExitIntent(c, ticks, d), ExitFill(c, ticks, d), true, ticks)
  {
    assert Executed(ExitFill(c, ticks, d), ExitIntent(c, ticks, d), ticks, d + ExitAfter(c));
  }

  /** The sums over two fills, written out. */
  lemma {:induction false} TwoFills(fills: seq<Fill>, mark: real)
    requires |fills| == 2
    ensures var entry, exit := fills[0], fills[1];
            && Net(fills[..0 + 1]) == Signed(entry.side, entry.quantity)
            && fills[..1 + 1] == fills
            && Net(fills) == Signed(entry.side, entry.quantity) + Signed(exit.side, exit.quantity)
            && Turnover(fills) == entry.quantity * entry.price + exit.quantity * exit.price
            && Gain(fills, mark) == Signed(entry.side, entry.quantity) * (mark - entry.price)
                                    + Signed(exit.side, exit.quantity) * (mark - exit.price)
  {
    var one := fills[..1];
    assert one[..0] == [] && |one| == 1 && one[0] == fills[0];
    assert fills[..|fills| - 1] == one;
    assert Net([]) == 0.0 && Turnover([]) == 0.0 && Gain([], mark) == 0.0;
  }

  /** The profit of an accepted artifact depends on its two prices only, not on where the market went after. */
  lemma {:induction false} AcceptedIsRoundTrip(a: Artifact, ticks: seq<Tick>)
    requires Accepts(a, ticks)
    ensures var entry, exit := a.fills[0], a.fills[1];
            && exit.quantity == entry.quantity > 0.0
            && exit.side == Opposite(entry.side)
            && a.overlay.netPnl ==
               Signed(entry.side, entry.quantity) * (exit.price - entry.price)
               - Bps(entry.quantity * (entry.price + exit.price), 6.0)
  {
    var mark := ticks[|ticks| - 1].price;
    hide ReportsOk;
    TwoFills(a.fills, mark);
    assert LegOk(a.signals[0], a.intents[0], a.fills[0], 0 == 1, ticks);
    assert LegOk(a.signals[1], a.intents[1], a.fills[1], 1 == 1, ticks);
  }

  /** The profit is that of the engine's own fill reports, each for an order it reports as filled in full. */
  lemma {:induction false} ProfitIsOfReportedFills(a: Artifact, ticks: seq<Tick>)
    requires Accepts(a, ticks)
    ensures |a.reports.orders| == |a.reports.fills| == 2
    ensures forall i :: 0 <= i < 2 ==>
      var order, fill := a.reports.orders[i], a.reports.fills[i];
      && order.status.Filled? && fill.id == order.id
      && fill.side == order.side && fill.quantity == order.filled == order.quantity
    ensures var entry, exit := a.reports.fills[0], a.reports.fills[1];
            a.overlay.netPnl ==
            Signed(entry.side, entry.quantity) * (exit.price - entry.price)
            - Bps(entry.quantity * (entry.price + exit.price), 6.0)
  {
    AcceptedIsRoundTrip(a, ticks);
    hide Accepts, Bps;
  }

  /** The same for any list of fills: what is left is the gain at the mark less six basis points of the turnover. */
  lemma {:induction false} EquityOfAnyFills(o: Overlay, fills: seq<Fill>, mark: real)
    requires Recomputes(o, fills, mark, DEFAULT_ASSUMPTIONS)
    ensures o.netPnl == Gain(fills, mark) - Bps(Turnover(fills), 6.0)
    ensures o.cash == STARTING_CASH - Spent(fills) - Bps(Turnover(fills), 6.0)
  {
    GainIsWorthLessSpent(fills, mark);
  }
}
