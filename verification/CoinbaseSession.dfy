/**
  One public Coinbase session: the subscription answer, the single order-book snapshot, and trade ids
  that advance, with every missing interval reported where it is noticed.
 */
module CoinbaseSession {
  import opened Wrappers

  const CHANNELS := ["level2_batch", "matches", "heartbeat"]

  datatype Channel = Channel(name: string, scoped: bool)

  /** A message as its kind and ids; `wellFormed` stands for every other field of it. */
  datatype Message =
    | ErrorMessage
    | Subscriptions(channels: seq<Channel>)
    | Snapshot(ours: bool, wellFormed: bool)
    | L2Update(ours: bool, wellFormed: bool)
    | Match(ours: bool, wellFormed: bool, tradeId: nat)
    | LastMatch(ours: bool, wellFormed: bool, tradeId: nat)
    | Heartbeat(ours: bool, wellFormed: bool, lastTradeId: nat)
    | Unsupported(ours: bool)

  datatype Event =
    | SubscriptionsActive | BookSnapshot | BookUpdate | TradeAnchor(id: nat) | Trade(id: nat) | Beat(last: nat)

  datatype Quality =
    | TradeGap(first: nat, last: nat)
    | AnchorMissing
    | CoverageUncertain(claimed: nat, observed: Option<nat>)

  datatype Frame = Frame(event: Event, quality: seq<Quality>)

  datatype State = State(acknowledged: bool, hasSnapshot: bool, lastTrade: Option<nat>, lastBeat: Option<nat>)

  function Canonical(name: string): string {
    if name == "level2_50" then "level2_batch" else name
  }

  /** Three answers, each for the one product, that name every requested channel. */
  predicate Acknowledges(channels: seq<Channel>) {
    && |channels| == |CHANNELS|
    && (forall i :: 0 <= i < |channels| ==> channels[i].scoped && Canonical(channels[i].name) in CHANNELS)
    && (forall c :: c in CHANNELS ==> exists i :: 0 <= i < |channels| && Canonical(channels[i].name) == c)
  }

  function TradeNext(s: State, id: nat, anchor: bool): Option<(State, Frame)> {
    var quality :=
      if s.lastTrade.Some? && id > s.lastTrade.value + 1 then [TradeGap(s.lastTrade.value + 1, id - 1)]
      else if s.lastTrade.None? && !anchor then [AnchorMissing]
      else [];
    if s.lastTrade.Some? && (anchor || id <= s.lastTrade.value) then None
    else Some((s.(lastTrade := Some(id)), Frame(if anchor then TradeAnchor(id) else Trade(id), quality)))
  }

  function BeatNext(s: State, last: nat): Option<(State, Frame)> {
    if s.lastBeat.Some? && last < s.lastBeat.value then None
    else
      var ahead := s.lastTrade.None? || last > s.lastTrade.value;
      var quality := if ahead then [CoverageUncertain(last, s.lastTrade)] else [];
      Some((s.(lastBeat := Some(last)), Frame(Beat(last), quality)))
  }

  /** One message; None is an integrity failure, which ends the session. */
  function Next(s: State, m: Message): Option<(State, Frame)> {
    match m
    case ErrorMessage => None
    case Subscriptions(channels) =>
      if s.acknowledged || !Acknowledges(channels) then None
      else Some((s.(acknowledged := true), Frame(SubscriptionsActive, [])))
    case Snapshot(ours, ok) =>
      if !s.acknowledged || !ours || s.hasSnapshot || !ok then None
      else Some((s.(hasSnapshot := true), Frame(BookSnapshot, [])))
    case L2Update(ours, ok) =>
      if !s.acknowledged || !ours || !s.hasSnapshot || !ok then None else Some((s, Frame(BookUpdate, [])))
    case Match(ours, ok, id) => if !s.acknowledged || !ours || !ok then None else TradeNext(s, id, false)
    case LastMatch(ours, ok, id) => if !s.acknowledged || !ours || !ok then None else TradeNext(s, id, true)
    case Heartbeat(ours, ok, last) => if !s.acknowledged || !ours || !ok then None else BeatNext(s, last)
    case Unsupported(_) => None
  }

  class CoinbaseSessionState {
    var acknowledged: bool
    var hasSnapshot: bool
    var lastTradeId: Option<nat>
    var lastHeartbeatTradeId: Option<nat>

    ghost function Held(): State
      reads this
    {
      State(acknowledged, hasSnapshot, lastTradeId, lastHeartbeatTradeId)
    }

    constructor ()
      ensures Held() == State(false, false, None, None)
    {
      acknowledged, hasSnapshot, lastTradeId, lastHeartbeatTradeId := false, false, None, None;
    }

    /** A refused message leaves the session as it was. */
    method Normalize(m: Message) returns (frame: Option<Frame>)
      modifies this
      ensures frame.Some? <==> Next(old(Held()), m).Some?
      ensures frame.Some? ==> Next(old(Held()), m) == Some((Held(), frame.value))
      ensures frame.None? ==> Held() == old(Held())
    {
      if m.ErrorMessage? {
        return None;
      }
      if m.Subscriptions? {
        frame := Acknowledge(m.channels);
        return;
      }
      if !acknowledged || !m.ours {
        return None;
      }
      if m.Snapshot? {
        if hasSnapshot || !m.wellFormed {
          return None;
        }
        hasSnapshot := true;
        return Some(Frame(BookSnapshot, []));
      } else if m.L2Update? {
        if !hasSnapshot || !m.wellFormed {
          return None;
        }
        return Some(Frame(BookUpdate, []));
      } else if m.Match? || m.LastMatch? {
        if !m.wellFormed {
          return None;
        }
        frame := TakeTrade(m.tradeId, m.LastMatch?);
      } else if m.Heartbeat? {
        var last, quality := m.lastTradeId, [];
        if !m.wellFormed || (lastHeartbeatTradeId.Some? && last < lastHeartbeatTradeId.value) {
          return None;
        }
        if lastTradeId.None? || last > lastTradeId.value {
          quality := [CoverageUncertain(last, lastTradeId)];
        }
        lastHeartbeatTradeId := Some(last);
        return Some(Frame(Beat(last), quality));
      } else {
        return None;
      }
    }

    /** A match or the opening last_match. */
    method TakeTrade(id: nat, anchor: bool) returns (frame: Option<Frame>)
      modifies this`lastTradeId
      ensures frame.Some? <==> TradeNext(old(Held()), id, anchor).Some?
      ensures frame.Some? ==> TradeNext(old(Held()), id, anchor) == Some((Held(), frame.value))
      ensures frame.None? ==> Held() == old(Held())
    {
      var previous := lastTradeId;
      var quality: seq<Quality> := [];
      if (anchor && previous.Some?) || (previous.Some? && id <= previous.value) {
        return None;
      }
      if previous.Some? && id > previous.value + 1 {
        quality := [TradeGap(previous.value + 1, id - 1)];
      }
      if previous.None? && !anchor {
        quality := [AnchorMissing];
      }
      lastTradeId := Some(id);
      return Some(Frame(if anchor then TradeAnchor(id) else Trade(id), quality));
    }

    method Acknowledge(channels: seq<Channel>) returns (frame: Option<Frame>)
      modifies this`acknowledged
      ensures frame ==
              if old(acknowledged) || !Acknowledges(channels) then None else Some(Frame(SubscriptionsActive, []))
      ensures acknowledged == (old(acknowledged) || frame.Some?)
    {
      if acknowledged || |channels| != |CHANNELS| {
        return None;
      }
      var names: set<string> := {};
      for i := 0 to |channels|
        invariant acknowledged == old(acknowledged)
        invariant forall k :: 0 <= k < i ==> channels[k].scoped && Canonical(channels[k].name) in CHANNELS
        invariant names == set k | 0 <= k < i :: Canonical(channels[k].name)
      {
        if !channels[i].scoped || Canonical(channels[i].name) !in CHANNELS {
          return None;
        }
        names := names + {Canonical(channels[i].name)};
      }
      if names != (set c | c in CHANNELS) {
        return None;
      }
      forall c | c in CHANNELS ensures exists i :: 0 <= i < |channels| && Canonical(channels[i].name) == c {
        assert c in names;
      }
      acknowledged := true;
      return Some(Frame(SubscriptionsActive, []));
    }
  }

  // ------------------------------------------------------------------- runs

  const START := State(false, false, None, None)

  /** A session that accepted every message: where it stands and all it gave out. */
  function Run(messages: seq<Message>): Option<(State, seq<Frame>)> {
    if messages == [] then Some((START, []))
    else
      var before := Run(messages[..|messages| - 1]);
      if before.None? then None
      else
        var step := Next(before.value.0, messages[|messages| - 1]);
        if step.None? then None else Some((step.value.0, before.value.1 + [step.value.1]))
  }

  /** The session object fed with a whole list of messages. */
  method Session(messages: seq<Message>) returns (frames: Option<seq<Frame>>)
    ensures frames == if Run(messages).None? then None else Some(Run(messages).value.1)
  {
    var session := new CoinbaseSessionState();
    var given: seq<Frame> := [];
    for i := 0 to |messages|
      invariant Run(messages[..i]) == Some((session.Held(), given))
    {
      assert messages[..i + 1][..i] == messages[..i];
      var frame := session.Normalize(messages[i]);
      if frame.None? {
        RefusalEndsTheRun(messages, i + 1);
        return None;
      }
      given := given + [frame.value];
    }
    assert messages[..|messages|] == messages;
    return Some(given);
  }

  lemma {:induction false} RefusalEndsTheRun(messages: seq<Message>, n: nat)
    requires n <= |messages| && Run(messages[..n]).None?
    ensures Run(messages).None?
    decreases |messages| - n
  {
    if n < |messages| {
      assert messages[..n + 1][..n] == messages[..n];
      RefusalEndsTheRun(messages, n + 1);
    } else {
      assert messages[..n] == messages;
    }
  }

  predicate IsTrade(frame: Frame) {
    frame.event.Trade? || frame.event.TradeAnchor?
  }

  function Observed(frames: seq<Frame>): seq<nat> {
    if frames == [] then []
    else
      var before, last := Observed(frames[..|frames| - 1]), frames[|frames| - 1];
      if IsTrade(last) then before + [last.event.id] else before
  }

  /** The missing intervals reported so far, in order. */
  function Missing(frames: seq<Frame>): seq<(nat, nat)> {
    if frames == [] then []
    else
      var before, quality := Missing(frames[..|frames| - 1]), frames[|frames| - 1].quality;
      if quality != [] && quality[0].TradeGap? then before + [(quality[0].first, quality[0].last)] else before
  }

  predicate InGap(gaps: seq<(nat, nat)>, id: nat) {
    exists i :: 0 <= i < |gaps| && gaps[i].0 <= id <= gaps[i].1
  }

  ghost predicate StrictlyIncreasing(ids: seq<nat>) {
    forall i, j :: 0 <= i < j < |ids| ==> ids[i] < ids[j]
  }

  /** Apart from each other, in order and not empty. */
  ghost predicate Apart(gaps: seq<(nat, nat)>) {
    && (forall i :: 0 <= i < |gaps| ==> gaps[i].0 <= gaps[i].1)
    && (forall i, j :: 0 <= i < j < |gaps| ==> gaps[i].1 < gaps[j].0)
  }

  /** From the first id to the last each id is observed or in a gap, never both, and no other id is either. */
  ghost predicate Covers(ids: seq<nat>, gaps: seq<(nat, nat)>) {
    && StrictlyIncreasing(ids) && Apart(gaps)
    && (forall id :: id in ids ==> !InGap(gaps, id))
    && (ids == [] ==> gaps == [])
    && (ids != [] ==>
          && (forall i :: 0 <= i < |gaps| ==> gaps[i].1 < ids[|ids| - 1])
          && forall id: nat {:trigger InGap(gaps, id)} ::
               id in ids || InGap(gaps, id) <==> ids[0] <= id <= ids[|ids| - 1])
  }

  ghost predicate CoverageOk(s: State, frames: seq<Frame>) {
    var ids := Observed(frames);
    && Covers(ids, Missing(frames))
    && s.lastTrade == if ids == [] then None else Some(ids[|ids| - 1])
  }

  lemma {:induction false} GapAdded(gaps: seq<(nat, nat)>, first: nat, last: nat)
    ensures forall id: nat :: InGap(gaps + [(first, last)], id) <==> InGap(gaps, id) || first <= id <= last
  {
    var more := gaps + [(first, last)];
    forall id: nat ensures InGap(more, id) <==> InGap(gaps, id) || first <= id <= last {
      assert more[|gaps|] == (first, last);
      if InGap(gaps, id) {
        var i :| 0 <= i < |gaps| && gaps[i].0 <= id <= gaps[i].1;
        assert more[i] == gaps[i];
      }
    }
  }

  lemma {:induction false} FirstIdCovers(id: nat)
    ensures Covers([id], [])
  {
  }

  lemma {:induction false} NextIdCovers(ids: seq<nat>, gaps: seq<(nat, nat)>)
    requires Covers(ids, gaps) && ids != []
    ensures Covers(ids + [ids[|ids| - 1] + 1], gaps)
  {
  }

  lemma {:induction false} LaterIdCovers(ids: seq<nat>, gaps: seq<(nat, nat)>, id: nat)
    requires Covers(ids, gaps) && ids != [] && id > ids[|ids| - 1] + 1
    ensures Covers(ids + [id], gaps + [(ids[|ids| - 1] + 1, id - 1)])
  {
    GapAdded(gaps, ids[|ids| - 1] + 1, id - 1);
  }

  lemma {:induction false} TradeKeepsCoverage(s: State, frames: seq<Frame>, id: nat, anchor: bool)
    requires CoverageOk(s, frames) && TradeNext(s, id, anchor).Some?
    ensures var (t, frame) := TradeNext(s, id, anchor).value; CoverageOk(t, frames + [frame])
  {
    hide Covers;
    var (t, frame) := TradeNext(s, id, anchor).value;
    assert (frames + [frame])[..|frames|] == frames;
    var ids, gaps := Observed(frames), Missing(frames);
    if ids == [] {
      EmptyGaps(ids, gaps);
      FirstIdCovers(id);
      assert ids + [id] == [id];
    } else if id == s.lastTrade.value + 1 {
      NextIdCovers(ids, gaps);
    } else {
      LaterIdCovers(ids, gaps, id);
    }
  }

  lemma {:induction false} EmptyGaps(ids: seq<nat>, gaps: seq<(nat, nat)>)
    requires Covers(ids, gaps) && ids == []
    ensures gaps == []
  {
  }

  lemma {:induction false} StepKeepsCoverage(s: State, frames: seq<Frame>, m: Message)
    requires CoverageOk(s, frames) && Next(s, m).Some?
    ensures var (t, frame) := Next(s, m).value; CoverageOk(t, frames + [frame])
  {
    var (t, frame) := Next(s, m).value;
    if m.Match? {
      TradeKeepsCoverage(s, frames, m.tradeId, false);
    } else if m.LastMatch? {
      TradeKeepsCoverage(s, frames, m.tradeId, true);
    } else {
      assert (frames + [frame])[..|frames|] == frames;
    }
  }

  lemma {:induction false} RunKeepsCoverage(messages: seq<Message>)
    requires Run(messages).Some?
    ensures CoverageOk(Run(messages).value.0, Run(messages).value.1)
  {
    hide CoverageOk, Next;
    if messages == [] {
      EmptyIsCovered();
    } else {
      var before := messages[..|messages| - 1];
      RunKeepsCoverage(before);
      StepKeepsCoverage(Run(before).value.0, Run(before).value.1, messages[|messages| - 1]);
    }
  }

  lemma {:induction false} EmptyIsCovered()
    ensures CoverageOk(START, [])
  {
  }

  /**
    In every accepted session the observed trade ids strictly increase, and together with the reported
    missing intervals, from which they are disjoint, they make up everything from the first to the last.
   */
  lemma {:induction false} TradesAreCovered(messages: seq<Message>)
    requires Run(messages).Some?
    ensures var frames := Run(messages).value.1; Covers(Observed(frames), Missing(frames))
  {
    hide Next, Run, Covers;
    RunKeepsCoverage(messages);
  }

  // ------------------------------------------------------- order of a session

  ghost predicate AnswerOrder(s: State, frames: seq<Frame>) {
    && (s.acknowledged <==> frames != [])
    && (forall i :: 0 <= i < |frames| ==> (frames[i].event.SubscriptionsActive? <==> i == 0))
  }

  ghost predicate BookOrder(s: State, frames: seq<Frame>) {
    && (s.hasSnapshot <==> exists i :: 0 <= i < |frames| && frames[i].event.BookSnapshot?)
    && (forall i, j :: 0 <= i < j < |frames| && frames[i].event.BookSnapshot? ==> !frames[j].event.BookSnapshot?)
    && (forall j :: 0 <= j < |frames| && frames[j].event.BookUpdate? ==>
          exists i :: 0 <= i < j && frames[i].event.BookSnapshot?)
  }

  ghost predicate TradeOrder(s: State, frames: seq<Frame>) {
    && (s.lastTrade.None? <==> forall i :: 0 <= i < |frames| ==> !IsTrade(frames[i]))
    && (forall i, j :: 0 <= i < j < |frames| && IsTrade(frames[i]) ==> !frames[j].event.TradeAnchor?)
  }

  ghost predicate BeatOrder(s: State, frames: seq<Frame>) {
    && (forall i, j :: 0 <= i < j < |frames| && frames[i].event.Beat? && frames[j].event.Beat? ==>
          frames[i].event.last <= frames[j].event.last)
    && (forall i :: 0 <= i < |frames| && frames[i].event.Beat? ==>
          s.lastBeat.Some? && frames[i].event.last <= s.lastBeat.value)
  }

  ghost predicate OrderOk(s: State, frames: seq<Frame>) {
    AnswerOrder(s, frames) && BookOrder(s, frames) && TradeOrder(s, frames) && BeatOrder(s, frames)
  }

  lemma {:induction false} StepKeepsBookOrder(s: State, frames: seq<Frame>, m: Message)
    requires BookOrder(s, frames) && Next(s, m).Some?
    ensures var (t, frame) := Next(s, m).value; BookOrder(t, frames + [frame])
  {
    var (t, frame) := Next(s, m).value;
    var more := frames + [frame];
    assert forall i :: 0 <= i < |frames| ==> more[i] == frames[i];
    assert more[|frames|] == frame;
    if s.hasSnapshot {
      var i :| 0 <= i < |frames| && frames[i].event.BookSnapshot?;
      assert more[i].event.BookSnapshot?;
    }
    forall j | 0 <= j < |more| && more[j].event.BookUpdate?
      ensures exists i :: 0 <= i < j && more[i].event.BookSnapshot?
    {
      if j < |frames| {
        assert frames[j].event.BookUpdate?;
        var i :| 0 <= i < j && frames[i].event.BookSnapshot?;
        assert more[i].event.BookSnapshot?;
      }
    }
  }

  lemma {:induction false} StepKeepsOrder(s: State, frames: seq<Frame>, m: Message)
    requires OrderOk(s, frames) && Next(s, m).Some?
    ensures var (t, frame) := Next(s, m).value; OrderOk(t, frames + [frame])
  {
    hide BookOrder;
    StepKeepsBookOrder(s, frames, m);
    var (t, frame) := Next(s, m).value;
    var more := frames + [frame];
    assert forall i :: 0 <= i < |frames| ==> more[i] == frames[i];
    assert more[|frames|] == frame;
  }

  lemma {:induction false} RunKeepsOrder(messages: seq<Message>)
    requires Run(messages).Some?
    ensures OrderOk(Run(messages).value.0, Run(messages).value.1)
  {
    hide OrderOk, Next;
    if messages == [] {
      EmptyIsOrdered();
    } else {
      var before := messages[..|messages| - 1];
      RunKeepsOrder(before);
      StepKeepsOrder(Run(before).value.0, Run(before).value.1, messages[|messages| - 1]);
    }
  }

  lemma {:induction false} EmptyIsOrdered()
    ensures OrderOk(START, [])
  {
  }

  /**
    In every accepted session the subscription answer comes first and once, there is at most one snapshot,
    every book update comes after it, a trade anchor can only be the first trade, and heartbeats never go back.
   */
  lemma {:induction false} SessionIsOrdered(messages: seq<Message>)
    requires Run(messages).Some?
    ensures var frames := Run(messages).value.1;
            && (forall i :: 0 <= i < |frames| ==> (frames[i].event.SubscriptionsActive? <==> i == 0))
            && (forall i, j :: 0 <= i < j < |frames| ==>
                  frames[i].event.BookSnapshot? ==> !frames[j].event.BookSnapshot?)
            && (forall j :: 0 <= j < |frames| && frames[j].event.BookUpdate? ==>
                  exists i :: 0 <= i < j && frames[i].event.BookSnapshot?)
            && (forall i, j :: 0 <= i < j < |frames| && IsTrade(frames[i]) ==> !frames[j].event.TradeAnchor?)
            && (forall i, j :: 0 <= i < j < |frames| && frames[i].event.Beat? && frames[j].event.Beat? ==>
                  frames[i].event.last <= frames[j].event.last)
  {
    hide Next, Run;
    RunKeepsOrder(messages);
  }
}
