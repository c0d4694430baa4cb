/**
  The Bitvavo Standard session: a nonce-chained book, the acknowledgement gate in front of it and
  the numbered snapshot requests that bootstrap it.
 */
module StandardSession {
  import opened Wrappers

  datatype Fault =
    | Malformed | BufferOverflow | SequenceError | SequenceGap | SnapshotOutsideBootstrap | CannotJoin
    | VenueError | SubscriptionRefused | NotAcknowledged | UnsolicitedSnapshot | RetriesExhausted

  // ------------------------------------------------------------------- book

  datatype Book = Book(buffer: seq<nat>, cursor: Option<nat>, hasSnapshot: bool)

  const EMPTY := Book([], None, false)

  datatype Ingested = Buffered | Emitted(nonce: nat) | IngestFault(fault: Fault)

  datatype Accepted = RetryRequired | Installed(snapshot: nat, kept: seq<nat>) | AcceptFault(fault: Fault)

  predicate WellFormed(b: Book) {
    b.hasSnapshot ==> b.cursor.Some?
  }

  function Previous(b: Book): Option<nat>
    requires WellFormed(b)
  {
    if b.hasSnapshot then b.cursor
    else if b.buffer != [] then Some(b.buffer[|b.buffer| - 1])
    else None
  }

  function Ingest(bound: nat, b: Book, document: Option<nat>): (Book, Ingested)
    requires WellFormed(b)
  {
    if document.None? then (b, IngestFault(Malformed))
    else
      var nonce, previous := document.value, Previous(b);
      if previous.Some? && nonce <= previous.value then (EMPTY, IngestFault(SequenceError))
      else if previous.Some? && nonce != previous.value + 1 then (EMPTY, IngestFault(SequenceGap))
      else if b.hasSnapshot then (b.(cursor := Some(nonce)), Emitted(nonce))
      else if |b.buffer| >= bound then (EMPTY, IngestFault(BufferOverflow))
      else (b.(buffer := b.buffer + [nonce]), Buffered)
  }

  function Newer(nonces: seq<nat>, snapshot: nat): seq<nat> {
    if nonces == [] then []
    else if nonces[0] > snapshot then [nonces[0]] + Newer(nonces[1..], snapshot)
    else Newer(nonces[1..], snapshot)
  }

  function Accept(b: Book, document: Option<nat>): (Book, Accepted) {
    if b.hasSnapshot || b.buffer == [] then (EMPTY, AcceptFault(SnapshotOutsideBootstrap))
    else if document.None? then (b, AcceptFault(Malformed))
    else if document.value <= b.buffer[0] then (b, RetryRequired)
    else
      var snapshot := document.value;
      var kept := Newer(b.buffer, snapshot);
      if kept != [] && kept[0] != snapshot + 1 then (EMPTY, AcceptFault(CannotJoin))
      else
        var cursor := if kept != [] then kept[|kept| - 1] else snapshot;
        (Book([], Some(cursor), true), Installed(snapshot, kept))
  }

  class BookState {
    const bound: nat
    var buffer: seq<nat>
    var lastNonce: Option<nat>
    var hasSnapshot: bool

    ghost function View(): Book
      reads this
    {
      Book(buffer, lastNonce, hasSnapshot)
    }

    constructor (maxBufferedUpdates: nat)
      requires maxBufferedUpdates > 0
      ensures View() == EMPTY && bound == maxBufferedUpdates
    {
      bound := maxBufferedUpdates;
      buffer, lastNonce, hasSnapshot := [], None, false;
    }

    method Clear()
      modifies this
      ensures View() == EMPTY
    {
      buffer, lastNonce, hasSnapshot := [], None, false;
    }

    method IngestUpdate(document: Option<nat>) returns (r: Ingested)
      requires WellFormed(View())
      modifies this
      ensures (View(), r) == Ingest(bound, old(View()), document)
    {
      if document.None? {
        return IngestFault(Malformed);
      }
      var nonce := document.value;
      var previous :=
        if hasSnapshot then lastNonce
        else if buffer != [] then Some(buffer[|buffer| - 1])
        else None;
      if previous.Some? {
        if nonce <= previous.value {
          Clear();
          return IngestFault(SequenceError);
        }
        if nonce != previous.value + 1 {
          Clear();
          return IngestFault(SequenceGap);
        }
      }
      if hasSnapshot {
        lastNonce := Some(nonce);
        return Emitted(nonce);
      }
      if |buffer| >= bound {
        Clear();
        return IngestFault(BufferOverflow);
      }
      buffer := buffer + [nonce];
      return Buffered;
    }

    method AcceptSnapshot(document: Option<nat>) returns (r: Accepted)
      modifies this
      ensures (View(), r) == Accept(old(View()), document)
    {
      if hasSnapshot || buffer == [] {
        Clear();
        return AcceptFault(SnapshotOutsideBootstrap);
      }
      if document.None? {
        return AcceptFault(Malformed);
      }
      var snapshot := document.value;
      if snapshot <= buffer[0] {
        return RetryRequired;
      }
      var retained: seq<nat> := [];
      for i := 0 to |buffer|
        invariant unchanged(this)
        invariant retained + Newer(buffer[i..], snapshot) == Newer(buffer, snapshot)
      {
        if buffer[i] > snapshot {
          retained := retained + [buffer[i]];
        }
      }
      assert buffer[|buffer|..] == [] && retained + [] == retained;
      if retained != [] && retained[0] != snapshot + 1 {
        Clear();
        return AcceptFault(CannotJoin);
      }
      hasSnapshot := true;
      lastNonce := Some(if retained != [] then retained[|retained| - 1] else snapshot);
      buffer := [];
      return Installed(snapshot, retained);
    }
  }

  // ---------------------------------------------------------------- session

  datatype Channel = Trades | Ticker | BookChannel | Candles

  datatype Config = Config(bound: nat, maxSnapshotRequests: nat, includeCandles: bool)

  predicate ValidConfig(c: Config) {
    c.bound > 0 && c.maxSnapshotRequests > 0
  }

  function Expected(c: Config): set<Channel> {
    {Trades, Ticker, BookChannel} + if c.includeCandles then {Candles} else {}
  }

  datatype Reply = Reply(requestId: nat, nonce: nat)

  /** An inbound frame; `None` and `ok == false` stand for documents their normalizer refuses. */
  datatype Frame =
    | ErrorFrame
    | Subscription(channels: Option<set<Channel>>)
    | TradeFrame(ok: bool)
    | TickerFrame(ok: bool)
    | CandleFrame(ok: bool)
    | BookFrame(document: Option<nat>)
    | SnapshotFrame(reply: Option<Reply>)

  datatype Session = Session(
    acknowledged: set<Channel>,
    book: Book,
    outstanding: Option<nat>,
    requests: nat,
    sent: seq<nat>)

  const OPENED := Session({}, EMPTY, None, 0, [])

  /** What a frame leads to: nothing to store, frames to store, or the end of the session. */
  datatype Output =
    | Continue
    | Normalized(channel: Channel)
    | Bootstrapped(snapshot: nat, kept: seq<nat>)
    | Raised(fault: Fault)

  function Request(s: Session): Session {
    s.(outstanding := Some(s.requests + 1), requests := s.requests + 1, sent := s.sent + [s.requests + 1])
  }

  function MaybeRequest(c: Config, s: Session): Session {
    if s.acknowledged == Expected(c) && s.book.buffer != [] && !s.book.hasSnapshot
       && s.outstanding.None? && s.requests == 0
    then Request(s) else s
  }

  function ChannelOf(f: Frame): Option<Channel> {
    match f
    case TradeFrame(_) => Some(Trades)
    case TickerFrame(_) => Some(Ticker)
    case CandleFrame(_) => Some(Candles)
    case BookFrame(_) => Some(BookChannel)
    case _ => None
  }

  function Step(c: Config, s: Session, f: Frame): (Session, Output)
    requires WellFormed(s.book)
  {
    var channel := ChannelOf(f);
    if channel.Some? && channel.value in Expected(c) && channel.value !in s.acknowledged
    then (s, Raised(NotAcknowledged))
    else
      match f
      case ErrorFrame => (s, Raised(VenueError))
      case Subscription(channels) =>
        if channels.None? || channels.value == {} || !(channels.value <= Expected(c))
        then (s, Raised(SubscriptionRefused))
        else (MaybeRequest(c, s.(acknowledged := s.acknowledged + channels.value)), Continue)
      case TradeFrame(ok) => Store(c, s, Trades, ok)
      case TickerFrame(ok) => Store(c, s, Ticker, ok)
      case CandleFrame(ok) => Store(c, s, Candles, ok)
      case BookFrame(document) =>
        (match Ingest(c.bound, s.book, document)
         case (b, IngestFault(fault)) => (s.(book := b), Raised(fault))
         case (b, Buffered) => (MaybeRequest(c, s.(book := b)), Continue)
         case (b, Emitted(_)) => (MaybeRequest(c, s.(book := b)), Normalized(BookChannel)))
      case SnapshotFrame(reply) => TakeSnapshot(c, s, reply)
  }

  function Store(c: Config, s: Session, channel: Channel, ok: bool): (Session, Output) {
    if ok then (MaybeRequest(c, s), Normalized(channel)) else (s, Raised(Malformed))
  }

  function TakeSnapshot(c: Config, s: Session, reply: Option<Reply>): (Session, Output) {
    if s.outstanding.None? then (s, Raised(UnsolicitedSnapshot))
    else
      var document :=
        if reply.Some? && reply.value.requestId == s.outstanding.value then Some(reply.value.nonce) else None;
      match Accept(s.book, document)
      case (b, AcceptFault(fault)) => (s.(book := b), Raised(fault))
      case (b, RetryRequired) =>
        var answered := s.(book := b, outstanding := None);
        if s.requests >= c.maxSnapshotRequests then (answered, Raised(RetriesExhausted))
        else (Request(answered), Continue)
      case (b, Installed(n, kept)) =>
        (MaybeRequest(c, s.(book := b, outstanding := None)), Bootstrapped(n, kept))
  }

  class ReceiveSession {
    const config: Config
    const book: BookState
    var acknowledged: set<Channel>
    var outstanding: Option<nat>
    var requests: nat
    var sent: seq<nat>

    ghost function View(): Session
      reads this, book
    {
      Session(acknowledged, book.View(), outstanding, requests, sent)
    }

    constructor (c: Config)
      requires ValidConfig(c)
      ensures config == c && book.bound == c.bound && fresh(book)
      ensures View() == OPENED
    {
      config := c;
      var state := new BookState(c.bound);
      book := state;
      acknowledged, outstanding, requests, sent := {}, None, 0, [];
    }

    method RequestNextSnapshot()
      modifies this
      ensures View() == Request(old(View()))
    {
      var requestId := requests + 1;
      sent := sent + [requestId];
      outstanding, requests := Some(requestId), requestId;
    }

    method MaybeRequestSnapshot()
      modifies this
      ensures View() == MaybeRequest(config, old(View()))
    {
      if acknowledged == Expected(config) && book.buffer != [] && !book.hasSnapshot
         && outstanding.None? && requests == 0 {
        RequestNextSnapshot();
      }
    }

    method OnFrame(f: Frame) returns (out: Output)
      requires book.bound == config.bound && WellFormed(book.View())
      modifies this, book
      ensures (View(), out) == Step(config, old(View()), f)
    {
      var channel := ChannelOf(f);
      if channel.Some? && channel.value in Expected(config) && channel.value !in acknowledged {
        return Raised(NotAcknowledged);
      }
      match f {
        case ErrorFrame =>
          return Raised(VenueError);
        case Subscription(channels) =>
          if channels.None? || channels.value == {} || !(channels.value <= Expected(config)) {
            return Raised(SubscriptionRefused);
          }
          acknowledged := acknowledged + channels.value;
          out := Continue;
        case TradeFrame(ok) =>
          if !ok {
            return Raised(Malformed);
          }
          out := Normalized(Trades);
        case TickerFrame(ok) =>
          if !ok {
            return Raised(Malformed);
          }
          out := Normalized(Ticker);
        case CandleFrame(ok) =>
          if !ok {
            return Raised(Malformed);
          }
          out := Normalized(Candles);
        case BookFrame(document) =>
          var ingested := book.IngestUpdate(document);
          match ingested {
            case IngestFault(fault) => return Raised(fault);
            case Buffered => out := Continue;
            case Emitted(_) => out := Normalized(BookChannel);
          }
        case SnapshotFrame(reply) =>
          if outstanding.None? {
            return Raised(UnsolicitedSnapshot);
          }
          var document :=
            if reply.Some? && reply.value.requestId == outstanding.value then Some(reply.value.nonce) else None;
          var accepted := book.AcceptSnapshot(document);
          match accepted {
            case AcceptFault(fault) => return Raised(fault);
            case RetryRequired =>
              outstanding := None;
              if requests >= config.maxSnapshotRequests {
                return Raised(RetriesExhausted);
              }
              RequestNextSnapshot();
              return Continue;
            case Installed(n, kept) =>
              outstanding := None;
              out := Bootstrapped(n, kept);
          }
      }
      MaybeRequestSnapshot();
    }
  }

  // --------------------------------------------------------- whole sessions

  /** A session with the request ids answered so far and the book frames emitted since its snapshot. */
  datatype Run = Run(session: Session, answered: seq<nat>, anchor: Option<nat>, emitted: seq<nat>)

  function UpFrom(first: nat, count: nat): (r: seq<nat>)
    ensures |r| == count
    ensures forall i :: 0 <= i < count ==> r[i] == first + i
  {
    seq(count, i => first + i)
  }

  ghost predicate Consecutive(nonces: seq<nat>) {
    forall i {:trigger nonces[i]} :: 0 <= i < |nonces| ==> nonces[i] == nonces[0] + i
  }

  ghost predicate Consistent(c: Config, r: Run) {
    var s := r.session;
    && WellFormed(s.book)
    && s.acknowledged <= Expected(c)
    // request ids are 1, 2, 3, ... and each but the outstanding one has been answered, in order
    && s.sent == UpFrom(1, s.requests)
    && s.requests <= c.maxSnapshotRequests
    && (s.outstanding.Some? ==> s.requests > 0 && s.outstanding == Some(s.requests))
    && r.answered == UpFrom(1, if s.outstanding.Some? then s.requests - 1 else s.requests)
    && (s.requests > 0 ==> s.acknowledged == Expected(c))
    // what the book is doing
    && Consecutive(s.book.buffer)
    && (s.requests > 0 && !s.book.hasSnapshot ==> s.outstanding.Some? && s.book.buffer != [])
    && (s.book.hasSnapshot ==>
          && s.requests > 0 && s.outstanding.None? && s.book.buffer == []
          && r.anchor.Some?
          && r.emitted == UpFrom(r.anchor.value + 1, |r.emitted|)
          && s.book.cursor == Some(r.anchor.value + |r.emitted|))
    && (!s.book.hasSnapshot ==> r.anchor.None? && r.emitted == [])
  }

  function Record(c: Config, r: Run, f: Frame): Run
    requires WellFormed(r.session.book)
  {
    var (s, out) := Step(c, r.session, f);
    var answered :=
      if f.SnapshotFrame? && r.session.outstanding.Some? && !out.Raised?
      then r.answered + [r.session.outstanding.value] else r.answered;
    match out
    case Bootstrapped(n, kept) => Run(s, answered, Some(n), kept)
    case Normalized(BookChannel) =>
      Run(s, answered, r.anchor, if s.book.cursor.Some? then r.emitted + [s.book.cursor.value] else r.emitted)
    case _ => Run(s, answered, r.anchor, r.emitted)
  }

  /** A session that has lived through `frames`: none of them ended it. */
  ghost predicate Lives(c: Config, frames: seq<Frame>, r: Run)
    decreases frames
  {
    if frames == [] then r == Run(OPENED, [], None, [])
    else exists before: Run ::
           && Lives(c, frames[..|frames| - 1], before)
           && WellFormed(before.session.book)
           && !Step(c, before.session, frames[|frames| - 1]).1.Raised?
           && r == Record(c, before, frames[|frames| - 1])
  }

  lemma {:induction false} LivesConsistently(c: Config, frames: seq<Frame>, r: Run)
    requires ValidConfig(c) && Lives(c, frames, r)
    ensures Consistent(c, r)
    decreases frames
  {
    if frames != [] {
      var before: Run :|
        && Lives(c, frames[..|frames| - 1], before)
        && WellFormed(before.session.book)
        && !Step(c, before.session, frames[|frames| - 1]).1.Raised?
        && r == Record(c, before, frames[|frames| - 1]);
      LivesConsistently(c, frames[..|frames| - 1], before);
      StepKeepsConsistent(c, before, frames[|frames| - 1]);
    }
  }

  lemma {:induction false} StepKeepsConsistent(c: Config, r: Run, f: Frame)
    requires ValidConfig(c) && Consistent(c, r)
    requires !Step(c, r.session, f).1.Raised?
    ensures Consistent(c, Record(c, r, f))
  {
    match f
    case SnapshotFrame(reply) =>
      SnapshotKeepsConsistent(c, r, reply);
    case BookFrame(document) =>
      BookKeepsConsistent(c, r, document);
    case _ =>
  }

  lemma {:induction false} BookKeepsConsistent(c: Config, r: Run, document: Option<nat>)
    requires ValidConfig(c) && Consistent(c, r)
    requires !Step(c, r.session, BookFrame(document)).1.Raised?
    ensures Consistent(c, Record(c, r, BookFrame(document)))
  {
    var next := Record(c, r, BookFrame(document));
    if r.session.book.hasSnapshot {
      assert next.emitted == UpFrom(r.anchor.value + 1, |r.emitted| + 1);
    } else {
      var b := Ingest(c.bound, r.session.book, document).0;
      assert Consecutive(b.buffer);
    }
  }

  lemma {:induction false} SnapshotKeepsConsistent(c: Config, r: Run, reply: Option<Reply>)
    requires ValidConfig(c) && Consistent(c, r)
    requires !Step(c, r.session, SnapshotFrame(reply)).1.Raised?
    ensures Consistent(c, Record(c, r, SnapshotFrame(reply)))
  {
    var next := Record(c, r, SnapshotFrame(reply));
    NewerIsSuffix(r.session.book.buffer, reply.value.nonce);
    assert next.answered == UpFrom(1, r.session.requests);
  }

  lemma {:induction false} NewerIsSuffix(nonces: seq<nat>, snapshot: nat)
    requires Consecutive(nonces)
    ensures nonces == [] || snapshot < nonces[0] ==> Newer(nonces, snapshot) == nonces
    ensures nonces != [] && snapshot >= nonces[0] ==>
              var last := nonces[0] + |nonces| - 1;
              Newer(nonces, snapshot) == if snapshot >= last then [] else UpFrom(snapshot + 1, last - snapshot)
  {
    if nonces != [] {
      var rest := nonces[1..];
      assert forall i {:trigger rest[i]} :: 0 <= i < |rest| ==> rest[i] == nonces[i + 1];
      NewerIsSuffix(rest, snapshot);
      if snapshot >= nonces[0] && rest != [] && snapshot < rest[0] {
        assert rest == UpFrom(snapshot + 1, |rest|);
      }
    }
  }

  /**
    The request protocol over whole sessions. Ids are sent as 1, 2, 3, ... up to the configured
    bound, each after the previous one was answered; none is outstanding once a snapshot is
    installed; none is sent before every channel was acknowledged. From the installed snapshot on,
    the emitted nonces are consecutive up to the cursor.
   */
  lemma {:induction false} RequestProtocol(c: Config, frames: seq<Frame>, r: Run)
    requires ValidConfig(c) && Lives(c, frames, r)
    ensures |r.session.sent| <= c.maxSnapshotRequests
    ensures forall i :: 0 <= i < |r.session.sent| ==> r.session.sent[i] == i + 1
    ensures r.answered <= r.session.sent && |r.session.sent| - |r.answered| <= 1
    ensures r.session.book.hasSnapshot ==> r.answered == r.session.sent != []
    ensures r.session.sent != [] ==> r.session.acknowledged == Expected(c)
    ensures r.session.book.hasSnapshot ==>
              r.anchor.Some? && r.session.book.cursor == Some(r.anchor.value + |r.emitted|) &&
              forall i :: 0 <= i < |r.emitted| ==> r.emitted[i] == r.anchor.value + 1 + i
  {
    LivesConsistently(c, frames, r);
  }

  /**
    What ends a session that asked for a snapshot: a reply is refused only for its own identity or
    schema, or because the retry bound is used up. The branches "could not join" and "outside
    bootstrap state" are never taken, and a well-formed answer is installed exactly when its nonce
    is newer than the first buffered one.
   */
  lemma {:induction false} SnapshotReplyVerdict(c: Config, frames: seq<Frame>, r: Run, reply: Option<Reply>)
    requires ValidConfig(c) && Lives(c, frames, r)
    ensures var (next, out) := Step(c, r.session, SnapshotFrame(reply));
            var s := r.session;
            && out != Raised(CannotJoin)
            && out != Raised(SnapshotOutsideBootstrap)
            && (s.outstanding.Some? ==> s.book.buffer != [])
            && (out.Bootstrapped? <==>
                  s.outstanding.Some? && reply.Some? && Some(reply.value.requestId) == s.outstanding &&
                  reply.value.nonce > s.book.buffer[0])
            && (out == Raised(RetriesExhausted) ==> s.requests == c.maxSnapshotRequests)
  {
    LivesConsistently(c, frames, r);
    if r.session.outstanding.Some? && reply.Some? {
      NewerIsSuffix(r.session.book.buffer, reply.value.nonce);
    }
  }

  /**
    The acknowledgement gate: whatever a living session stores came on a channel it has
    acknowledged, with one exception, a candle frame in a session that did not subscribe to candles.
   */
  lemma {:induction false} StoredFramesAreAcknowledged(c: Config, frames: seq<Frame>, r: Run, f: Frame)
    requires ValidConfig(c) && Lives(c, frames, r)
    ensures var out := Step(c, r.session, f).1;
            && (out.Normalized? ==>
                  out.channel in r.session.acknowledged || (out.channel == Candles && !c.includeCandles))
            && (out.Bootstrapped? ==> r.session.acknowledged == Expected(c))
  {
    LivesConsistently(c, frames, r);
  }

  /** The gate has no exception exactly when candles are subscribed to. */
  lemma {:induction false} GateIsCompleteIffCandlesSubscribed(c: Config)
    requires ValidConfig(c)
    ensures c.includeCandles <==>
              forall frames, r, f ::
                Lives(c, frames, r) && WellFormed(r.session.book) && Step(c, r.session, f).1.Normalized? ==>
                  Step(c, r.session, f).1.channel in r.session.acknowledged
  {
    if c.includeCandles {
      forall frames, r, f | Lives(c, frames, r) && WellFormed(r.session.book) && Step(c, r.session, f).1.Normalized?
        ensures Step(c, r.session, f).1.channel in r.session.acknowledged
      {
        StoredFramesAreAcknowledged(c, frames, r, f);
      }
    } else {
      var initial := Run(OPENED, [], None, []);
      assert Lives(c, [], initial);
      assert Step(c, initial.session, CandleFrame(true)).1 == Normalized(Candles);
    }
  }
}
