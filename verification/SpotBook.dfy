/**
  The Binance Spot order-book boundary: diff-depth updates carrying an
  overlapping id range [first, final], joined to one REST snapshot.
 */
module SpotBook {
  import opened Wrappers

  datatype Update = Update(first: nat, final: nat)

  datatype Book = Book(buffer: seq<Update>, cursor: Option<nat>, hasSnapshot: bool, validated: nat)

  datatype Fault =
    | Malformed | BufferOverflow | OutOfOrder | SequenceGap
    | SnapshotOutsideBootstrap | CannotJoin | BufferedGap

  datatype Ingested =
    | Silent
    | Reapplied(again: Update)
    | Advanced(next: Update)
    | IngestFault(fault: Fault)

  datatype Accepted =
    | RetryRequired
    | Installed(snapshot: nat, bootstrap: seq<Update>)
    | AcceptFault(fault: Fault)

  const EMPTY := Book([], None, false, 0)

  // ---------------------------------------------------------------- updates

  predicate WellFormed(b: Book) {
    b.hasSnapshot ==> b.cursor.Some?
  }

  predicate Proper(u: Update) {
    u.first <= u.final
  }

  /** One depth update. What the normalizer refuses, an inverted range included, leaves the book alone. */
  function Ingest(bound: nat, b: Book, document: Option<Update>): (Book, Ingested)
    requires WellFormed(b)
  {
    if document.None? || !Proper(document.value) then (b, IngestFault(Malformed))
    else if b.hasSnapshot then Follow(b, document.value)
    else Buffer(bound, b, document.value)
  }

  function Buffer(bound: nat, b: Book, u: Update): (Book, Ingested) {
    var n := |b.buffer|;
    if n >= bound then (EMPTY, IngestFault(BufferOverflow))
    else if n > 0 && u.final < b.buffer[n - 1].final then (EMPTY, IngestFault(OutOfOrder))
    else if n > 0 && u.final == b.buffer[n - 1].final then (b, Silent)
    else (b.(buffer := b.buffer + [u]), Silent)
  }

  /** The path taken once a snapshot is installed. */
  function Follow(b: Book, u: Update): (Book, Ingested)
    requires b.cursor.Some?
  {
    var local := b.cursor.value;
    if u.final < local then (b, Silent)
    else if u.first > local + 1 then (EMPTY, IngestFault(SequenceGap))
    else if u.final == local then (b, Reapplied(u))
    else (b.(cursor := Some(u.final), validated := b.validated + 1), Advanced(u))
  }

  // --------------------------------------------------------------- snapshot

  function Newer(us: seq<Update>, snapshot: nat): seq<Update> {
    if us == [] then []
    else if us[0].final > snapshot then [us[0]] + Newer(us[1..], snapshot)
    else Newer(us[1..], snapshot)
  }

  /** Walks the retained updates from `local`; the very first one was joined separately. */
  function Absorb(local: nat, us: seq<Update>, first: bool): Option<(nat, seq<Update>)>
    decreases us
  {
    if us == [] then Some((local, []))
    else if us[0].final <= local then Absorb(local, us[1..], false)
    else if !first && us[0].first > local + 1 then None
    else
      var rest := Absorb(us[0].final, us[1..], false);
      if rest.None? then None else Some((rest.value.0, [us[0]] + rest.value.1))
  }

  /** One snapshot document; `None` is a document the normalizer refused. */
  function Accept(b: Book, document: Option<nat>): (Book, Accepted) {
    if b.hasSnapshot || b.buffer == [] then (EMPTY, AcceptFault(SnapshotOutsideBootstrap))
    else if document.None? then (b, AcceptFault(Malformed))
    else
      var snapshot := document.value;
      if snapshot < b.buffer[0].first then (b, RetryRequired)
      else
        var retained := Newer(b.buffer, snapshot);
        if retained != [] && !(retained[0].first <= snapshot <= retained[0].final)
        then (EMPTY, AcceptFault(CannotJoin))
        else
          match Absorb(snapshot, retained, true)
          case None => (EMPTY, AcceptFault(BufferedGap))
          case Some((local, taken)) =>
            (Book([], Some(local), true, |taken|), Installed(snapshot, taken))
  }

  // ------------------------------------------------------------------ class

  class SpotBookState {
    const bound: nat
    var buffer: seq<Update>
    var lastUpdateId: Option<nat>
    var hasSnapshot: bool
    var validated: nat

    ghost function View(): Book
      reads this
    {
      Book(buffer, lastUpdateId, hasSnapshot, validated)
    }

    constructor (maxBufferedUpdates: nat)
      requires maxBufferedUpdates > 0
      ensures View() == EMPTY && bound == maxBufferedUpdates
    {
      bound := maxBufferedUpdates;
      buffer, lastUpdateId, hasSnapshot, validated := [], None, false, 0;
    }

    method Clear()
      modifies this
      ensures View() == EMPTY
    {
      buffer, lastUpdateId, hasSnapshot, validated := [], None, false, 0;
    }

    method IngestUpdate(document: Option<Update>) returns (r: Ingested)
      requires WellFormed(View())
      modifies this
      ensures (View(), r) == Ingest(bound, old(View()), document)
      ensures WellFormed(View())
    {
      if document.None? || document.value.first > document.value.final {
        return IngestFault(Malformed);
      }
      var u := document.value;
      if !hasSnapshot {
        if |buffer| >= bound {
          Clear();
          return IngestFault(BufferOverflow);
        }
        if buffer != [] && u.final < buffer[|buffer| - 1].final {
          Clear();
          return IngestFault(OutOfOrder);
        }
        if buffer != [] && u.final == buffer[|buffer| - 1].final {
          return Silent;
        }
        buffer := buffer + [u];
        return Silent;
      }
      if u.final < lastUpdateId.value {
        return Silent;
      }
      if u.first > lastUpdateId.value + 1 {
        Clear();
        return IngestFault(SequenceGap);
      }
      if u.final == lastUpdateId.value {
        return Reapplied(u);
      }
      lastUpdateId := Some(u.final);
      validated := validated + 1;
      return Advanced(u);
    }

    method AcceptSnapshot(document: Option<nat>) returns (r: Accepted)
      requires WellFormed(View())
      modifies this
      ensures (View(), r) == Accept(old(View()), document)
      ensures WellFormed(View())
    {
      if hasSnapshot || buffer == [] {
        Clear();
        return AcceptFault(SnapshotOutsideBootstrap);
      }
      if document.None? {
        return AcceptFault(Malformed);
      }
      var snapshot := document.value;
      if snapshot < buffer[0].first {
        return RetryRequired;
      }
      var retained := Retain(buffer, snapshot);
      if retained != [] && !(retained[0].first <= snapshot <= retained[0].final) {
        Clear();
        return AcceptFault(CannotJoin);
      }
      var local: nat, taken: seq<Update>, index := snapshot, [], 0;
      ghost var answer := Absorb(snapshot, retained, true);
      PrependNothing(answer);
      assert retained[0..] == retained;
      while index < |retained|
        invariant 0 <= index <= |retained|
        invariant unchanged(this)
        invariant answer == Prepend(taken, Absorb(local, retained[index..], index == 0))
      {
        var u := retained[index];
        assert retained[index..][0] == u && retained[index..][1..] == retained[index + 1..];
        if u.final > local {
          if index > 0 && u.first > local + 1 {
            Clear();
            return AcceptFault(BufferedGap);
          }
          PrependMore(taken, u, Absorb(u.final, retained[index + 1..], false));
          taken := taken + [u];
          local := u.final;
        }
        index := index + 1;
      }
      assert retained[index..] == [] && taken + [] == taken;
      hasSnapshot, lastUpdateId, validated, buffer := true, Some(local), |taken|, [];
      return Installed(snapshot, taken);
    }
  }

  function Prepend(taken: seq<Update>, rest: Option<(nat, seq<Update>)>): Option<(nat, seq<Update>)> {
    if rest.None? then None else Some((rest.value.0, taken + rest.value.1))
  }

  lemma {:induction false} PrependNothing(rest: Option<(nat, seq<Update>)>)
    ensures Prepend([], rest) == rest
  {
    if rest.Some? {
      assert [] + rest.value.1 == rest.value.1;
    }
  }

  lemma {:induction false} PrependMore(taken: seq<Update>, u: Update, rest: Option<(nat, seq<Update>)>)
    ensures Prepend(taken + [u], rest) == Prepend(taken, Prepend([u], rest))
  {
    if rest.Some? {
      assert (taken + [u]) + rest.value.1 == taken + ([u] + rest.value.1);
    }
  }

  method Retain(us: seq<Update>, snapshot: nat) returns (kept: seq<Update>)
    ensures kept == Newer(us, snapshot)
  {
    kept := [];
    for i := 0 to |us|
      invariant kept + Newer(us[i..], snapshot) == Newer(us, snapshot)
    {
      if us[i].final > snapshot {
        kept := kept + [us[i]];
      }
    }
  }

  // ------------------------------------------------ runs of one book object

  datatype Event = Depth(document: Option<Update>) | Snapshot(reply: Option<nat>)

  /** A book with the history that gave it its cursor: the snapshot installed and what advanced it since. */
  datatype Run = Run(book: Book, anchor: Option<nat>, advancing: seq<Update>)

  const START := Run(EMPTY, None, [])

  function Step(bound: nat, r: Run, e: Event): Run
    requires WellFormed(r.book)
  {
    match e
    case Depth(d) =>
      var (b, out) := Ingest(bound, r.book, d);
      match out {
        case IngestFault(f) => if f.Malformed? then r else Run(b, None, [])
        case Advanced(u) => r.(book := b, advancing := r.advancing + [u])
        case _ => r.(book := b)
      }
    case Snapshot(d) =>
      var (b, out) := Accept(r.book, d);
      match out {
        case AcceptFault(f) => if f.Malformed? then r else Run(b, None, [])
        case Installed(s, us) => Run(b, Some(s), us)
        case RetryRequired => r
      }
  }

  /** The id reached before element `i` of a list of advancing updates that started at `from`. */
  function Reached(from: nat, us: seq<Update>, i: nat): nat
    requires i <= |us|
  {
    if i == 0 then from else us[i - 1].final
  }

  /** Every update goes past what was reached before it and leaves no id out. */
  ghost predicate Chained(from: nat, us: seq<Update>) {
    forall i {:trigger Reached(from, us, i)} ::
      0 <= i < |us| ==> us[i].first <= Reached(from, us, i) + 1 && Reached(from, us, i) < us[i].final
  }

  ghost predicate Increasing(us: seq<Update>) {
    forall i, j :: 0 <= i < j < |us| ==> us[i].final < us[j].final
  }

  ghost predicate AllProper(us: seq<Update>) {
    forall i :: 0 <= i < |us| ==> Proper(us[i])
  }

  ghost predicate Covers(us: seq<Update>, id: nat) {
    exists i :: 0 <= i < |us| && us[i].first <= id <= us[i].final
  }

  ghost predicate Consistent(r: Run) {
    && WellFormed(r.book)
    && (r.book.hasSnapshot <==> r.anchor.Some?)
    && (r.book.hasSnapshot <==> r.book.cursor.Some?)
    && r.book.validated == |r.advancing|
    && Increasing(r.book.buffer)
    && AllProper(r.book.buffer)
    && (r.book.hasSnapshot ==>
          && r.book.buffer == []
          && Chained(r.anchor.value, r.advancing)
          && r.book.cursor.value == Reached(r.anchor.value, r.advancing, |r.advancing|))
    && (!r.book.hasSnapshot ==> r.advancing == [])
  }

  ghost function RunOf(bound: nat, events: seq<Event>): (r: Run)
    ensures Consistent(r)
  {
    if events == [] then START
    else
      var before := RunOf(bound, events[..|events| - 1]);
      StepKeepsConsistent(bound, before, events[|events| - 1]);
      Step(bound, before, events[|events| - 1])
  }

  lemma {:induction false} StepKeepsConsistent(bound: nat, r: Run, e: Event)
    requires Consistent(r)
    ensures Consistent(Step(bound, r, e))
  {
    match e
    case Depth(d) =>
      if r.book.hasSnapshot && d.Some? && Proper(d.value) {
        FollowKeepsConsistent(bound, r, d.value);
      }
    case Snapshot(d) =>
      if Accept(r.book, d).1.Installed? {
        AbsorbChains(d.value, Newer(r.book.buffer, d.value), true);
      }
  }

  lemma {:induction false} FollowKeepsConsistent(bound: nat, r: Run, u: Update)
    requires Consistent(r) && r.book.hasSnapshot
    ensures Consistent(Step(bound, r, Depth(Some(u))))
  {
    if Proper(u) && Follow(r.book, u).1.Advanced? {
      ChainExtends(r.anchor.value, r.advancing, u);
    }
  }

  lemma {:induction false} ChainExtends(from: nat, us: seq<Update>, u: Update)
    requires Chained(from, us)
    requires u.first <= Reached(from, us, |us|) + 1 && Reached(from, us, |us|) < u.final
    ensures Chained(from, us + [u])
    ensures Reached(from, us + [u], |us| + 1) == u.final
  {
    var longer := us + [u];
    forall i | 0 <= i < |longer|
      ensures longer[i].first <= Reached(from, longer, i) + 1
      ensures Reached(from, longer, i) < longer[i].final
    {
      assert Reached(from, longer, i) == Reached(from, us, i);
    }
  }

  lemma {:induction false} AbsorbChains(local: nat, us: seq<Update>, first: bool)
    requires first && us != [] ==> us[0].first <= local + 1
    decreases us
    ensures var a := Absorb(local, us, first);
            a.Some? ==> Chained(local, a.value.1) && a.value.0 == Reached(local, a.value.1, |a.value.1|)
  {
    var a := Absorb(local, us, first);
    if us == [] || a.None? {
    } else if us[0].final <= local {
      AbsorbChains(local, us[1..], false);
    } else {
      AbsorbChains(us[0].final, us[1..], false);
      ChainBackwards(local, us[0], Absorb(us[0].final, us[1..], false).value.1);
    }
  }

  lemma {:induction false} ChainBackwards(from: nat, u: Update, rest: seq<Update>)
    requires Chained(u.final, rest) && u.first <= from + 1 && from < u.final
    ensures Chained(from, [u] + rest)
    ensures Reached(from, [u] + rest, |rest| + 1) == Reached(u.final, rest, |rest|)
  {
    var longer := [u] + rest;
    forall i | 0 <= i < |longer|
      ensures longer[i].first <= Reached(from, longer, i) + 1
      ensures Reached(from, longer, i) < longer[i].final
    {
      if i > 0 {
        assert Reached(from, longer, i) == Reached(u.final, rest, i - 1);
      }
    }
  }

  /**
    Coverage over whole runs: after any sequence of updates and snapshots, accepted or
    refused, the ids between the installed snapshot and the cursor all lie in the range of
    some emitted advancing update.
   */
  lemma {:induction false} CoverageOverRuns(bound: nat, events: seq<Event>, id: nat)
    ensures var r := RunOf(bound, events);
            r.book.hasSnapshot ==>
              && r.book.validated == |r.advancing|
              && r.anchor.value <= r.book.cursor.value
              && (r.anchor.value < id <= r.book.cursor.value ==> Covers(r.advancing, id))
  {
    var r := RunOf(bound, events);
    if r.book.hasSnapshot {
      ChainCovers(r.anchor.value, r.advancing, id);
    }
  }

  lemma {:induction false} ChainedPrefix(from: nat, us: seq<Update>, n: nat)
    requires Chained(from, us) && n <= |us|
    ensures Chained(from, us[..n]) && Reached(from, us[..n], n) == Reached(from, us, n)
  {
    assert forall i :: 0 <= i <= n ==> Reached(from, us[..n], i) == Reached(from, us, i);
  }

  lemma {:induction false} ChainCovers(from: nat, us: seq<Update>, id: nat)
    requires Chained(from, us)
    ensures from <= Reached(from, us, |us|)
    ensures from < id <= Reached(from, us, |us|) ==> Covers(us, id)
  {
    if us != [] {
      var n := |us| - 1;
      var shorter := us[..n];
      ChainedPrefix(from, us, n);
      ChainCovers(from, shorter, id);
      if from < id <= Reached(from, us, n) {
        var i :| 0 <= i < n && shorter[i].first <= id <= shorter[i].final;
        assert us[i].first <= id <= us[i].final;
      } else if from < id <= us[n].final {
        assert us[n].first <= id <= us[n].final;
      }
    }
  }

  /** The fault a document raises, if any. */
  function FaultOf(bound: nat, b: Book, e: Event): Option<Fault>
    requires WellFormed(b)
  {
    match e
    case Depth(d) => var out := Ingest(bound, b, d).1; if out.IngestFault? then Some(out.fault) else None
    case Snapshot(d) => var out := Accept(b, d).1; if out.AcceptFault? then Some(out.fault) else None
  }

  /**
    The cursor never moves back while a snapshot stays; every fault the book itself raises puts it back to
    its start, and only a document its normalizer refuses leaves it as it was.
   */
  lemma {:induction false} StepIsMonotone(bound: nat, events: seq<Event>, e: Event)
    ensures var before, after := RunOf(bound, events), RunOf(bound, events + [e]);
            && (before.book.hasSnapshot && after.book.hasSnapshot ==>
                  && after.anchor == before.anchor
                  && before.book.cursor.value <= after.book.cursor.value
                  && before.advancing <= after.advancing)
            && var fault := FaultOf(bound, before.book, e);
               && (fault.Some? ==> after == if fault.value.Malformed? then before else START)
               && (before.book.hasSnapshot && !after.book.hasSnapshot ==> fault.Some?)
  {
    assert (events + [e])[..|events|] == events;
  }

  // ------------------------------------------------ bootstrap equals replay

  /** Feeds updates through the post-snapshot path and collects those that advance the cursor. */
  function Replay(b: Book, us: seq<Update>): (r: Option<(Book, seq<Update>)>)
    requires b.cursor.Some?
    decreases us
  {
    if us == [] then Some((b, []))
    else
      match Follow(b, us[0])
      case (_, IngestFault(_)) => None
      case (next, Advanced(u)) =>
        var rest := Replay(next, us[1..]);
        if rest.None? then None else Some((rest.value.0, [u] + rest.value.1))
      case (next, _) => Replay(next, us[1..])
  }

  function Fresh(snapshot: nat): Book {
    Book([], Some(snapshot), true, 0)
  }

  lemma {:induction false} ReplayDropsStale(snapshot: nat, us: seq<Update>)
    requires Increasing(us) && AllProper(us)
    ensures Replay(Fresh(snapshot), us) == Replay(Fresh(snapshot), Newer(us, snapshot))
    ensures Increasing(Newer(us, snapshot))
    ensures forall i :: 0 <= i < |Newer(us, snapshot)| ==> Newer(us, snapshot)[i].final > snapshot
  {
    if us != [] {
      if us[0].final <= snapshot {
        ReplayDropsStale(snapshot, us[1..]);
      } else {
        NewerKeepsAll(snapshot, us);
      }
    }
  }

  lemma {:induction false} NewerKeepsAll(snapshot: nat, us: seq<Update>)
    requires forall i :: 0 <= i < |us| ==> us[i].final > snapshot
    ensures Newer(us, snapshot) == us
  {
    if us != [] {
      NewerKeepsAll(snapshot, us[1..]);
    }
  }

  lemma {:induction false} AbsorbIsReplay(local: nat, us: seq<Update>, first: bool, n: nat)
    requires Increasing(us)
    requires us != [] ==> us[0].final > local
    requires first && us != [] ==> us[0].first <= local + 1
    decreases us
    ensures var a := Absorb(local, us, first);
            var p := Replay(Book([], Some(local), true, n), us);
            && (a.Some? <==> p.Some?)
            && (a.Some? ==> p.value == (Book([], Some(a.value.0), true, n + |a.value.1|), a.value.1))
  {
    if us != [] {
      AbsorbIsReplay(us[0].final, us[1..], false, n + 1);
    }
  }

  /**
    On every reachable bootstrap buffer: a snapshot is installed exactly when it is not older than
    the buffer, replaying the buffer after it meets no gap, and its own id (not only the next one) is
    reached by the first newer update. The book and the frames are then those of that replay.
   */
  lemma {:induction false} BootstrapEqualsReplay(bound: nat, events: seq<Event>, snapshot: nat)
    ensures var b := RunOf(bound, events).book;
            !b.hasSnapshot && b.buffer != [] ==> InstallsAsReplayed(b, snapshot)
  {
    var b := RunOf(bound, events).book;
    if !b.hasSnapshot && b.buffer != [] {
      BufferInstallsAsReplayed(b, snapshot);
    }
  }

  ghost predicate InstallsAsReplayed(b: Book, snapshot: nat)
    requires b.buffer != []
  {
    var newer := Newer(b.buffer, snapshot);
    var (after, out) := Accept(b, Some(snapshot));
    var replay := Replay(Fresh(snapshot), b.buffer);
    && (out.Installed? <==>
          && b.buffer[0].first <= snapshot
          && (newer == [] || newer[0].first <= snapshot)
          && replay.Some?)
    && (out.Installed? ==> replay == Some((after, out.bootstrap)))
  }

  lemma {:induction false} BufferInstallsAsReplayed(b: Book, snapshot: nat)
    requires !b.hasSnapshot && b.buffer != [] && Increasing(b.buffer) && AllProper(b.buffer)
    ensures InstallsAsReplayed(b, snapshot)
  {
    hide Replay, Absorb, Newer, AllProper;
    if b.buffer[0].first <= snapshot {
      var newer := Newer(b.buffer, snapshot);
      ReplayDropsStale(snapshot, b.buffer);
      if newer == [] || newer[0].first <= snapshot {
        AbsorbIsReplay(snapshot, newer, true, 0);
      }
    }
  }

  /**
    The extra condition bites: a snapshot that ends right before a buffered update would replay
    without a gap, but the join test asks for `first <= snapshot` and refuses it.
   */
  lemma {:induction false} BoundarySnapshotIsRefused()
    ensures var u: Update, v: Update := Update(1, 5), Update(6, 9);
            var b := RunOf(10, [Depth(Some(u)), Depth(Some(v))]).book;
            && Replay(Fresh(5), b.buffer).Some?
            && Accept(b, Some(5)) == (EMPTY, AcceptFault(CannotJoin))
  {
    var u: Update, v: Update := Update(1, 5), Update(6, 9);
    var e0, e1 := Depth(Some(u)), Depth(Some(v));
    assert [e0, e1][..1] == [e0];
    assert RunOf(10, [e0]) == Step(10, RunOf(10, []), e0);
    var b := RunOf(10, [e0, e1]).book;
    assert b.buffer == [u, v];
    assert [u, v][1..] == [v] && [v][1..] == [];
    assert Newer([v], 5) == [v];
    assert Newer([u, v], 5) == Newer([v], 5);
    ReplayDropsStale(5, b.buffer);
    assert Replay(Fresh(5), [v]).Some?;
  }

  // ------------------------------------------------------ composed handler

  datatype Fetch = TransportFailure | Truncated | Reply(document: Option<nat>)

  datatype Handled =
    | Returned(snapshots: seq<nat>)
    | UpdateRefused(fault: Fault)
    | SnapshotRefused(fault: Fault)
    | TransportRaised
    | TruncationRaised
    | RetriesExhausted

  /** What a session's book looks like between two depth frames: untouched, or following a snapshot. */
  ghost predicate BetweenFrames(b: Book) {
    b == EMPTY || (b.hasSnapshot && b.cursor.Some? && b.buffer == [])
  }

  /** A fetch that makes the loop go round again instead of ending it. */
  predicate Inconclusive(b: Book, f: Fetch) {
    f.TransportFailure? || (f.Reply? && Accept(b, f.document).1.RetryRequired?)
  }

  lemma {:induction false} OneUpdateNeverGaps(u: Update, reply: Option<nat>)
    ensures Accept(Book([u], None, false, 0), reply).1 != AcceptFault(BufferedGap)
  {
    if reply.Some? {
      assert [u][1..] == [];
      assert Newer([u], reply.value) == if u.final > reply.value then [u] else [];
      assert Absorb(reply.value, [u], true).Some?;
    }
  }

  /**
    One depth frame: ingest it and, when the book is still waiting, fetch snapshots until one is
    installed. `fetches[k]` is what attempt `k + 1` gets.
   */
  method HandleDepth(book: SpotBookState, document: Option<Update>, fetches: seq<Fetch>) returns (r: Handled)
    requires book.bound > 0 && |fetches| > 0
    requires BetweenFrames(book.View())
    modifies book
    ensures WellFormed(book.View())
    ensures r.Returned? ==> book.hasSnapshot && BetweenFrames(book.View())
    ensures r.Returned? && old(book.hasSnapshot) ==>
              document.Some? && r.snapshots == [] &&
              book.View() == Follow(old(book.View()), document.value).0
    ensures r.Returned? && !old(book.hasSnapshot) ==>
              exists k :: 0 <= k < |fetches| && fetches[k].Reply? && fetches[k].document.Some? &&
                document.Some? && r.snapshots == [fetches[k].document.value] &&
                document.value.first <= fetches[k].document.value &&
                (forall j :: 0 <= j < k ==> Inconclusive(Book([document.value], None, false, 0), fetches[j])) &&
                book.View() == Accept(Book([document.value], None, false, 0), fetches[k].document).0
    ensures !r.Returned? ==> book.View() == EMPTY || !book.hasSnapshot || r == UpdateRefused(Malformed)
    ensures r.RetriesExhausted? ==> !book.hasSnapshot && |book.buffer| == 1
    ensures r.RetriesExhausted? ==> forall j :: 0 <= j < |fetches| ==> Inconclusive(book.View(), fetches[j])
    ensures r != UpdateRefused(BufferOverflow) && r != UpdateRefused(OutOfOrder)
    ensures r != SnapshotRefused(SnapshotOutsideBootstrap) && r != SnapshotRefused(BufferedGap)
  {
    var ingested := book.IngestUpdate(document);
    match ingested {
      case IngestFault(f) => return UpdateRefused(f);
      case Reapplied(_) => return Returned([]);
      case Advanced(_) => return Returned([]);
      case Silent =>
    }
    if book.hasSnapshot || book.buffer == [] {
      return Returned([]);
    }
    ghost var waiting := book.View();
    var attempt := 0;
    while attempt < |fetches|
      invariant 0 <= attempt <= |fetches|
      invariant book.View() == waiting == Book([document.value], None, false, 0)
      invariant forall j :: 0 <= j < attempt ==> Inconclusive(waiting, fetches[j])
    {
      attempt := attempt + 1;
      match fetches[attempt - 1] {
        case Truncated => return TruncationRaised;
        case TransportFailure =>
          if attempt >= |fetches| {
            return TransportRaised;
          }
        case Reply(reply) =>
          OneUpdateNeverGaps(document.value, reply);
          var accepted := book.AcceptSnapshot(reply);
          match accepted {
            case AcceptFault(f) => return SnapshotRefused(f);
            case Installed(s, _) => return Returned([s]);
            case RetryRequired =>
          }
      }
    }
    return RetriesExhausted;
  }
}
