/**
  The Bitvavo Market Data Pro book: update ranges that must follow each other exactly, buffered
  until one snapshot arrives and then followed without gap or overlap.
 */
module ProBook {
  import opened Wrappers

  datatype Update = Update(start: nat, end: nat)

  datatype Fault =
    | Malformed | BufferOverflow | SequenceError | SequenceGap | SequenceOverlap | SnapshotOutsideBootstrap

  datatype Book = Book(buffer: seq<Update>, cursor: Option<nat>, hasSnapshot: bool, posted: nat)

  const EMPTY := Book([], None, false, 0)

  datatype Ingested = Buffered | Emitted(next: Update) | IngestFault(fault: Fault)

  datatype Accepted = Installed(snapshot: nat, kept: seq<Update>) | AcceptFault(fault: Fault)

  predicate Proper(u: Update) {
    u.start <= u.end
  }

  predicate WellFormed(b: Book) {
    b.hasSnapshot ==> b.cursor.Some?
  }

  /** What is wrong with `start` as the successor of `previous`, if anything. */
  function Successor(previous: nat, start: nat): Option<Fault> {
    if start <= previous then Some(SequenceError)
    else if start != previous + 1 then Some(SequenceGap)
    else None
  }

  function Previous(b: Book): Option<nat>
    requires WellFormed(b)
  {
    if b.hasSnapshot then b.cursor
    else if b.buffer != [] then Some(b.buffer[|b.buffer| - 1].end)
    else None
  }

  function Ingest(bound: nat, b: Book, document: Option<Update>): (Book, Ingested)
    requires WellFormed(b)
  {
    if document.None? || !Proper(document.value) then (b, IngestFault(Malformed))
    else
      var u, previous := document.value, Previous(b);
      var wrong := if previous.Some? then Successor(previous.value, u.start) else None;
      if wrong.Some? then (EMPTY, IngestFault(wrong.value))
      else if b.hasSnapshot then (b.(cursor := Some(u.end), posted := b.posted + 1), Emitted(u))
      else if |b.buffer| >= bound then (EMPTY, IngestFault(BufferOverflow))
      else (b.(buffer := b.buffer + [u]), Buffered)
  }

  /** The retained updates when the buffer joins onto `snapshot`, walking it with `previous` as the last id seen. */
  function Join(snapshot: nat, previous: nat, us: seq<Update>): (r: Result<seq<Update>, Fault>)
    decreases us
  {
    if us == [] then Ok([])
    else if us[0].end <= snapshot then Join(snapshot, previous, us[1..])
    else if us[0].start <= snapshot then Err(SequenceOverlap)
    else
      match Successor(previous, us[0].start)
      case Some(f) => Err(f)
      case None =>
        match Join(snapshot, us[0].end, us[1..])
        case Err(f) => Err(f)
        case Ok(rest) => Ok([us[0]] + rest)
  }

  /** The id reached before element `i` of updates that started at `from`. */
  function Reached(from: nat, us: seq<Update>, i: nat): nat
    requires i <= |us|
  {
    if i == 0 then from else us[i - 1].end
  }

  function Accept(b: Book, document: Option<nat>): (Book, Accepted) {
    if b.hasSnapshot then (EMPTY, AcceptFault(SnapshotOutsideBootstrap))
    else if document.None? then (b, AcceptFault(Malformed))
    else
      match Join(document.value, document.value, b.buffer)
      case Err(f) => (EMPTY, AcceptFault(f))
      case Ok(kept) =>
        (Book([], Some(Reached(document.value, kept, |kept|)), true, |kept|), Installed(document.value, kept))
  }

  // ------------------------------------------------------------------ class

  class BookState {
    const bound: nat
    var buffer: seq<Update>
    var lastSequence: Option<nat>
    var hasSnapshot: bool
    var postSnapshotUpdates: nat

    ghost function View(): Book
      reads this
    {
      Book(buffer, lastSequence, hasSnapshot, postSnapshotUpdates)
    }

    constructor (maxBufferedUpdates: nat)
      requires maxBufferedUpdates > 0
      ensures View() == EMPTY && bound == maxBufferedUpdates
    {
      bound := maxBufferedUpdates;
      buffer, lastSequence, hasSnapshot, postSnapshotUpdates := [], None, false, 0;
    }

    method Clear()
      modifies this
      ensures View() == EMPTY
    {
      buffer, lastSequence, hasSnapshot, postSnapshotUpdates := [], None, false, 0;
    }

    /** Raises (and clears) unless `start` directly follows `previous`. */
    method RequireNext(previous: nat, start: nat) returns (fault: Option<Fault>)
      modifies this
      ensures fault == Successor(previous, start)
      ensures View() == if fault.Some? then EMPTY else old(View())
    {
      if start <= previous {
        Clear();
        return Some(SequenceError);
      }
      if start != previous + 1 {
        Clear();
        return Some(SequenceGap);
      }
      return None;
    }

    method IngestUpdate(document: Option<Update>) returns (r: Ingested)
      requires WellFormed(View())
      modifies this
      ensures (View(), r) == Ingest(bound, old(View()), document)
      ensures WellFormed(View())
    {
      if document.None? || document.value.start > document.value.end {
        return IngestFault(Malformed);
      }
      var u := document.value;
      var previous :=
        if hasSnapshot then lastSequence
        else if buffer != [] then Some(buffer[|buffer| - 1].end)
        else None;
      if previous.Some? {
        var fault := RequireNext(previous.value, u.start);
        if fault.Some? {
          return IngestFault(fault.value);
        }
      }
      if hasSnapshot {
        lastSequence := Some(u.end);
        postSnapshotUpdates := postSnapshotUpdates + 1;
        return Emitted(u);
      }
      if |buffer| >= bound {
        Clear();
        return IngestFault(BufferOverflow);
      }
      buffer := buffer + [u];
      return Buffered;
    }

    method AcceptSnapshot(document: Option<nat>) returns (r: Accepted)
      requires WellFormed(View())
      modifies this
      ensures (View(), r) == Accept(old(View()), document)
      ensures WellFormed(View())
    {
      if hasSnapshot {
        Clear();
        return AcceptFault(SnapshotOutsideBootstrap);
      }
      if document.None? {
        return AcceptFault(Malformed);
      }
      var snapshot := document.value;
      var retained: seq<Update>, previous: nat, i := [], snapshot, 0;
      ghost var joined := Join(snapshot, snapshot, buffer);
      assert buffer[0..] == buffer;
      PrependNothing(joined);
      while i < |buffer|
        invariant 0 <= i <= |buffer|
        invariant View() == old(View())
        invariant previous == Reached(snapshot, retained, |retained|)
        invariant joined == Prepend(retained, Join(snapshot, previous, buffer[i..]))
      {
        var u := buffer[i];
        assert buffer[i..][0] == u && buffer[i..][1..] == buffer[i + 1..];
        if u.end > snapshot {
          if u.start <= snapshot {
            Clear();
            return AcceptFault(SequenceOverlap);
          }
          var fault := RequireNext(previous, u.start);
          if fault.Some? {
            return AcceptFault(fault.value);
          }
          PrependMore(retained, u, Join(snapshot, u.end, buffer[i + 1..]));
          retained := retained + [u];
          previous := u.end;
        }
        i := i + 1;
      }
      assert buffer[i..] == [] && retained + [] == retained;
      hasSnapshot, lastSequence, postSnapshotUpdates, buffer := true, Some(previous), |retained|, [];
      return Installed(snapshot, retained);
    }
  }

  function Prepend(kept: seq<Update>, rest: Result<seq<Update>, Fault>): Result<seq<Update>, Fault> {
    if rest.Err? then rest else Ok(kept + rest.value)
  }

  lemma {:induction false} PrependNothing(rest: Result<seq<Update>, Fault>)
    ensures Prepend([], rest) == rest
  {
    if rest.Ok? {
      assert [] + rest.value == rest.value;
    }
  }

  lemma {:induction false} PrependMore(kept: seq<Update>, u: Update, rest: Result<seq<Update>, Fault>)
    ensures Prepend(kept + [u], rest) == Prepend(kept, Prepend([u], rest))
  {
    if rest.Ok? {
      assert (kept + [u]) + rest.value == kept + ([u] + rest.value);
    }
  }

  // ------------------------------------------------ runs of one book object

  datatype Event = BookUpdate(document: Option<Update>) | Snapshot(reply: Option<nat>)

  /** A book with the snapshot it follows and the updates emitted since. */
  datatype Run = Run(book: Book, anchor: Option<nat>, emitted: seq<Update>)

  const START := Run(EMPTY, None, [])

  function Step(bound: nat, r: Run, e: Event): Run
    requires WellFormed(r.book)
  {
    match e
    case BookUpdate(d) =>
      var (b, out) := Ingest(bound, r.book, d);
      match out {
        case IngestFault(f) => if f.Malformed? then r else Run(b, None, [])
        case Emitted(u) => Run(b, r.anchor, r.emitted + [u])
        case Buffered => r.(book := b)
      }
    case Snapshot(d) =>
      var (b, out) := Accept(r.book, d);
      match out {
        case AcceptFault(f) => if f.Malformed? then r else Run(b, None, [])
        case Installed(s, kept) => Run(b, Some(s), kept)
      }
  }

  /** Ranges that follow each other exactly, the first one starting after `from`. */
  ghost predicate Tiled(from: nat, us: seq<Update>) {
    forall i {:trigger Reached(from, us, i)} ::
      0 <= i < |us| ==> us[i].start == Reached(from, us, i) + 1 && Proper(us[i])
  }

  /** A bootstrap buffer: contiguous, whatever id it starts at. */
  ghost predicate Contiguous(us: seq<Update>) {
    && (forall i :: 0 <= i < |us| ==> Proper(us[i]))
    && (forall i :: 0 < i < |us| ==> us[i].start == us[i - 1].end + 1)
  }

  ghost predicate Consistent(r: Run) {
    && WellFormed(r.book)
    && (r.book.hasSnapshot <==> r.anchor.Some?)
    && (r.book.hasSnapshot <==> r.book.cursor.Some?)
    && r.book.posted == |r.emitted|
    && Contiguous(r.book.buffer)
    && (r.book.hasSnapshot ==>
          && r.book.buffer == []
          && Tiled(r.anchor.value, r.emitted)
          && r.book.cursor.value == Reached(r.anchor.value, r.emitted, |r.emitted|))
    && (!r.book.hasSnapshot ==> r.emitted == [])
  }

  ghost function RunOf(bound: nat, events: seq<Event>): (r: Run)
    ensures Consistent(r)
  {
    if events == [] then START
    else
      var before := RunOf(bound, events[..|events| - 1]);
      StepKeepsConsistent(bound, before, events[|events| - 1]);
      Step(bound, before, events[|events| - 1])
  }

  lemma {:induction false} StepKeepsConsistent(bound: nat, r: Run, e: Event)
    requires Consistent(r)
    ensures Consistent(Step(bound, r, e))
  {
    match e
    case BookUpdate(d) =>
      if Ingest(bound, r.book, d).1.Emitted? {
        TileExtends(r.anchor.value, r.emitted, d.value);
      }
    case Snapshot(d) =>
      if Accept(r.book, d).1.Installed? {
        JoinTiles(d.value, d.value, r.book.buffer);
      }
  }

  lemma {:induction false} TileExtends(from: nat, us: seq<Update>, u: Update)
    requires Tiled(from, us) && Proper(u) && u.start == Reached(from, us, |us|) + 1
    ensures Tiled(from, us + [u]) && Reached(from, us + [u], |us| + 1) == u.end
  {
    var longer := us + [u];
    forall i | 0 <= i < |longer|
      ensures longer[i].start == Reached(from, longer, i) + 1
      ensures Proper(longer[i])
    {
      assert Reached(from, longer, i) == Reached(from, us, i);
    }
  }

  lemma {:induction false} JoinTiles(snapshot: nat, previous: nat, us: seq<Update>)
    requires forall i :: 0 <= i < |us| ==> Proper(us[i])
    ensures var j := Join(snapshot, previous, us); j.Ok? ==> Tiled(previous, j.value)
    decreases us
  {
    var j := Join(snapshot, previous, us);
    if us == [] || j.Err? {
    } else if us[0].end <= snapshot {
      JoinTiles(snapshot, previous, us[1..]);
    } else {
      JoinTiles(snapshot, us[0].end, us[1..]);
      TileBackwards(previous, us[0], Join(snapshot, us[0].end, us[1..]).value);
    }
  }

  lemma {:induction false} TileBackwards(from: nat, u: Update, rest: seq<Update>)
    requires Tiled(u.end, rest) && Proper(u) && u.start == from + 1
    ensures Tiled(from, [u] + rest)
  {
    var longer := [u] + rest;
    forall i | 0 <= i < |longer|
      ensures longer[i].start == Reached(from, longer, i) + 1
      ensures Proper(longer[i])
    {
      if i > 0 {
        assert longer[i] == rest[i - 1];
        assert Reached(from, longer, i) == Reached(u.end, rest, i - 1);
      }
    }
  }

  ghost predicate Inside(us: seq<Update>, i: int, id: nat) {
    0 <= i < |us| && us[i].start <= id <= us[i].end
  }

  /**
    Tiling over whole runs: after any sequence of updates and snapshots, an id lies in the range of
    an emitted update exactly when it lies after the snapshot and not after the cursor, and then in
    one range only.
   */
  lemma {:induction false} EmittedUpdatesTile(bound: nat, events: seq<Event>, id: nat)
    ensures var r := RunOf(bound, events);
            r.book.hasSnapshot ==>
              && r.book.posted == |r.emitted|
              && (r.anchor.value < id <= r.book.cursor.value <==> exists i :: Inside(r.emitted, i, id))
              && (forall i, j :: Inside(r.emitted, i, id) && Inside(r.emitted, j, id) ==> i == j)
  {
    var r := RunOf(bound, events);
    if r.book.hasSnapshot {
      TilesPartition(r.anchor.value, r.emitted, id);
    }
  }

  lemma {:induction false} TiledPrefix(from: nat, us: seq<Update>, n: nat)
    requires Tiled(from, us) && n <= |us|
    ensures Tiled(from, us[..n]) && Reached(from, us[..n], n) == Reached(from, us, n)
  {
    assert forall i :: 0 <= i <= n ==> Reached(from, us[..n], i) == Reached(from, us, i);
  }

  lemma {:induction false} TilesPartition(from: nat, us: seq<Update>, id: nat)
    requires Tiled(from, us)
    ensures from <= Reached(from, us, |us|)
    ensures from < id <= Reached(from, us, |us|) <==> exists i :: Inside(us, i, id)
    ensures forall i, j :: Inside(us, i, id) && Inside(us, j, id) ==> i == j
  {
    if us != [] {
      var n := |us| - 1;
      var shorter := us[..n];
      TiledPrefix(from, us, n);
      TilesPartition(from, shorter, id);
      assert forall i :: Inside(us, i, id) <==> Inside(shorter, i, id) || (i == n && us[n].start <= id <= us[n].end);
      assert us[n].start == Reached(from, us, n) + 1;
      if from < id <= Reached(from, us, n) {
        var i :| Inside(shorter, i, id);
        assert Inside(us, i, id);
      } else if from < id <= us[n].end {
        assert Inside(us, n, id);
      }
    }
  }

  // ------------------------------------------------ which snapshots are accepted

  ghost predicate StartsAt(us: seq<Update>, id: nat) {
    exists i :: 0 <= i < |us| && us[i].start == id
  }

  /**
    The exact verdict on a well-formed snapshot `s`, for every reachable nonempty bootstrap buffer
    spanning `[a, b]`: a gap when `s < a - 1`; otherwise accepted when `s >= b` or a buffered update
    starts at `s + 1`; otherwise some buffered range straddles it. On acceptance the cursor is
    `max(s, b)`.
   */
  lemma {:induction false} SnapshotVerdict(bound: nat, events: seq<Event>, s: nat)
    ensures var book := RunOf(bound, events).book;
            !book.hasSnapshot && book.buffer != [] ==>
              var a, b := book.buffer[0].start, book.buffer[|book.buffer| - 1].end;
              var (after, out) := Accept(book, Some(s));
              && (out.Installed? <==> s >= a - 1 && (s >= b || StartsAt(book.buffer, s + 1)))
              && (out == AcceptFault(SequenceGap) <==> s < a - 1)
              && (out.Installed? ==> after.cursor == Some(if s >= b then s else b))
              && (out.AcceptFault? && s >= a - 1 ==> out == AcceptFault(SequenceOverlap))
  {
    var book := RunOf(bound, events).book;
    if !book.hasSnapshot && book.buffer != [] {
      JoinVerdict(s, book.buffer);
    }
  }

  /** What joining onto a snapshot at `s` comes to. */
  ghost predicate Judged(s: nat, us: seq<Update>, j: Result<seq<Update>, Fault>)
    requires us != []
  {
    var a, b := us[0].start, us[|us| - 1].end;
    && (j.Ok? <==> s >= a - 1 && (s >= b || StartsAt(us, s + 1)))
    && (j == Err(SequenceGap) <==> s < a - 1)
    && (j.Ok? ==> Reached(s, j.value, |j.value|) == if s >= b then s else b)
    && (j.Err? && s >= a - 1 ==> j == Err(SequenceOverlap))
  }

  lemma {:induction false} JoinVerdict(s: nat, us: seq<Update>)
    requires Contiguous(us) && us != []
    ensures Judged(s, us, Join(s, s, us))
  {
    hide StartsAt, Contiguous;
    ContiguousRest(us);
    StartsIncrease(us);
    if us[0].end > s {
      FirstIsJudged(s, us);
    } else if |us| > 1 {
      JoinVerdict(s, us[1..]);
      StartsAtLater(us, s + 1);
    }
  }

  lemma {:induction false} FirstIsJudged(s: nat, us: seq<Update>)
    requires Contiguous(us) && us != [] && us[0].end > s
    ensures Judged(s, us, Join(s, s, us))
  {
    hide StartsAt;
    StartsIncrease(us);
    if us[0].start == s + 1 {
      StartsAtFirst(us);
      JoinKeepsAll(s, s, us);
    } else if us[0].start <= s {
      NoStartBeforeEnd(us, s);
    }
  }

  lemma {:induction false} ContiguousRest(us: seq<Update>)
    requires Contiguous(us) && us != []
    ensures Contiguous(us[1..]) && us[0].start <= us[0].end && (|us| > 1 ==> us[1].start == us[0].end + 1)
  {
  }

  lemma {:induction false} StartsAtFirst(us: seq<Update>)
    requires us != []
    ensures StartsAt(us, us[0].start)
  {
  }

  lemma {:induction false} NoStartBeforeEnd(us: seq<Update>, s: nat)
    requires Contiguous(us) && us != [] && us[0].start <= s < us[0].end
    ensures !StartsAt(us, s + 1)
  {
    StartsIncrease(us);
  }

  lemma {:induction false} StartsAtLater(us: seq<Update>, id: nat)
    requires us != [] && us[0].start != id
    ensures StartsAt(us, id) <==> StartsAt(us[1..], id)
  {
    if StartsAt(us, id) {
      var i :| 0 <= i < |us| && us[i].start == id;
      assert us[1..][i - 1].start == id;
    }
    if StartsAt(us[1..], id) {
      var i :| 0 <= i < |us| - 1 && us[1..][i].start == id;
      assert us[i + 1].start == id;
    }
  }

  lemma {:induction false} StartsIncrease(us: seq<Update>)
    requires Contiguous(us)
    ensures forall i :: 0 < i < |us| ==> us[i].start > us[0].end
    ensures us != [] ==> us[0].end <= us[|us| - 1].end
  {
    if |us| > 1 {
      var shorter := us[..|us| - 1];
      StartsIncrease(shorter);
      assert us[0].end <= us[|us| - 2].end;
      forall i | 0 < i < |us|
        ensures us[i].start > us[0].end
      {
        if i < |us| - 1 {
          assert us[i] == shorter[i];
        }
      }
    }
  }

  lemma {:induction false} JoinKeepsAll(s: nat, previous: nat, us: seq<Update>)
    requires Contiguous(us) && us != [] && s <= previous && us[0].start == previous + 1
    decreases us
    ensures Join(s, previous, us) == Ok(us)
  {
    if |us| > 1 {
      JoinKeepsAll(s, us[0].end, us[1..]);
      assert us == [us[0]] + us[1..];
    } else {
      assert us[1..] == [] && us == [us[0]] + [];
      assert Join(s, us[0].end, us[1..]) == Ok([]);
    }
  }
}
