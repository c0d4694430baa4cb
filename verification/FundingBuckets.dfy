/**
  Funding events gathered into the buckets of an hourly clock, and why a trade's exposure may be read
  off the buckets: for every trade they hold exactly the events between its two clock times.
 */
module FundingBuckets {
  import opened Wrappers

  /** One hour in milliseconds. */
  const HOUR: int := 3600000

  datatype Funding = Funding(time: int, rate: real)

  ghost predicate Sorted(clock: seq<int>) {
    forall i, j :: 0 <= i < j < |clock| ==> clock[i] <= clock[j]
  }

  /** Where a time belongs: everything before the place is earlier, nothing from it on is. */
  ghost predicate Splits(clock: seq<int>, time: int, at: nat) {
    && at <= |clock|
    && (forall i :: 0 <= i < at ==> clock[i] < time)
    && (forall i :: at <= i < |clock| ==> time <= clock[i])
  }

  method BisectLeft(clock: seq<int>, time: int) returns (at: nat)
    requires Sorted(clock)
    ensures Splits(clock, time, at)
  {
    var lo, hi := 0, |clock|;
    while lo < hi
      invariant 0 <= lo <= hi <= |clock|
      invariant forall i :: 0 <= i < lo ==> clock[i] < time
      invariant forall i :: hi <= i < |clock| ==> time <= clock[i]
    {
      var mid := (lo + hi) / 2;
      if clock[mid] < time {
        lo := mid + 1;
      } else {
        hi := mid;
      }
    }
    at := lo;
  }

  function Sum(values: seq<real>): real {
    if values == [] then 0.0 else Sum(values[..|values| - 1]) + values[|values| - 1]
  }

  /** The event lies in the hour that ends with clock time `b`. */
  predicate Covered(clock: seq<int>, event: Funding, b: nat) {
    b < |clock| && clock[b] - HOUR < event.time <= clock[b]
  }

  ghost predicate Belongs(clock: seq<int>, event: Funding, b: nat) {
    Splits(clock, event.time, b) && Covered(clock, event, b)
  }

  ghost predicate HasBucket(clock: seq<int>, event: Funding) {
    exists b: nat :: Belongs(clock, event, b)
  }

  ghost predicate Accepted(clock: seq<int>, events: seq<Funding>) {
    forall i :: 0 <= i < |events| ==> HasBucket(clock, events[i])
  }

  /** The rates of the events of one bucket, in order. */
  ghost function RatesIn(clock: seq<int>, events: seq<Funding>, b: nat): seq<real> {
    if events == [] then []
    else
      var before := RatesIn(clock, events[..|events| - 1], b);
      var last := events[|events| - 1];
      if Belongs(clock, last, b) then before + [last.rate] else before
  }

  /** The buckets hold the sums of their events; None when some event is outside the hours of the clock. */
  method Bucket(clock: seq<int>, events: seq<Funding>) returns (sums: Option<seq<real>>)
    requires Sorted(clock)
    ensures sums.Some? <==> Accepted(clock, events)
    ensures sums.Some? ==> Holds(clock, events, sums.value)
  {
    var buckets: seq<seq<real>> := seq(|clock|, _ => []);
    for i := 0 to |events|
      invariant |buckets| == |clock|
      invariant forall b :: 0 <= b < |clock| ==> buckets[b] == RatesIn(clock, events[..i], b)
      invariant forall k :: 0 <= k < i ==> HasBucket(clock, events[k])
    {
      assert events[..i + 1][..i] == events[..i];
      var index := BisectLeft(clock, events[i].time);
      if !Covered(clock, events[i], index) {
        return None;
      }
      assert Belongs(clock, events[i], index);
      buckets := buckets[index := buckets[index] + [events[i].rate]];
    }
    assert events[..|events|] == events;
    var totals := [];
    for b := 0 to |buckets|
      invariant |totals| == b
      invariant forall k :: 0 <= k < b ==> totals[k] == Sum(RatesIn(clock, events, k))
    {
      var total := 0.0;
      for k := 0 to |buckets[b]|
        invariant total == Sum(buckets[b][..k])
      {
        assert buckets[b][..k + 1][..k] == buckets[b][..k];
        total := total + buckets[b][k];
      }
      assert buckets[b][..|buckets[b]|] == buckets[b];
      totals := totals + [total];
    }
    return Some(totals);
  }

  ghost predicate Holds(clock: seq<int>, events: seq<Funding>, sums: seq<real>) {
    |sums| == |clock| && forall b :: 0 <= b < |clock| ==> sums[b] == Sum(RatesIn(clock, events, b))
  }

  // ------------------------------------------------------------- exposure

  /** What the buckets from `lo` up to but not including `hi` hold together. */
  function Total(sums: seq<real>, lo: nat, hi: nat): real
    requires lo <= hi <= |sums|
  {
    if lo == hi then 0.0 else Total(sums, lo, hi - 1) + sums[hi - 1]
  }

  /** The rates of the events after the entry time and up to the exit time. */
  function Exposure(events: seq<Funding>, entered: int, left: int): real {
    if events == [] then 0.0
    else
      var last := events[|events| - 1];
      Exposure(events[..|events| - 1], entered, left) + (if entered < last.time <= left then last.rate else 0.0)
  }

  function AllRates(events: seq<Funding>): real {
    if events == [] then 0.0 else AllRates(events[..|events| - 1]) + events[|events| - 1].rate
  }

  ghost function Expected(clock: seq<int>, events: seq<Funding>): (sums: seq<real>)
    ensures Holds(clock, events, sums)
  {
    seq(|clock|, b requires 0 <= b < |clock| => Sum(RatesIn(clock, events, b)))
  }

  /** One more event adds its rate to the one bucket it belongs to. */
  lemma {:induction false} OneMoreEvent(clock: seq<int>, events: seq<Funding>, at: nat, lo: nat, hi: nat)
    requires events != [] && Belongs(clock, events[|events| - 1], at) && lo <= hi <= |clock|
    ensures Total(Expected(clock, events), lo, hi) ==
            Total(Expected(clock, events[..|events| - 1]), lo, hi)
            + (if lo <= at < hi then events[|events| - 1].rate else 0.0)
    decreases hi
  {
    if lo < hi {
      OneMoreEvent(clock, events, at, lo, hi - 1);
      var last := events[|events| - 1];
      var before := RatesIn(clock, events[..|events| - 1], hi - 1);
      assert Belongs(clock, last, hi - 1) <==> hi - 1 == at;
      assert (before + [last.rate])[..|before|] == before;
    }
  }

  lemma {:induction false} NothingIsHeldAtFirst(clock: seq<int>, lo: nat, hi: nat)
    requires lo <= hi <= |clock|
    ensures Total(Expected(clock, []), lo, hi) == 0.0
    decreases hi
  {
    if lo < hi {
      NothingIsHeldAtFirst(clock, lo, hi - 1);
    }
  }

  /** The check made for every trade and event: it can never fail. */
  lemma {:induction false} ExposureIsMembership(clock: seq<int>, event: Funding, b: nat, entry: nat, exit: nat)
    requires Splits(clock, event.time, b) && entry < |clock| && exit < |clock|
    ensures clock[entry] < event.time <= clock[exit] <==> entry < b <= exit
  {
  }

  lemma {:induction false} BelongsSplits(clock: seq<int>, event: Funding, b: nat)
    requires Belongs(clock, event, b)
    ensures Splits(clock, event.time, b) && b < |clock|
  {
  }

  lemma {:induction false} ExpectedExposure(clock: seq<int>, events: seq<Funding>, entry: nat, exit: nat)
    requires Accepted(clock, events) && entry <= exit < |clock|
    ensures Total(Expected(clock, events), entry + 1, exit + 1) == Exposure(events, clock[entry], clock[exit])
    ensures Total(Expected(clock, events), 0, |clock|) == AllRates(events)
    decreases |events|
  {
    hide Total, RatesIn, Expected, Splits, Belongs;
    if events == [] {
      NothingIsHeldAtFirst(clock, entry + 1, exit + 1);
      NothingIsHeldAtFirst(clock, 0, |clock|);
    } else {
      ExpectedExposure(clock, events[..|events| - 1], entry, exit);
      assert HasBucket(clock, events[|events| - 1]);
      var at: nat :| Belongs(clock, events[|events| - 1], at);
      OneMoreEvent(clock, events, at, entry + 1, exit + 1);
      OneMoreEvent(clock, events, at, 0, |clock|);
      BelongsSplits(clock, events[|events| - 1], at);
      ExposureIsMembership(clock, events[|events| - 1], at, entry, exit);
    }
  }

  /**
    For every trade the buckets after its entry up to its exit add up to the rates of the events strictly
    after the entry time and up to the exit time; all buckets together hold every rate once.
   */
  lemma {:induction false} BucketsGiveExposure(
    clock: seq<int>, events: seq<Funding>, sums: seq<real>, entry: nat, exit: nat)
    requires Accepted(clock, events) && Holds(clock, events, sums) && entry <= exit < |clock|
    ensures Total(sums, entry + 1, exit + 1) == Exposure(events, clock[entry], clock[exit])
    ensures Total(sums, 0, |clock|) == AllRates(events)
  {
    assert sums == Expected(clock, events);
    ExpectedExposure(clock, events, entry, exit);
  }

  /** On a clock that ticks hourly, the events accepted are those after the hour before it up to its last tick. */
  lemma {:induction false} AcceptedIffWithinClock(clock: seq<int>, events: seq<Funding>)
    requires clock != [] && forall i :: 0 <= i < |clock| ==> clock[i] == clock[0] + i * HOUR
    ensures Accepted(clock, events) <==>
            forall i :: 0 <= i < |events| ==> clock[0] - HOUR < events[i].time <= clock[|clock| - 1]
  {
    forall i, j | 0 <= i <= j < |clock| ensures clock[i] <= clock[j] {
      assert j * HOUR - i * HOUR == (j - i) * HOUR;
    }
    forall i | 0 <= i < |events| && clock[0] - HOUR < events[i].time <= clock[|clock| - 1]
      ensures HasBucket(clock, events[i])
    {
      var b := Place(clock, events[i].time);
      assert b > 0 ==> clock[b] - HOUR == clock[b - 1];
      assert Belongs(clock, events[i], b);
    }
    if Accepted(clock, events) {
      forall i | 0 <= i < |events| ensures clock[0] - HOUR < events[i].time <= clock[|clock| - 1] {
        var b: nat :| Belongs(clock, events[i], b);
        assert clock[0] <= clock[b] <= clock[|clock| - 1];
      }
    }
  }

  /** The first clock time not before `time`. */
  ghost function Place(clock: seq<int>, time: int): (at: nat)
    requires clock != [] && Sorted(clock) && time <= clock[|clock| - 1]
    ensures at < |clock| && Splits(clock, time, at)
    decreases |clock|
  {
    if |clock| == 1 || clock[|clock| - 2] < time then |clock| - 1 else Place(clock[..|clock| - 1], time)
  }
}
