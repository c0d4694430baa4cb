/**
  The rolling reconnect budget of the Binance sockets: a ledger that prunes its time stamps as it
  goes, against the same decisions taken on the complete history.
 */
module ReconnectLedger {
  const CONNECTION_WINDOW: real := 300.0
  const PROFILE_STORM_LIMIT := 6
  const PROCESS_STORM_LIMIT := 15
  const PONG_WINDOW: real := 3600.0
  const PONG_LIMIT := 8

  type Profile = string

  datatype Decision =
    | Admitted(observed: nat)
    | PongStarvation(observed: nat)
    | ProfileStorm(observed: nat)
    | ProcessStorm(observed: nat)

  datatype Attempt = Attempt(profile: Profile, at: real, pongOrStarve: bool)

  function FreshStamps(stamps: seq<real>, now: real, window: real): seq<real> {
    if stamps == [] then []
    else if now - stamps[0] < window then [stamps[0]] + FreshStamps(stamps[1..], now, window)
    else FreshStamps(stamps[1..], now, window)
  }

  // ---------------------------------------------- decisions on full history

  /** The stamps of a history that satisfy `p`, oldest first. */
  function Stamps(history: seq<Attempt>, p: Attempt -> bool): seq<real> {
    if history == [] then []
    else
      var last := history[|history| - 1];
      var before := Stamps(history[..|history| - 1], p);
      if p(last) then before + [last.at] else before
  }

  function Of(profile: Profile): Attempt -> bool {
    (a: Attempt) => a.profile == profile
  }

  function PongOf(profile: Profile): Attempt -> bool {
    (a: Attempt) => a.profile == profile && a.pongOrStarve
  }

  function Anyone(): Attempt -> bool {
    (a: Attempt) => true
  }

  function Outside(names: set<Profile>): Attempt -> bool {
    (a: Attempt) => a.profile !in names
  }

  function Count(history: seq<Attempt>, p: Attempt -> bool, now: real, window: real): nat {
    |FreshStamps(Stamps(history, p), now, window)|
  }

  /** The verdict on one reconnect, given everything that was ever admitted. */
  function Decide(history: seq<Attempt>, a: Attempt): Decision {
    var pattern := Count(history, PongOf(a.profile), a.at, PONG_WINDOW);
    var attempts := Count(history, Of(a.profile), a.at, CONNECTION_WINDOW);
    var process := Count(history, Anyone(), a.at, CONNECTION_WINDOW);
    if a.pongOrStarve && pattern >= PONG_LIMIT then PongStarvation(pattern + 1)
    else if attempts >= PROFILE_STORM_LIMIT then ProfileStorm(attempts + 1)
    else if process >= PROCESS_STORM_LIMIT then ProcessStorm(process + 1)
    else Admitted(attempts + 1)
  }

  function After(history: seq<Attempt>, a: Attempt): seq<Attempt> {
    if Decide(history, a).Admitted? then history + [a] else history
  }

  // ---------------------------------------------------------------- lemmas

  lemma {:induction false} FreshAppend(xs: seq<real>, ys: seq<real>, now: real, window: real)
    ensures FreshStamps(xs + ys, now, window) == FreshStamps(xs, now, window) + FreshStamps(ys, now, window)
  {
    if xs == [] {
      assert xs + ys == ys;
    } else {
      assert (xs + ys)[1..] == xs[1..] + ys;
      FreshAppend(xs[1..], ys, now, window);
    }
  }

  /** Pruning at `now` is invisible from any later time on. */
  lemma {:induction false} PruneThenLater(stamps: seq<real>, now: real, later: real, window: real)
    requires now <= later
    ensures FreshStamps(FreshStamps(stamps, now, window), later, window) == FreshStamps(stamps, later, window)
  {
    if stamps != [] {
      PruneThenLater(stamps[1..], now, later, window);
      if now - stamps[0] < window {
        FreshAppend([stamps[0]], FreshStamps(stamps[1..], now, window), later, window);
        FreshAppend([stamps[0]], stamps[1..], later, window);
      }
    }
  }

  lemma {:induction false} CountSplits(
    history: seq<Attempt>, names: set<Profile>, name: Profile, now: real, window: real)
    requires name in names
    ensures Count(history, Outside(names - {name}), now, window)
         == Count(history, Outside(names), now, window) + Count(history, Of(name), now, window)
  {
    if history != [] {
      var before, last := history[..|history| - 1], history[|history| - 1];
      CountSplits(before, names, name, now, window);
      var tail := [last.at];
      assert history == before + [last];
      FreshAppend(Stamps(before, Outside(names - {name})), tail, now, window);
      FreshAppend(Stamps(before, Outside(names)), tail, now, window);
      FreshAppend(Stamps(before, Of(name)), tail, now, window);
    }
  }

  lemma {:induction false} StampsAgree(history: seq<Attempt>, p: Attempt -> bool, q: Attempt -> bool)
    requires forall a :: a in history ==> p(a) == q(a)
    ensures Stamps(history, p) == Stamps(history, q)
  {
    if history != [] {
      StampsAgree(history[..|history| - 1], p, q);
    }
  }

  // ----------------------------------------------------------------- ledger

  function Get(m: map<Profile, seq<real>>, profile: Profile): seq<real> {
    if profile in m then m[profile] else []
  }

  function Selected(profile: Profile, pong: bool): Attempt -> bool {
    if pong then PongOf(profile) else Of(profile)
  }

  /** The pruned lists answer every question asked at `clock` or later as the full history would. */
  ghost predicate Represents(m: map<Profile, seq<real>>, history: seq<Attempt>, clock: real, window: real, pong: bool) {
    forall p, now | now >= clock ::
      FreshStamps(Get(m, p), now, window) == FreshStamps(Stamps(history, Selected(p, pong)), now, window)
  }

  lemma {:induction false} PruneKeepsMeaning(m: map<Profile, seq<real>>, history: seq<Attempt>, clock: real, now: real,
                          window: real, pong: bool, profile: Profile)
    requires Represents(m, history, clock, window, pong) && clock <= now
    ensures Represents(m[profile := FreshStamps(Get(m, profile), now, window)], history, now, window, pong)
  {
    var pruned := m[profile := FreshStamps(Get(m, profile), now, window)];
    forall p, later | later >= now
      ensures FreshStamps(Get(pruned, p), later, window)
           == FreshStamps(Stamps(history, Selected(p, pong)), later, window)
    {
      PruneThenLater(Get(m, profile), now, later, window);
      assert p != profile ==> Get(pruned, p) == Get(m, p);
    }
  }

  lemma {:induction false} RecordKeepsMeaning(
    m: map<Profile, seq<real>>, history: seq<Attempt>, window: real, pong: bool, a: Attempt)
    requires Represents(m, history, a.at, window, pong)
    ensures var next := if pong && !a.pongOrStarve then m else m[a.profile := Get(m, a.profile) + [a.at]];
            Represents(next, history + [a], a.at, window, pong)
  {
    var next := if pong && !a.pongOrStarve then m else m[a.profile := Get(m, a.profile) + [a.at]];
    forall p, later | later >= a.at
      ensures FreshStamps(Get(next, p), later, window)
           == FreshStamps(Stamps(history + [a], Selected(p, pong)), later, window)
    {
      var selected := Selected(p, pong);
      if selected(a) {
        FreshAppend(Get(m, p), [a.at], later, window);
        FreshAppend(Stamps(history, selected), [a.at], later, window);
      } else {
        assert Get(next, p) == Get(m, p);
      }
    }
  }

  lemma {:induction false} UnlistedProfilesAreFew(history: seq<Attempt>, listed: set<Profile>, profile: Profile)
    requires forall a :: a in history ==> a.profile in listed
    ensures Stamps(history, Outside(listed - {profile})) == Stamps(history, Of(profile))
  {
    StampsAgree(history, Outside(listed - {profile}), Of(profile));
  }

  class Ledger {
    var attempts: map<Profile, seq<real>>
    var pattern: map<Profile, seq<real>>
    ghost var history: seq<Attempt>
    ghost var clock: real

    ghost predicate Valid()
      reads this
    {
      && (forall a :: a in history ==> a.profile in attempts)
      && Represents(attempts, history, clock, CONNECTION_WINDOW, false)
      && Represents(pattern, history, clock, PONG_WINDOW, true)
    }

    constructor (ghost start: real)
      ensures Valid() && history == [] && clock == start
    {
      attempts, pattern, history, clock := map[], map[], [], start;
    }

    method Admit(profile: Profile, now: real, pongOrStarve: bool) returns (decision: Decision)
      requires Valid() && clock <= now
      modifies this
      ensures Valid() && clock == now
      ensures decision == Decide(old(history), Attempt(profile, now, pongOrStarve))
      ensures history == After(old(history), Attempt(profile, now, pongOrStarve))
    {
      var mine, mineOfPattern, process := Prune(profile, now);
      if pongOrStarve && |mineOfPattern| >= PONG_LIMIT {
        return PongStarvation(|mineOfPattern| + 1);
      }
      if |mine| >= PROFILE_STORM_LIMIT {
        return ProfileStorm(|mine| + 1);
      }
      if |process| >= PROCESS_STORM_LIMIT {
        return ProcessStorm(|process| + 1);
      }
      Record(profile, now, pongOrStarve);
      return Admitted(|mine| + 1);
    }

    /** Forgets what has left the windows and reports what is still in them. */
    method Prune(profile: Profile, now: real) returns (mine: seq<real>, mineOfPattern: seq<real>, process: seq<real>)
      requires Valid() && clock <= now
      modifies this
      ensures Valid() && clock == now && history == old(history)
      ensures |mine| == Count(history, Of(profile), now, CONNECTION_WINDOW)
      ensures |mineOfPattern| == Count(history, PongOf(profile), now, PONG_WINDOW)
      ensures |process| == Count(history, Anyone(), now, CONNECTION_WINDOW)
    {
      mine := FreshStamps(Get(attempts, profile), now, CONNECTION_WINDOW);
      mineOfPattern := FreshStamps(Get(pattern, profile), now, PONG_WINDOW);
      assert |mine| == Count(history, Selected(profile, false), now, CONNECTION_WINDOW);
      assert |mineOfPattern| == Count(history, Selected(profile, true), now, PONG_WINDOW);
      process := OthersToo(profile, mine, now);
      PruneKeepsMeaning(attempts, history, clock, now, CONNECTION_WINDOW, false, profile);
      PruneKeepsMeaning(pattern, history, clock, now, PONG_WINDOW, true, profile);
      attempts := attempts[profile := mine];
      pattern := pattern[profile := mineOfPattern];
      clock := now;
    }

    /** Adds an admitted attempt; a reconnect outside the pong or starvation pattern leaves that list alone. */
    method Record(profile: Profile, now: real, pongOrStarve: bool)
      requires Valid() && clock == now
      modifies this
      ensures Valid() && clock == now
      ensures history == old(history) + [Attempt(profile, now, pongOrStarve)]
    {
      ghost var attempt := Attempt(profile, now, pongOrStarve);
      RecordKeepsMeaning(attempts, history, CONNECTION_WINDOW, false, attempt);
      RecordKeepsMeaning(pattern, history, PONG_WINDOW, true, attempt);
      attempts := attempts[profile := Get(attempts, profile) + [now]];
      if pongOrStarve {
        pattern := pattern[profile := Get(pattern, profile) + [now]];
      }
      history := history + [attempt];
    }

    /** The fresh attempts of this profile followed by those of every other one. */
    method OthersToo(profile: Profile, mine: seq<real>, now: real) returns (process: seq<real>)
      requires Valid() && clock <= now
      requires |mine| == Count(history, Of(profile), now, CONNECTION_WINDOW)
      ensures |process| == Count(history, Anyone(), now, CONNECTION_WINDOW)
    {
      process := mine;
      var names := attempts.Keys - {profile};
      UnlistedProfilesAreFew(history, attempts.Keys, profile);
      while names != {}
        invariant names <= attempts.Keys - {profile}
        invariant |process| == Count(history, Outside(names), now, CONNECTION_WINDOW)
        decreases names
      {
        var name :| name in names;
        CountSplits(history, names, name, now, CONNECTION_WINDOW);
        assert Get(attempts, name) == attempts[name] && Selected(name, false) == Of(name);
        process := process + FreshStamps(attempts[name], now, CONNECTION_WINDOW);
        names := names - {name};
      }
      StampsAgree(history, Outside({}), Anyone());
    }
  }

  // ------------------------------------------------------------- whole runs

  /** The admissions on record after a sequence of reconnect requests. */
  function Serve(history: seq<Attempt>, requests: seq<Attempt>): seq<Attempt>
    decreases requests
  {
    if requests == [] then history else Serve(After(history, requests[0]), requests[1..])
  }

  function Within(stamps: seq<real>, from: real, window: real): seq<real> {
    if stamps == [] then []
    else
      var last := stamps[|stamps| - 1];
      var before := Within(stamps[..|stamps| - 1], from, window);
      if from <= last < from + window then before + [last] else before
  }

  /** Each stamp was admitted with fewer than `limit` fresh ones before it. */
  ghost predicate Budgeted(stamps: seq<real>, window: real, limit: nat) {
    forall i :: 0 <= i < |stamps| ==> |FreshStamps(stamps[..i], stamps[i], window)| < limit
  }

  lemma {:induction false} BudgetSnoc(stamps: seq<real>, last: real, window: real, limit: nat)
    requires Budgeted(stamps, window, limit) && |FreshStamps(stamps, last, window)| < limit
    ensures Budgeted(stamps + [last], window, limit)
  {
    var longer := stamps + [last];
    forall i | 0 <= i < |longer|
      ensures |FreshStamps(longer[..i], longer[i], window)| < limit
    {
      if i < |stamps| {
        assert longer[..i] == stamps[..i];
      } else {
        assert longer[..i] == stamps;
      }
    }
  }

  /** Whatever lies in a window that also holds `last` is still fresh at `last`. */
  lemma {:induction false} WithinAreFresh(stamps: seq<real>, from: real, last: real, window: real)
    requires from <= last < from + window
    ensures |Within(stamps, from, window)| <= |FreshStamps(stamps, last, window)|
  {
    if stamps != [] {
      var before, x := stamps[..|stamps| - 1], stamps[|stamps| - 1];
      assert stamps == before + [x];
      WithinAreFresh(before, from, last, window);
      FreshAppend(before, [x], last, window);
    }
  }

  lemma {:induction false} BudgetBoundsWindows(stamps: seq<real>, from: real, window: real, limit: nat)
    requires Budgeted(stamps, window, limit)
    ensures |Within(stamps, from, window)| <= limit
  {
    if stamps != [] {
      var n := |stamps| - 1;
      var before, x := stamps[..n], stamps[n];
      assert forall i :: 0 <= i < n ==> before[..i] == stamps[..i];
      BudgetBoundsWindows(before, from, window, limit);
      if from <= x < from + window {
        WithinAreFresh(before, from, x, window);
      }
    }
  }

  ghost predicate WithinBudget(history: seq<Attempt>, p: Profile) {
    && Budgeted(Stamps(history, Of(p)), CONNECTION_WINDOW, PROFILE_STORM_LIMIT)
    && Budgeted(Stamps(history, Anyone()), CONNECTION_WINDOW, PROCESS_STORM_LIMIT)
    && Budgeted(Stamps(history, PongOf(p)), PONG_WINDOW, PONG_LIMIT)
  }

  lemma {:induction false} AfterIsWithinBudget(history: seq<Attempt>, a: Attempt, p: Profile)
    requires WithinBudget(history, p)
    ensures WithinBudget(After(history, a), p)
  {
    if Decide(history, a).Admitted? {
      BudgetSnoc(Stamps(history, Anyone()), a.at, CONNECTION_WINDOW, PROCESS_STORM_LIMIT);
      if a.profile == p {
        BudgetSnoc(Stamps(history, Of(p)), a.at, CONNECTION_WINDOW, PROFILE_STORM_LIMIT);
        if a.pongOrStarve {
          BudgetSnoc(Stamps(history, PongOf(p)), a.at, PONG_WINDOW, PONG_LIMIT);
        }
      }
    }
  }

  lemma {:induction false} ServeIsWithinBudget(history: seq<Attempt>, requests: seq<Attempt>, p: Profile)
    requires WithinBudget(history, p)
    ensures WithinBudget(Serve(history, requests), p)
    decreases requests
  {
    if requests != [] {
      AfterIsWithinBudget(history, requests[0], p);
      ServeIsWithinBudget(After(history, requests[0]), requests[1..], p);
    }
  }

  /** The storm budgets hold in every half-open window, wherever it starts, over every run. */
  lemma {:induction false} WindowBudgets(requests: seq<Attempt>, p: Profile, from: real)
    ensures var admitted := Serve([], requests);
            && |Within(Stamps(admitted, Of(p)), from, CONNECTION_WINDOW)| <= PROFILE_STORM_LIMIT
            && |Within(Stamps(admitted, Anyone()), from, CONNECTION_WINDOW)| <= PROCESS_STORM_LIMIT
            && |Within(Stamps(admitted, PongOf(p)), from, PONG_WINDOW)| <= PONG_LIMIT
  {
    var admitted := Serve([], requests);
    ServeIsWithinBudget([], requests, p);
    BudgetBoundsWindows(Stamps(admitted, Of(p)), from, CONNECTION_WINDOW, PROFILE_STORM_LIMIT);
    BudgetBoundsWindows(Stamps(admitted, Anyone()), from, CONNECTION_WINDOW, PROCESS_STORM_LIMIT);
    BudgetBoundsWindows(Stamps(admitted, PongOf(p)), from, PONG_WINDOW, PONG_LIMIT);
  }

  lemma {:induction false} ServeAppend(history: seq<Attempt>, xs: seq<Attempt>, ys: seq<Attempt>)
    ensures Serve(history, xs + ys) == Serve(Serve(history, xs), ys)
    decreases xs
  {
    if xs == [] {
      assert xs + ys == ys;
    } else {
      assert (xs + ys)[1..] == xs[1..] + ys;
      ServeAppend(After(history, xs[0]), xs[1..], ys);
    }
  }

  /** A refused request can be struck from the run: every later request is decided as if it never came. */
  lemma {:induction false} RefusalIsInert(earlier: seq<Attempt>, refused: Attempt, later: seq<Attempt>, probe: Attempt)
    requires !Decide(Serve([], earlier), refused).Admitted?
    ensures Serve([], earlier + [refused] + later) == Serve([], earlier + later)
    ensures Decide(Serve([], earlier + [refused] + later), probe) == Decide(Serve([], earlier + later), probe)
  {
    ServeAppend([], earlier, [refused]);
    assert Serve(Serve([], earlier), [refused]) == Serve([], earlier);
    ServeAppend([], earlier + [refused], later);
    ServeAppend([], earlier, later);
  }
}
