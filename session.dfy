/**
 * The `App` component of src/App.tsx as a stateful session: the reducer state and the boost
 * state, changed by the player's handlers (click, boost, prestige), the 100 ms income tick and
 * the save/load effects. A parameter `now` is a reading of the component's `now` state, which the
 * boost factor depends on; a parameter `timestamp` is a fresh `Date.now()`. Rendering, particles,
 * timers and `localStorage` itself are outside the model.
 */
module AppSession {
  import opened Wrappers
  import opened Buildings
  import Game
  import Metrics
  import Boost
  import Persistence

  /** The income map of the state with the boost factor that holds at `now`. */
  function IncomeNow(s: Game.GameState, b: Boost.BoostState, now: int): map<string, Metrics.Income>
  {
    Metrics.IncomeMap(s.buildings, Metrics.Owned(s), Metrics.PrestigeMultiplier(s.prestige), Boost.Multiplier(b, now))
  }

  function CoinsPerSecNow(s: Game.GameState, b: Boost.BoostState, now: int): real
  {
    Metrics.CoinsPerSec(s.buildings, IncomeNow(s, b, now))
  }

  function SparksPerSecNow(s: Game.GameState, b: Boost.BoostState, now: int): real
  {
    Metrics.SparksPerSec(s.buildings, IncomeNow(s, b, now))
  }

  function AutoClicksNow(s: Game.GameState): real
  {
    Metrics.AutoClicksPerSec(s.buildings, Metrics.Owned(s))
  }

  function ClickValueNow(s: Game.GameState, b: Boost.BoostState, now: int): real
  {
    Metrics.EffectiveClickValue(Metrics.Owned(s), Metrics.PrestigeMultiplier(s.prestige), Boost.Multiplier(b, now))
  }

  /** What one accepted click dispatches: its value in coins, then one registered click. */
  function ClickActions(s: Game.GameState, b: Boost.BoostState, now: int): seq<Game.Action>
  {
    [Game.AddCoins(ClickValueNow(s, b, now)), Game.RegisterClick]
  }

  /** The coins one 100 ms tick adds: a tenth of the income plus a tenth of the auto-click value. */
  function CoinsGain(s: Game.GameState, b: Boost.BoostState, now: int): real
  {
    CoinsPerSecNow(s, b, now) / 10.0 + AutoClicksNow(s) * ClickValueNow(s, b, now) / 10.0
  }

  /** A dispatch guarded by a positive amount: nothing for a zero or negative amount. */
  function WhenPositive(amount: real, a: Game.Action): seq<Game.Action>
  {
    if amount > 0.0 then [a] else []
  }

  /**
   * What one 100 ms tick dispatches: the coin gain, then a tenth of the spark income when
   * positive, then a tenth of the auto-clicks when positive.
   */
  function TickActions(s: Game.GameState, b: Boost.BoostState, now: int): seq<Game.Action>
  {
    var sparkGain := SparksPerSecNow(s, b, now) / 10.0;
    var auto := AutoClicksNow(s);
    [Game.AddCoins(CoinsGain(s, b, now))]
      + WhenPositive(sparkGain, Game.AddSparks(sparkGain))
      + WhenPositive(auto, Game.AddClicks(auto / 10.0))
  }

  /** A run starts with its first action. */
  lemma RunCons(s: Game.GameState, a: Game.Action, rest: seq<Game.Action>, now: int)
    ensures Game.Run(s, [a] + rest, now) == Game.Run(Game.Reduce(s, a, now), rest, now)
  {
    assert ([a] + rest)[1..] == rest;
  }

  /** Running two lists of actions one after the other is running their concatenation. */
  lemma {:induction false} RunAppend(s: Game.GameState, xs: seq<Game.Action>, ys: seq<Game.Action>, now: int)
    ensures Game.Run(s, xs + ys, now) == Game.Run(Game.Run(s, xs, now), ys, now)
    decreases |xs|
  {
    if xs == [] {
      assert xs + ys == ys;
    } else {
      assert xs + ys == [xs[0]] + (xs[1..] + ys);
      assert xs == [xs[0]] + xs[1..];
      RunCons(s, xs[0], xs[1..] + ys, now);
      RunCons(s, xs[0], xs[1..], now);
      RunAppend(Game.Reduce(s, xs[0], now), xs[1..], ys, now);
    }
  }

  /** A guarded dispatch of a non-negative amount keeps a valid state valid. */
  lemma GuardedStep(s: Game.GameState, amount: real, a: Game.Action, now: int)
    requires Game.Valid(s) && (amount > 0.0 ==> Game.Admissible(a))
    ensures Game.Run(s, WhenPositive(amount, a), now) == (if amount > 0.0 then Game.Reduce(s, a, now) else s)
    ensures Game.Valid(Game.Run(s, WhenPositive(amount, a), now))
  {
    if amount > 0.0 {
      RunCons(s, a, [], now);
      assert [a] + [] == [a];
      Game.ReducePreservesValid(s, a, now);
    }
  }

  /** A click in a valid state earns at least one coin, counts one click and keeps the state valid. */
  lemma ClickEffect(s: Game.GameState, b: Boost.BoostState, now: int)
    requires Game.Valid(s)
    ensures var r := Game.Run(s, ClickActions(s, b, now), now);
      && r == s.(coins := s.coins + ClickValueNow(s, b, now), totalClicks := s.totalClicks + 1.0)
      && r.coins >= s.coins + 1.0
      && Game.Valid(r)
  {
    var v := ClickValueNow(s, b, now);
    Metrics.IncomesNonNegative(s, Boost.Multiplier(b, now));
    var s1 := Game.Reduce(s, Game.AddCoins(v), now);
    var s2 := Game.Reduce(s1, Game.RegisterClick, now);
    assert ClickActions(s, b, now) == [Game.AddCoins(v)] + [Game.RegisterClick];
    RunCons(s, Game.AddCoins(v), [Game.RegisterClick], now);
    RunCons(s1, Game.RegisterClick, [], now);
    assert [Game.RegisterClick] + [] == [Game.RegisterClick];
    Game.ReducePreservesValid(s, Game.AddCoins(v), now);
    Game.ReducePreservesValid(s1, Game.RegisterClick, now);
  }

  /**
   * A tick in a valid state adds exactly its gains and changes nothing else: coins, sparks and
   * clicks never decrease, buildings, upgrades and prestige stay, and the state stays valid.
   */
  lemma TickEffect(s: Game.GameState, b: Boost.BoostState, now: int)
    requires Game.Valid(s)
    ensures var r := Game.Run(s, TickActions(s, b, now), now);
      && r.coins == s.coins + CoinsGain(s, b, now)
      && r.sparks == s.sparks + SparksPerSecNow(s, b, now) / 10.0
      && r.totalClicks == s.totalClicks + AutoClicksNow(s) / 10.0
      && r.coins >= s.coins
      && r == s.(coins := r.coins, sparks := r.sparks, totalClicks := r.totalClicks)
      && Game.Valid(r)
  {
    Metrics.IncomesNonNegative(s, Boost.Multiplier(b, now));
    var auto := AutoClicksNow(s);
    var cv := ClickValueNow(s, b, now);
    assert auto * cv >= 0.0;
    var sparkGain := SparksPerSecNow(s, b, now) / 10.0;
    var first := Game.AddCoins(CoinsGain(s, b, now));
    var rest := WhenPositive(sparkGain, Game.AddSparks(sparkGain));
    var last := WhenPositive(auto, Game.AddClicks(auto / 10.0));
    assert TickActions(s, b, now) == [first] + (rest + last);
    RunCons(s, first, rest + last, now);
    var s1 := Game.Reduce(s, first, now);
    Game.ReducePreservesValid(s, first, now);
    RunAppend(s1, rest, last, now);
    GuardedStep(s1, sparkGain, Game.AddSparks(sparkGain), now);
    GuardedStep(Game.Run(s1, rest, now), auto, Game.AddClicks(auto / 10.0), now);
  }

  /** What `localStorage` holds at start-up, as the load effect sees it. */
  datatype StoredSave =
    | NoSave                                  // nothing stored: the effect returns early
    | Unparsable                              // `JSON.parse` throws: the warning is logged, nothing changes
    | Parsed(value: Option<Persistence.SavedState>)  // `None` is a stored JSON `null`

  /** The saved fields are non-negative and no upgrade id is repeated. */
  predicate SaneRecord(rec: Persistence.SavedState)
  {
    && rec.coins.GetOr(0.0) >= 0.0 && rec.sparks.GetOr(0.0) >= 0.0
    && rec.totalClicks.GetOr(0.0) >= 0.0 && rec.prestige.GetOr(0.0) >= 0.0
    && Game.NoDuplicates(rec.upgrades.GetOr([]))
  }

  class Session {
    var state: Game.GameState
    var boost: Boost.BoostState

    predicate Valid()
      reads this
    {
      Game.Valid(state)
    }

    /** `useReducer(gameReducer, defaultState)` and the idle boost. */
    constructor(now: int)
      ensures state == Game.DefaultState(now) && boost == Boost.Idle
      ensures Valid()
    {
      state := Game.DefaultState(now);
      boost := Boost.Idle;
      Game.DefaultStateValid(now);
    }

    /** `dispatch`: one reducer step. */
    method Dispatch(a: Game.Action, now: int)
      modifies this
      ensures state == Game.Reduce(old(state), a, now) && boost == old(boost)
      ensures old(Valid()) && Game.Admissible(a) ==> Valid()
    {
      if Valid() && Game.Admissible(a) {
        Game.ReducePreservesValid(state, a, now);
      }
      state := Game.Reduce(state, a, now);
    }

    /** `handleClick`, past its cooldown and DOM checks: the click's value, then one click. */
    method HandleClick(now: int)
      modifies this
      ensures state == Game.Run(old(state), ClickActions(old(state), old(boost), now), now)
      ensures boost == old(boost)
      ensures old(Valid()) ==> Valid() && state.coins >= old(state.coins) + 1.0
    {
      var s0 := state;
      if Valid() {
        ClickEffect(state, boost, now);
      }
      var value := ClickValueNow(state, boost, now);
      Dispatch(Game.AddCoins(value), now);
      var s1 := state;
      Dispatch(Game.RegisterClick, now);
      assert ClickActions(s0, boost, now) == [Game.AddCoins(value)] + [Game.RegisterClick];
      RunCons(s0, Game.AddCoins(value), [Game.RegisterClick], now);
      RunCons(s1, Game.RegisterClick, [], now);
      assert [Game.RegisterClick] + [] == [Game.RegisterClick];
    }

    /** The 100 ms interval: income, sparks when positive, auto-clicks when positive. */
    method Tick(now: int)
      modifies this
      ensures state == Game.Run(old(state), TickActions(old(state), old(boost), now), now)
      ensures boost == old(boost)
      ensures old(Valid()) ==> Valid() && state.coins >= old(state.coins)
    {
      var s0 := state;
      var auto := AutoClicksNow(state);
      var sparkGain := SparksPerSecNow(state, boost, now) / 10.0;
      var first := Game.AddCoins(CoinsGain(state, boost, now));
      var rest := WhenPositive(sparkGain, Game.AddSparks(sparkGain));
      var last := WhenPositive(auto, Game.AddClicks(auto / 10.0));
      assert TickActions(s0, boost, now) == [first] + (rest + last);
      if Valid() {
        TickEffect(state, boost, now);
      }
      Dispatch(first, now);
      var s1 := state;
      if sparkGain > 0.0 {
        Dispatch(Game.AddSparks(sparkGain), now);
      }
      var s2 := state;
      if auto > 0.0 {
        Dispatch(Game.AddClicks(auto / 10.0), now);
      }
      RunCons(s0, first, rest + last, now);
      RunAppend(s1, rest, last, now);
      if sparkGain > 0.0 {
        RunCons(s1, Game.AddSparks(sparkGain), [], now);
        assert [Game.AddSparks(sparkGain)] + [] == rest;
      }
      if auto > 0.0 {
        RunCons(s2, Game.AddClicks(auto / 10.0), [], now);
        assert [Game.AddClicks(auto / 10.0)] + [] == last;
      }
    }

    /** `handleBoost`: guarded by the `now` state, stamped with the fresh clock reading `timestamp`. */
    method HandleBoost(now: int, timestamp: int)
      modifies this
      ensures boost == Boost.HandleBoost(old(boost), now, timestamp) && state == old(state)
    {
      boost := Boost.HandleBoost(boost, now, timestamp);
    }

    /** `handlePrestige`: converts the coins into prestige only when at least one point is gained. */
    method HandlePrestige(timestamp: int)
      requires state.coins >= 0.0
      modifies this
      ensures var gain := Metrics.PrestigeGain(old(state.coins));
        state == (if gain > 0 then Game.Reduce(old(state), Game.Prestige(gain as real), timestamp) else old(state))
      ensures boost == old(boost)
      ensures old(Valid()) ==> Valid()
      ensures old(state.coins) >= Metrics.PRESTIGE_THRESHOLD <==> state.prestige > old(state.prestige)
    {
      Metrics.PrestigeGainPositive(state.coins);
      var gain := Metrics.PrestigeGain(state.coins);
      if gain > 0 {
        Dispatch(Game.Prestige(gain as real), timestamp);
      }
    }

    /** The start-up load effect: a parsed save replaces the state with its rehydration. */
    method Load(stored: StoredSave, timestamp: int)
      modifies this
      ensures stored.Parsed? ==> state == Persistence.Hydrate(stored.value, timestamp)
      ensures !stored.Parsed? ==> state == old(state)
      ensures boost == old(boost)
      ensures stored.Parsed? && stored.value.Some? && SaneRecord(stored.value.value) ==> Valid()
      ensures stored == Parsed(None) ==> Valid()
    {
      if stored.Parsed? {
        var payload := Persistence.Hydrate(stored.value, timestamp);
        if stored.value.Some? && SaneRecord(stored.value.value) {
          Persistence.HydrateValid(stored.value.value, timestamp);
        }
        if stored.value.None? {
          Game.DefaultStateValid(timestamp);
        }
        state := payload;
      }
    }

    /** The debounced save: writes the state stamped with the write time `timestamp`, then records the stamp. */
    method Save(timestamp: int) returns (rec: Persistence.SavedState)
      modifies this
      ensures rec == Persistence.SaveRecord(old(state), timestamp)
      ensures state == old(state).(lastSavedAt := timestamp) && boost == old(boost)
      ensures Game.MatchesTable(state.buildings) ==> Persistence.Hydrate(Some(rec), timestamp) == state
      ensures old(Valid()) ==> Valid()
    {
      rec := Persistence.SaveRecord(state, timestamp);
      if Game.MatchesTable(state.buildings) {
        Persistence.SaveThenHydrate(state, timestamp, timestamp);
      }
      Dispatch(Game.UpdateSaveTimestamp(timestamp), timestamp);
    }
  }
}
