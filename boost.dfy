/**
 * The timed income boost of src/App.tsx (`boostState`, `boostActive`, `boostCooldown`,
 * `boostMultiplier`, `handleBoost`). The component reads two clocks: the guard and the
 * multiplier read the `now` state, refreshed once a second, while an accepted press stamps its
 * windows with a fresh `Date.now()`. Both readings are parameters: `now` for the `now` state and
 * `timestamp` for `Date.now()`, which never lags behind it.
 */
module Boost {

  const BOOST_DURATION: int := 20000
  const BOOST_COOLDOWN: int := 65000
  const BOOST_MULTIPLIER: real := 1.35

  /** The end of the active window and the end of the cooldown, in milliseconds. */
  datatype BoostState = BoostState(activeUntil: int, cooldownUntil: int)

  /** The initial boost state: never activated. */
  const Idle: BoostState := BoostState(0, 0)

  predicate Active(b: BoostState, now: int)
  {
    now < b.activeUntil
  }

  predicate CoolingDown(b: BoostState, now: int)
  {
    now < b.cooldownUntil
  }

  /** `boostMultiplier`: 1.35 while the boost is active, otherwise 1. */
  function Multiplier(b: BoostState, now: int): (m: real)
    ensures m >= 1.0
    ensures m > 1.0 <==> Active(b, now)
  {
    if Active(b, now) then BOOST_MULTIPLIER else 1.0
  }

  /**
   * `handleBoost`: ignored while the `now` state shows the boost active or cooling down,
   * otherwise opens both windows from the fresh clock reading `timestamp`.
   */
  function HandleBoost(b: BoostState, now: int, timestamp: int): BoostState
  {
    if Active(b, now) || CoolingDown(b, now) then b
    else BoostState(timestamp + BOOST_DURATION, timestamp + BOOST_COOLDOWN)
  }

  /** An accepted press stamped at `timestamp` boosts every reading before `timestamp + 20000` and none after. */
  lemma ActivationWindow(b: BoostState, now: int, timestamp: int, t: int)
    requires !Active(b, now) && !CoolingDown(b, now)
    ensures var b' := HandleBoost(b, now, timestamp);
      Multiplier(b', t) == (if t < timestamp + BOOST_DURATION then BOOST_MULTIPLIER else 1.0)
  {
  }

  /**
   * After an activation stamped at `timestamp`, every further press whose guard reads a time
   * before `timestamp + 65000` is ignored, and any press whose guard reads that time or later
   * opens a fresh window from its own stamp `timestamp'`.
   */
  lemma CooldownBlocksReactivation(b: BoostState, now: int, timestamp: int, now': int, timestamp': int)
    requires !Active(b, now) && !CoolingDown(b, now)
    ensures var b' := HandleBoost(b, now, timestamp);
      && (now' < timestamp + BOOST_COOLDOWN ==> HandleBoost(b', now', timestamp') == b')
      && (now' >= timestamp + BOOST_COOLDOWN ==>
            HandleBoost(b', now', timestamp') == BoostState(timestamp' + BOOST_DURATION, timestamp' + BOOST_COOLDOWN))
  {
  }

  /**
   * A press changes the boost state exactly when it is accepted, given that the `now` state
   * never runs ahead of `Date.now()`.
   */
  lemma HandleBoostChangesIffAccepted(b: BoostState, now: int, timestamp: int)
    requires now <= timestamp
    ensures HandleBoost(b, now, timestamp) != b <==> !Active(b, now) && !CoolingDown(b, now)
  {
  }

  /** Activation at 0, a refused press at 5 s while active, a fresh activation at 66 s. */
  lemma BoostScenario()
    ensures HandleBoost(Idle, 0, 0) == BoostState(20000, 65000)
    ensures HandleBoost(HandleBoost(Idle, 0, 0), 5000, 5000) == HandleBoost(Idle, 0, 0)
    ensures HandleBoost(HandleBoost(Idle, 0, 0), 66000, 66000) == BoostState(86000, 131000)
  {
  }

  /**
   * The guard lags: after an activation stamped at 0, with the `now` state last refreshed at
   * 64300, a press at 65200 is still refused, and a press at 65400 after the refresh to 65300
   * opens windows from 65400.
   */
  lemma LaggingGuardScenario()
    ensures HandleBoost(HandleBoost(Idle, 0, 0), 64300, 65200) == BoostState(20000, 65000)
    ensures HandleBoost(HandleBoost(Idle, 0, 0), 65300, 65400) == BoostState(85400, 130400)
  {
  }
}
