/**
 * The `RestartStateMachine` class of RestartStateMachine.h: the success flag,
 * the four step flags, the cookie, and the retry timing (wait, last sleep,
 * last successful restart). Each mutating method is specified by a function
 * on a `Snapshot` of the fields; the timing promises are lemmas about those
 * functions.
 */
module Controller {
  import opened Wrappers

  const INITIAL_WAIT_TIME: real := 5000.0
  const DEFAULT_BACKOFF_COEFFICIENT: real := 1.5
  const MAX_WAIT_TIME: real := 86400000.0
  const RECONNECT_DELAY: int := 300000

  /** `millis()` values: a 32-bit `unsigned long`. */
  const CLOCK_PERIOD: int := 0x1_0000_0000
  type Millis = x: int | 0 <= x < 0x1_0000_0000

  /** `now - since` computed in `unsigned long`, wrapping modulo 2^32. */
  function Elapsed(now: Millis, since: Millis): (d: Millis)
    ensures since <= now ==> d == now - since
    ensures now < since ==> d == now - since + CLOCK_PERIOD
  {
    (now - since) % CLOCK_PERIOD
  }

  /** The fields of a `RestartStateMachine`, as a value. */
  datatype Snapshot = Snapshot(
    successful: bool,
    indexLoaded: bool,
    initialized: bool,
    loggedIn: bool,
    updated: bool,
    waitTime: real,
    lastSleep: Millis,
    lastRestart: Millis,
    frkrouter: Option<string>)

  predicate NoSteps(s: Snapshot) {
    !s.indexLoaded && !s.initialized && !s.loggedIn && !s.updated
  }

  predicate AllSteps(s: Snapshot) {
    s.indexLoaded && s.initialized && s.loggedIn && s.updated
  }

  /** `canTryAgain()`: the time since the last sleep has reached the wait. */
  predicate CanTryAgainAt(s: Snapshot, now: Millis) {
    Elapsed(now, s.lastSleep) as real >= s.waitTime
  }

  /**
   * `failed()` as written: the flags are cleared first, so the test of
   * `updated` that guards the reconnect-delay branch reads the cleared flag.
   */
  function AfterFailure(s: Snapshot, now: Millis): (t: Snapshot)
    ensures !t.successful && NoSteps(t) && t.lastSleep == now
    ensures t.lastRestart == s.lastRestart && t.frkrouter == s.frkrouter
  {
    var cleared := s.(successful := false, indexLoaded := false, initialized := false,
                      loggedIn := false, updated := false, lastSleep := now);
    var elapsed := Elapsed(cleared.lastSleep, cleared.lastRestart);
    var wait :=
      if cleared.updated && elapsed < RECONNECT_DELAY then (RECONNECT_DELAY - elapsed) as real
      else if cleared.waitTime == 0.0 then INITIAL_WAIT_TIME
      else
        var grown := cleared.waitTime * DEFAULT_BACKOFF_COEFFICIENT;
        if grown >= MAX_WAIT_TIME then INITIAL_WAIT_TIME else grown;
    cleared.(waitTime := wait)
  }

  /** `complete()`. */
  function AfterSuccess(s: Snapshot, now: Millis): (t: Snapshot) {
    s.(successful := true, lastRestart := now)
  }

  /**
   * `restart()`: `now` and `later` are its two readings of `millis()`, for
   * the elapsed time and for the new `lastSleep`.
   */
  function AfterRestart(s: Snapshot, now: Millis, later: Millis): (t: Snapshot) {
    if !s.updated then s
    else
      var elapsed := Elapsed(now, s.lastRestart);
      s.(successful := false, indexLoaded := false, initialized := false,
         loggedIn := false, updated := false,
         waitTime := if elapsed < RECONNECT_DELAY then (RECONNECT_DELAY - elapsed) as real else s.waitTime,
         lastSleep := later)
  }

  /** The controller as the global `stateMachine` starts: zero flags, zero timing, NULL cookie. */
  const INITIAL: Snapshot := Snapshot(false, false, false, false, false, 0.0, 0, 0, None)

  class RestartStateMachine {
    var successful: bool
    var waitTime: real
    const backoffCoefficient: real
    var frkrouter: Option<string>
    var lastSleep: Millis
    var lastRestart: Millis
    var indexLoaded: bool
    var initialized: bool
    var loggedIn: bool
    var updated: bool

    ghost predicate Valid()
      reads this
    {
      backoffCoefficient == DEFAULT_BACKOFF_COEFFICIENT && 0.0 <= waitTime < MAX_WAIT_TIME
    }

    function Value(): (s: Snapshot)
      reads this
    {
      Snapshot(successful, indexLoaded, initialized, loggedIn, updated,
               waitTime, lastSleep, lastRestart, frkrouter)
    }

    /**
     * The C++ constructor sets only the flags and the coefficient; the wait,
     * the two timestamps and the cookie pointer are zero because the one
     * instance is a global with static storage.
     */
    constructor ()
      ensures Valid() && Value() == INITIAL
    {
      successful := false;
      indexLoaded := false;
      initialized := false;
      loggedIn := false;
      updated := false;
      backoffCoefficient := DEFAULT_BACKOFF_COEFFICIENT;
      waitTime := 0.0;
      lastSleep := 0;
      lastRestart := 0;
      frkrouter := None;
    }

    method SetFrkrouter(value: Option<string>)
      modifies this
      ensures Value() == old(Value()).(frkrouter := value)
      ensures Valid() <==> old(Valid())
    {
      frkrouter := value;
    }

    method SetIndexLoaded()
      modifies this
      ensures Value() == old(Value()).(indexLoaded := true)
      ensures Valid() <==> old(Valid())
    {
      indexLoaded := true;
    }

    method SetInitialized()
      modifies this
      ensures Value() == old(Value()).(initialized := true)
      ensures Valid() <==> old(Valid())
    {
      initialized := true;
    }

    method SetLoggedIn()
      modifies this
      ensures Value() == old(Value()).(loggedIn := true)
      ensures Valid() <==> old(Valid())
    {
      loggedIn := true;
    }

    method SetUpdated()
      modifies this
      ensures Value() == old(Value()).(updated := true)
      ensures Valid() <==> old(Valid())
    {
      updated := true;
    }

    /** Reads the clock and the timing fields; changes nothing. */
    method CanTryAgain(now: Millis) returns (again: bool)
      ensures again == CanTryAgainAt(Value(), now)
      ensures lastSleep <= now ==> (again <==> (now - lastSleep) as real >= waitTime)
    {
      var elapsed := Elapsed(now, lastSleep);
      again := elapsed as real >= waitTime;
    }

    method Failed(now: Millis)
      requires Valid()
      modifies this
      ensures Valid()
      ensures Value() == AfterFailure(old(Value()), now)
    {
      successful := false;
      indexLoaded := false;
      initialized := false;
      loggedIn := false;
      updated := false;

      lastSleep := now;
      var elapsed := Elapsed(lastSleep, lastRestart);
      var wait := waitTime;
      if updated && elapsed < RECONNECT_DELAY {
        wait := (RECONNECT_DELAY - elapsed) as real;
      } else if wait == 0.0 {
        wait := INITIAL_WAIT_TIME;
      } else {
        wait := wait * backoffCoefficient;
        if wait >= MAX_WAIT_TIME {
          wait := INITIAL_WAIT_TIME;
        }
      }
      waitTime := wait;
    }

    method Complete(now: Millis)
      requires Valid()
      modifies this
      ensures Valid()
      ensures Value() == AfterSuccess(old(Value()), now)
    {
      successful := true;
      lastRestart := now;
    }

    method Restart(now: Millis, later: Millis)
      requires Valid()
      modifies this
      ensures Valid()
      ensures Value() == AfterRestart(old(Value()), now, later)
    {
      if updated {
        successful := false;
        indexLoaded := false;
        initialized := false;
        loggedIn := false;
        updated := false;

        var elapsed := Elapsed(now, lastRestart);
        if elapsed < RECONNECT_DELAY {
          waitTime := (RECONNECT_DELAY - elapsed) as real;
        }
        lastSleep := later;
      }
    }
  }

  // ---------------------------------------------------------------------------
  // The wait-time policy

  /** The wait `failed()` computes from the previous one: start, grow by 1.5, wrap to the start. */
  function Backoff(wait: real): (next: real) {
    if wait == 0.0 then INITIAL_WAIT_TIME
    else if wait * DEFAULT_BACKOFF_COEFFICIENT >= MAX_WAIT_TIME then INITIAL_WAIT_TIME
    else wait * DEFAULT_BACKOFF_COEFFICIENT
  }

  /**
   * Whatever the flags and timestamps, `failed()` applies the plain backoff:
   * the reconnect-delay branch never fires.
   */
  lemma FailureUsesBackoff(s: Snapshot, now: Millis)
    ensures AfterFailure(s, now).waitTime == Backoff(s.waitTime)
  {
  }

  /**
   * A failure right after a completed update (updated, and no time since the
   * last restart) still waits only the initial 5 s, not the 300 s reconnect
   * delay the branch at line 173 was written for. In the wired workflow this
   * starting state never meets `failed()` at all (see
   * `Workflow.FailureNeverSeesUpdate`); the lemma isolates the branch itself.
   */
  lemma ReconnectFloorNeverApplies(now: Millis)
    ensures var s := INITIAL.(successful := true, indexLoaded := true, initialized := true,
                              loggedIn := true, updated := true, lastRestart := now);
      Elapsed(now, s.lastRestart) < RECONNECT_DELAY
      && AfterFailure(s, now).waitTime == INITIAL_WAIT_TIME
      && AfterFailure(s, now).waitTime != (RECONNECT_DELAY - Elapsed(now, s.lastRestart)) as real
  {
  }

  /** A non-negative wait becomes a positive one below the ceiling: the backoff wraps, it never saturates. */
  lemma FailureWaitBounded(s: Snapshot, now: Millis)
    requires s.waitTime >= 0.0
    ensures 0.0 < AfterFailure(s, now).waitTime < MAX_WAIT_TIME
  {
  }

  /** Growth that reaches the ceiling starts over at the initial wait. */
  lemma FailureWraps(s: Snapshot, now: Millis)
    requires s.waitTime > 0.0 && s.waitTime * DEFAULT_BACKOFF_COEFFICIENT >= MAX_WAIT_TIME
    ensures AfterFailure(s, now).waitTime == INITIAL_WAIT_TIME
  {
  }

  /** From a zero wait, three failures in a row wait 5000, 7500 and then 11250 ms. */
  lemma ThreeFailures(s: Snapshot, t1: Millis, t2: Millis, t3: Millis)
    requires s.waitTime == 0.0
    ensures AfterFailure(s, t1).waitTime == 5000.0
    ensures AfterFailure(AfterFailure(s, t1), t2).waitTime == 7500.0
    ensures AfterFailure(AfterFailure(AfterFailure(s, t1), t2), t3).waitTime == 11250.0
  {
  }

  function Pow(x: real, k: nat): (p: real) {
    if k == 0 then 1.0 else x * Pow(x, k - 1)
  }

  /** The wait after `n` consecutive failures starting from the zero wait. */
  function WaitAfter(n: nat): (wait: real) {
    if n == 0 then 0.0 else Backoff(WaitAfter(n - 1))
  }

  lemma {:induction false} PowAdd(x: real, m: nat, n: nat)
    ensures Pow(x, m + n) == Pow(x, m) * Pow(x, n)
  {
    if m > 0 {
      PowAdd(x, m - 1, n);
    }
  }

  lemma {:induction false} PowPositive(k: nat)
    ensures 0.0 < Pow(1.5, k)
  {
    if k > 0 {
      PowPositive(k - 1);
    }
  }

  lemma {:induction false} PowGrows(i: nat, j: nat)
    requires i <= j
    ensures 0.0 < Pow(1.5, i) <= Pow(1.5, j)
  {
    PowPositive(i);
    if i < j {
      PowGrows(i, j - 1);
      PowPositive(j - 1);
    }
  }

  lemma PowAt24And25()
    ensures Pow(1.5, 24) == 282429536481.0 / 16777216.0
    ensures Pow(1.5, 25) == 847288609443.0 / 33554432.0
  {
    assert Pow(1.5, 3) == 3.375;
    PowAdd(1.5, 3, 3);
    PowAdd(1.5, 6, 6);
    PowAdd(1.5, 12, 12);
  }

  /**
   * The backoff is periodic: after n + 1 failures from the zero wait the wait
   * is 5000 * 1.5^(n mod 25). The 25th failure waits about 84.2e6 ms; the
   * next product would pass 86.4e6 ms, so the 26th starts over at 5000.
   */
  lemma {:induction false} BackoffCycle(n: nat)
    ensures WaitAfter(n + 1) == INITIAL_WAIT_TIME * Pow(1.5, n % 25)
  {
    if n > 0 {
      BackoffCycle(n - 1);
      var k := (n - 1) % 25;
      PowGrows(0, k);
      PowAt24And25();
      assert WaitAfter(n) * 1.5 == INITIAL_WAIT_TIME * Pow(1.5, k + 1);
      if k < 24 {
        PowGrows(k + 1, 24);
        assert n % 25 == k + 1;
      } else {
        assert n % 25 == 0;
      }
    }
  }

  /** `complete()` marks success at `now` and touches neither the step flags nor the wait. */
  lemma SuccessKeepsSteps(s: Snapshot, now: Millis)
    ensures var t := AfterSuccess(s, now);
      t.successful && t.lastRestart == now
      && t.indexLoaded == s.indexLoaded && t.initialized == s.initialized
      && t.loggedIn == s.loggedIn && t.updated == s.updated
      && t.waitTime == s.waitTime && t.lastSleep == s.lastSleep
  {
  }

  /** `restart()` does nothing unless the settings were updated. */
  lemma RestartNeedsUpdate(s: Snapshot, now: Millis, later: Millis)
    requires !s.updated
    ensures AfterRestart(s, now, later) == s
  {
  }

  /** After an update, `restart()` clears the flags and starts sleeping at its second clock reading. */
  lemma RestartClears(s: Snapshot, now: Millis, later: Millis)
    requires s.updated
    ensures var t := AfterRestart(s, now, later);
      !t.successful && NoSteps(t) && t.lastSleep == later && t.lastRestart == s.lastRestart
  {
  }

  /**
   * After `restart()` the machine cannot try again before the reconnect delay
   * has passed since the last successful restart (no clock wrap between the
   * restart and the attempt, and a non-negative wait).
   */
  lemma RestartHoldsOff(s: Snapshot, now: Millis, later: Millis, t: Millis)
    requires s.updated && s.waitTime >= 0.0
    requires s.lastRestart <= now <= later <= t
    requires CanTryAgainAt(AfterRestart(s, now, later), t)
    ensures t >= s.lastRestart + RECONNECT_DELAY
  {
  }

  /** When the restart comes within the reconnect delay, trying again becomes possible exactly at its end. */
  lemma RestartReleasesOnTime(s: Snapshot, now: Millis, t: Millis)
    requires s.updated && s.lastRestart <= now <= t
    requires now - s.lastRestart < RECONNECT_DELAY
    ensures CanTryAgainAt(AfterRestart(s, now, now), t) <==> t >= s.lastRestart + RECONNECT_DELAY
  {
  }
}
