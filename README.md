# Router restart workflow: a Dafny model

This project models the retry controller of the Ioniq 5 temperature monitor's
router-restart workflow. A five-state machine (Index, Init, Login, Update,
Sleep) logs in to the router and posts new LAN settings. Every failure falls
back to Sleep. Sleep waits with a growing backoff before it tries again. The
model also covers the pure Set-Cookie parser and the success tests of the four
HTTP requests that the states rely on.

Modules:

- `Wrappers`: `Option`, used wherever the C++ passes a `String*` that may be NULL.
- `Restarter` (Restarter.h): `IndexOf` and `Find` model Arduino
  `String::indexOf`. `ProcessSetCookieHeader` is the cookie parser. The four
  `Process*` functions decide a step's outcome from a `Reply`, which carries the
  status code, the body and the Set-Cookie header the HTTP client returned.
- `Controller` (class `RestartStateMachine` of RestartStateMachine.h): the class
  has the source's fields and methods, `now` stands for `millis()`, and every
  mutating method is specified by a function on a `Snapshot` of the fields.
  `Millis` is the 32-bit `unsigned long` clock. `Elapsed` is its wrapping
  subtraction. `waitTime` is a `real`.
- `Workflow` (the wiring of RestartStateMachine.h): `Rules` is the table that
  `setupStateMachine` registers. `RunAction` holds the state functions gated by
  the entry-once flag, and `EvalGuard` holds the guard functions. `Tick` is one
  scheduling step, and the `Engine` class stands for the global `fsm`.

The code and its intent disagree in one place, and the model follows the code.
The comment at RestartStateMachine.h:171 says that a failure after a completed
update must wait out the 300 s reconnect delay. But `failed()` clears `updated`
(line 167) before it tests it (line 173), so that branch can never fire.
`AfterFailure` and `Failed` keep the branch as written. `FailureUsesBackoff`
proves that every failure applies the plain backoff, and
`ReconnectFloorNeverApplies` gives a concrete post-update failure that waits
5 s, not the 300 s delay. In the wired workflow the branch is unreachable even
apart from that ordering: `failed()` is only called from the fallback rule, and
in Update a recorded step fires the update-complete rule first (lines 70, 76 and
320-323), so `FailureNeverSeesUpdate` shows that `updated` is always false when
`failed()` runs. In the same spirit, `restart()` sets the wait only
when less than the reconnect delay has passed since the last success. Otherwise
it keeps the current wait, and the model does the same.

State machine engine: StateMachine.h is not part of this model. The wiring
depends on the following behaviour of it, which the model assumes:

- each tick runs the current state's action, then tries that state's rules in
  registration order, and the first guard that returns true picks the next
  state (if none fires, the state stays);
- `executeOnce` is true exactly on the first tick after a change of state;
- the machine starts in the first state added (Index), with `executeOnce` true.

One `now` per tick is exact, because each tick makes at most one `millis()`
read: `complete()`, `failed()` and `canTryAgain()` each belong to a guard that
ends the evaluation. `restart()` reads the clock twice, so it takes two times,
`now` and `later`.

`Reachable` describes the configurations that can occur between ticks.
`Boot` establishes it at program start, and `TickPreservesReachable` and
`RestartPreservesReachable` prove that the engine stays within it. One
consequence is that the Update action always has a cookie when it runs.

## Model

| member | source | states |
|---|---|---|
| `Restarter.IndexOf` | Restarter.h:115-116 | the result is -1 exactly when the character is absent; otherwise it is a position holding the character with no earlier occurrence |
| `Restarter.Find` | Restarter.h:82-83 | -1 exactly when the needle does not occur in the body; otherwise the first position where it occurs |
| `Restarter.ProcessSetCookieHeader` | Restarter.h:107-135 | a NULL header gives NULL; a header without '=' gives the empty value (not NULL); the value never contains ';' |
| `Restarter.CookieSplit` | Restarter.h:115-124 | header == name + "=" + value + attributes, where the name has no '=', no ';' comes before the attributes, and the attributes are empty or start with ';'; with no ';' the value is everything after the first '=', otherwise the text strictly between the first '=' and the first ';' |
| `Restarter.CookieRoundTrip` | Restarter.h:115-124 | parsing name + "=" + value + attributes (name without '=' or ';', value without ';', attributes empty or starting with ';') gives back exactly the value |
| `Restarter.ProcessIndexPage` | Restarter.h:26-41 | a cookie comes back exactly when the status is 200 and a Set-Cookie header is present; any other status gives NULL |
| `Restarter.ProcessInitPage` | Restarter.h:46-63 | succeeds iff there is a cookie and the status is 200 |
| `Restarter.ProcessLoginPage` | Restarter.h:65-84 | succeeds iff there is a cookie, the status is 200 and the body contains "Success" |
| `Restarter.ProcessSettingsUpdate` | Restarter.h:86-102 | succeeds iff the status is 200 and the body contains "OK" |
| `Restarter.NoCookieNoRequest` | Restarter.h:46-68 | with a NULL cookie, init and login fail whatever reply the router would have given |
| `Controller.Elapsed` | RestartStateMachine.h:149 | unsigned subtraction: equals now - since without wrap, and now - since + 2^32 when the clock has wrapped |
| `Controller.AfterFailure` | RestartStateMachine.h:162-185 | afterwards successful and all four step flags are false and lastSleep == now; lastRestart and the cookie are kept |
| `Controller.RestartStateMachine.constructor` | RestartStateMachine.h:85-94 | all flags false, coefficient 1.5; wait, timestamps and cookie zero as in the static global of line 230 |
| `Controller.RestartStateMachine.SetFrkrouter` | RestartStateMachine.h:108-110 | stores the cookie and changes nothing else |
| `Controller.RestartStateMachine.SetIndexLoaded` | RestartStateMachine.h:132-134 | sets indexLoaded and changes nothing else |
| `Controller.RestartStateMachine.SetInitialized` | RestartStateMachine.h:136-138 | sets initialized and changes nothing else |
| `Controller.RestartStateMachine.SetLoggedIn` | RestartStateMachine.h:140-142 | sets loggedIn and changes nothing else |
| `Controller.RestartStateMachine.SetUpdated` | RestartStateMachine.h:144-146 | sets updated and changes nothing else |
| `Controller.RestartStateMachine.CanTryAgain` | RestartStateMachine.h:148-160 | changes no state; without clock wrap, true iff now - lastSleep >= waitTime |
| `Controller.RestartStateMachine.Failed` | RestartStateMachine.h:162-185 | the new fields are AfterFailure of the old ones; keeps 0 <= waitTime < MAX_WAIT_TIME |
| `Controller.RestartStateMachine.Complete` | RestartStateMachine.h:187-190 | the new fields are AfterSuccess of the old ones: success and lastRestart = now |
| `Controller.RestartStateMachine.Restart` | RestartStateMachine.h:192-208 | the new fields are AfterRestart of the old ones; keeps the wait bounds |
| `Controller.FailureUsesBackoff` | RestartStateMachine.h:167-182 | for every controller state, even one with updated set just after a success, the new wait is the plain backoff of the old one: the reconnect-delay branch is dead |
| `Controller.ReconnectFloorNeverApplies` | RestartStateMachine.h:170-174 | a failure at the instant of a completed update waits 5000 ms, not 300000 - elapsed |
| `Controller.FailureWaitBounded` | RestartStateMachine.h:175-181 | from a non-negative wait, the new wait is strictly between 0 and MAX_WAIT_TIME |
| `Controller.FailureWraps` | RestartStateMachine.h:177-181 | when the grown wait reaches MAX_WAIT_TIME it restarts at 5000 |
| `Controller.ThreeFailures` | RestartStateMachine.h:175-178 | from a zero wait, three failures give 5000, 7500, 11250 |
| `Controller.BackoffCycle` | RestartStateMachine.h:175-181 | after n + 1 failures from zero the wait is 5000 * 1.5^(n mod 25): it grows 24 times and then wraps |
| `Controller.SuccessKeepsSteps` | RestartStateMachine.h:187-190 | complete() sets success and lastRestart = now and keeps the step flags, the wait and lastSleep |
| `Controller.RestartNeedsUpdate` | RestartStateMachine.h:192-193 | restart() is a no-op unless updated is set |
| `Controller.RestartClears` | RestartStateMachine.h:193-206 | after an update, restart() clears success and the four flags and sets lastSleep to its second clock reading |
| `Controller.RestartHoldsOff` | RestartStateMachine.h:202-206 | after restart(), canTryAgain() cannot hold before lastRestart + RECONNECT_DELAY (non-negative wait, no clock wrap) |
| `Controller.RestartReleasesOnTime` | RestartStateMachine.h:202-206 | a restart within the reconnect delay allows a new attempt exactly from lastRestart + RECONNECT_DELAY |
| `Workflow.RulePriority` | RestartStateMachine.h:66-80 | each working state tries its happy-path rule before the failure fallback, which comes last; Sleep tries staySleeping before tryAgain |
| `Workflow.RunAction` | RestartStateMachine.h:238-294 | the new controller state is the state action's effect, and there is none off the entry tick |
| `Workflow.EvalGuard` | RestartStateMachine.h:300-345 | the answer and the effect of each guard: the step flags, complete() on an update, failed() on the fallback, success for staySleeping, canTryAgain() for tryAgain |
| `Workflow.EvalTransitions` | RestartStateMachine.h:66-80 | ordered first-match over a state's rules, each guard seeing the effects of the earlier ones |
| `Workflow.Tick` | RestartStateMachine.h:238-345 | one scheduling step: the action, then the first rule whose guard holds |
| `Workflow.Engine.constructor` | RestartStateMachine.h:51-64 | the five states registered with no rules; start in Index on an entry tick |
| `Workflow.Engine.AddTransition` | RestartStateMachine.h:67-80 | appends one rule to the source state's list |
| `Workflow.Engine.SetupStateMachine` | RestartStateMachine.h:59-81 | the registered table is exactly `Rules`, in registration order |
| `Workflow.Engine.Run` | RestartStateMachine.h:239 | one tick on the engine's registered rules for the current state; executeOnce becomes true exactly when the state changed; the reachability invariant is kept |
| `Workflow.StartReachable` | RestartStateMachine.h:85-94 | the controller's starting state, with the engine in Index on its entry tick, is a reachable configuration |
| `Workflow.Boot` | RestartStateMachine.h:51-81 | creating the two globals and running setupStateMachine gives an engine whose invariant holds, in Index on its entry tick, with the controller in its starting state |
| `Workflow.WorkStateTick` | RestartStateMachine.h:67-76 | a working state always leaves on its tick: to its successor when its step is done (Update also completes), otherwise to Sleep through failed() |
| `Workflow.StaysAsleepWhileSuccessful` | RestartStateMachine.h:79-80 | while successful, Sleep stays Sleep at any time and nothing changes |
| `Workflow.SleepRetries` | RestartStateMachine.h:341-345 | when not successful, Sleep goes to Index exactly when canTryAgain() holds, and nothing changes |
| `Workflow.FailureSleeps` | RestartStateMachine.h:330-334 | a failed step from any working state ends in Sleep with success and all step flags false and lastSleep == now |
| `Workflow.FailureNeverSeesUpdate` | RestartStateMachine.h:67-76 | from any reachable working state, a tick whose step is not recorded (the only case that reaches transitionToSleep and failed()) has updated false |
| `Workflow.ReentryIgnoresReply` | RestartStateMachine.h:238-287 | off the entry tick the action is skipped: the reply makes no difference and no flag changes |
| `Workflow.HappyPath` | RestartStateMachine.h:238-326 | four successful replies from Index go Init, Login, Update, Sleep and end with all flags and success set, lastRestart at the fourth tick |
| `Workflow.TickPreservesReachable` | RestartStateMachine.h:238-345 | every tick maps a reachable configuration to a reachable one; in particular Update's action always has a cookie |
| `Workflow.RestartPreservesReachable` | RestartStateMachine.h:192-208 | an external restart() between ticks keeps the configuration reachable |

## Left out

- HTTP transport: the `HttpClient` calls are foreign library I/O. Only their status code, body and Set-Cookie header appear, as a `Reply`.
- `extractHeaders` (Restarter.h:140-147) and the `Hashtable` it fills are not modelled. The Set-Cookie header is a field of the `Reply`, or `None` when absent.
- `setClient` and `getClient`: the client pointer is transport and is not modelled.
- The getters `isSuccessful`, `wasIndexLoaded`, `wasInitialized`, `wasLoggedIn`, `wasUpdated` and `getFrkrouter` only return a field. The model reads the field directly.
- `Serial` logging and the `P`/`PL` macros have no effect on state and are omitted.
- StateMachine.h is not part of this model. Ordered first-match evaluation, the `executeOnce` rule and the start in the first state are assumptions, as stated above.
- `millis()` wrap: the subtraction wraps modulo 2^32 as in the source, but time is not modelled as advancing. The timing lemmas assume no wrap between the readings they relate.
- Floating point: `waitTime` and the coefficient are `double`. The model uses exact `real`. Every wait reachable through `failed()` from zero is 5000 * 1.5^k with k <= 24, which is exact in binary64. A wait set by `restart()` can be any integer from 1 to 300000; growing a small one toward the ceiling takes up to about 45 multiplications by 1.5, and beyond roughly 34 of them the binary64 products are rounded, which the `real` model does not reproduce.
- The `new String` allocations and pointer aliasing of the cookie are out of scope. The cookie is a value.
- The hard-coded password and settings payload (Restarter.h:71, 89) do not affect any outcome.
- Restarter.ProcessSetCookieHeader: requires that the first '=' come before the first ';' when the header has both (`SemiAfterEq`). In the other order, the result depends on how Arduino `String::substring` treats swapped bounds, which is not part of this model. `ProcessIndexPage` requires it only of a 200 reply, and `ActionSpec`, `RunAction`, `Tick` and `Engine.Run` only of a 200 reply on Index's entry tick (`Parsable`), the one case where the header is parsed.
- Restarter.IndexOf: a model string is a sequence of characters with no terminator. Arduino `String::indexOf(char)` searches the NUL-terminated buffer with `strchr`, so it returns -1 when a `'\0'` byte comes before the character, and it counts positions in bytes, not characters. The model finds the character past an embedded NUL. HTTP does not allow NUL in a header field, so a well-formed Set-Cookie header has none.
- Restarter.Find: for the same reason, Arduino `String::indexOf(const String&)` searches with `strstr` and stops at the first NUL byte of the body, and it counts bytes. The model searches the whole sequence, so a body like `"\0Success"` counts as a successful login in the model but not in the source.
- Restarter.ProcessSettingsUpdate: requires a cookie, because the source dereferences it without a NULL check (Restarter.h:88). `TickPreservesReachable` shows that the workflow always has one at that point.
