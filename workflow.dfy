/**
 * The five-state workflow of RestartStateMachine.h: the transition table that
 * `setupStateMachine` registers, the state actions gated by the entry-once
 * flag, the guard functions, and one scheduling tick of the state machine
 * engine. The engine (StateMachine.h) is not part of this model; the tick
 * assumes what the wiring relies on: the current state's action runs, then
 * its rules are tried in registration order and the first guard that returns
 * true selects the next state (none: stay); the entry-once flag is true
 * exactly on the first tick after a change of state.
 */
module Workflow {
  import opened Restarter
  import opened Controller

  datatype Phase = Index | Init | Login | Update | Sleep

  /** The guard functions `transition*`, `staySleeping` and `tryAgain`. */
  datatype Guard = IndexToInit | InitToLogin | LoginToUpdate | UpdateToSleep | ToSleep | StaySleeping | TryAgain

  datatype Rule = Rule(guard: Guard, target: Phase)

  /** The rules of each state in the order `setupStateMachine` adds them. */
  function Rules(p: Phase): (rules: seq<Rule>) {
    match p
    case Index => [Rule(IndexToInit, Init), Rule(ToSleep, Sleep)]
    case Init => [Rule(InitToLogin, Login), Rule(ToSleep, Sleep)]
    case Login => [Rule(LoginToUpdate, Update), Rule(ToSleep, Sleep)]
    case Update => [Rule(UpdateToSleep, Sleep), Rule(ToSleep, Sleep)]
    case Sleep => [Rule(StaySleeping, Sleep), Rule(TryAgain, Index)]
  }

  /** State `p` of table `t` holds the rules `rules`. */
  predicate Holds(t: map<Phase, seq<Rule>>, p: Phase, rules: seq<Rule>) {
    p in t && t[p] == rules
  }

  /** `t` is the table `setupStateMachine` registers. */
  predicate IsTable(t: map<Phase, seq<Rule>>) {
    Holds(t, Index, Rules(Index)) && Holds(t, Init, Rules(Init)) && Holds(t, Login, Rules(Login))
    && Holds(t, Update, Rules(Update)) && Holds(t, Sleep, Rules(Sleep))
  }

  /** Every state of `t` is registered and has no rules yet. */
  predicate IsEmptyTable(t: map<Phase, seq<Rule>>) {
    Holds(t, Index, []) && Holds(t, Init, []) && Holds(t, Login, [])
    && Holds(t, Update, []) && Holds(t, Sleep, [])
  }

  /** The happy-path successor of each working state. */
  function Successor(p: Phase): (q: Phase)
    requires p != Sleep
  {
    match p
    case Index => Init
    case Init => Login
    case Login => Update
    case Update => Sleep
  }

  /**
   * Every working state tries its happy-path rule first and falls back to
   * the failure rule last; Sleep tries `staySleeping` before `tryAgain`.
   */
  lemma RulePriority(p: Phase)
    ensures |Rules(p)| == 2
    ensures p != Sleep ==> Rules(p)[0].target == Successor(p) && Rules(p)[0].guard != ToSleep
                           && Rules(p)[1] == Rule(ToSleep, Sleep)
    ensures p == Sleep ==> Rules(p) == [Rule(StaySleeping, Sleep), Rule(TryAgain, Index)]
  {
  }

  // ---------------------------------------------------------------------------
  // Specification of one tick

  /** The Set-Cookie header is parsed only on Index's entry tick, and only after a 200. */
  predicate Parsable(p: Phase, executeOnce: bool, reply: Reply) {
    p == Index && executeOnce && reply.status == 200 ==> HeaderOrdered(reply.setCookie)
  }

  /** The state action of `p`: it does its remote step only on the entry tick. */
  function ActionSpec(p: Phase, executeOnce: bool, s: Snapshot, reply: Reply): (t: Snapshot)
    requires Parsable(p, executeOnce, reply)
    requires p == Update && executeOnce ==> s.frkrouter.Some?
  {
    if !executeOnce then s
    else
      match p
      case Index =>
        var cookie := ProcessIndexPage(reply);
        if cookie.Some? then s.(frkrouter := cookie, indexLoaded := true) else s.(frkrouter := cookie)
      case Init => if ProcessInitPage(reply, s.frkrouter) then s.(initialized := true) else s
      case Login => if ProcessLoginPage(reply, s.frkrouter) then s.(loggedIn := true) else s
      case Update => if ProcessSettingsUpdate(reply, s.frkrouter) then s.(updated := true) else s
      case Sleep => s
  }

  /** A guard's answer and the controller it leaves behind (two guards have side effects). */
  function GuardSpec(g: Guard, s: Snapshot, now: Millis): (outcome: (bool, Snapshot)) {
    match g
    case IndexToInit => (s.indexLoaded, s)
    case InitToLogin => (s.initialized, s)
    case LoginToUpdate => (s.loggedIn, s)
    case UpdateToSleep => if s.updated then (true, AfterSuccess(s, now)) else (false, s)
    case ToSleep => (true, AfterFailure(s, now))
    case StaySleeping => (s.successful, s)
    case TryAgain => (CanTryAgainAt(s, now), s)
  }

  /** Ordered first-match evaluation; a guard sees the effects of the guards tried before it. */
  function FirstMatch(rules: seq<Rule>, s: Snapshot, now: Millis, current: Phase): (outcome: (Phase, Snapshot)) {
    if rules == [] then (current, s)
    else
      var (fire, s') := GuardSpec(rules[0].guard, s, now);
      if fire then (rules[0].target, s') else FirstMatch(rules[1..], s', now, current)
  }

  /** First-match evaluation over a two-rule list, unfolded. */
  lemma FirstMatchOfTwo(r0: Rule, r1: Rule, s: Snapshot, now: Millis, current: Phase)
    ensures FirstMatch([r0, r1], s, now, current) ==
      var (f0, s0) := GuardSpec(r0.guard, s, now);
      if f0 then (r0.target, s0)
      else
        var (f1, s1) := GuardSpec(r1.guard, s0, now);
        if f1 then (r1.target, s1) else (current, s1)
  {
    assert [r0, r1][1..] == [r1];
    assert [r1][1..] == [];
    var g0 := GuardSpec(r0.guard, s, now);
    var g1 := GuardSpec(r1.guard, g0.1, now);
    assert FirstMatch([r1], g0.1, now, current) == if g1.0 then (r1.target, g1.1) else FirstMatch([], g1.1, now, current);
  }

  /** One tick from state `p`: the action, then the transitions. */
  function TickSpec(p: Phase, executeOnce: bool, s: Snapshot, reply: Reply, now: Millis): (outcome: (Phase, Snapshot))
    requires Parsable(p, executeOnce, reply)
    requires p == Update && executeOnce ==> s.frkrouter.Some?
  {
    FirstMatch(Rules(p), ActionSpec(p, executeOnce, s, reply), now, p)
  }

  // ---------------------------------------------------------------------------
  // The actions, the guards and the tick, over the controller object

  /** `indexStateFunc`, `initStateFunc`, `loginStateFunc`, `updateStateFunc`, `sleepStateFunc`. */
  method RunAction(m: RestartStateMachine, p: Phase, executeOnce: bool, reply: Reply)
    requires m.Valid()
    requires Parsable(p, executeOnce, reply)
    requires p == Update && executeOnce ==> m.frkrouter.Some?
    modifies m
    ensures m.Valid()
    ensures m.Value() == ActionSpec(p, executeOnce, old(m.Value()), reply)
  {
    if executeOnce {
      match p
      case Index =>
        var cookie := ProcessIndexPage(reply);
        m.SetFrkrouter(cookie);
        if cookie.Some? {
          m.SetIndexLoaded();
        }
      case Init =>
        if ProcessInitPage(reply, m.frkrouter) {
          m.SetInitialized();
        }
      case Login =>
        if ProcessLoginPage(reply, m.frkrouter) {
          m.SetLoggedIn();
        }
      case Update =>
        if ProcessSettingsUpdate(reply, m.frkrouter) {
          m.SetUpdated();
        }
      case Sleep =>
    }
  }

  /** The guard functions, `transitionIndexToInit` through `tryAgain`. */
  method EvalGuard(m: RestartStateMachine, g: Guard, now: Millis) returns (fire: bool)
    requires m.Valid()
    modifies m
    ensures m.Valid()
    ensures (fire, m.Value()) == GuardSpec(g, old(m.Value()), now)
  {
    match g
    case IndexToInit => fire := m.indexLoaded;
    case InitToLogin => fire := m.initialized;
    case LoginToUpdate => fire := m.loggedIn;
    case UpdateToSleep =>
      if m.updated {
        m.Complete(now);
        fire := true;
      } else {
        fire := false;
      }
    case ToSleep =>
      m.Failed(now);
      fire := true;
    case StaySleeping => fire := m.successful;
    case TryAgain => fire := m.CanTryAgain(now);
  }

  /** The engine's transition step over one state's rules. */
  method EvalTransitions(m: RestartStateMachine, rules: seq<Rule>, current: Phase, now: Millis) returns (next: Phase)
    requires m.Valid()
    modifies m
    ensures m.Valid()
    ensures (next, m.Value()) == FirstMatch(rules, old(m.Value()), now, current)
  {
    var i := 0;
    while i < |rules|
      invariant 0 <= i <= |rules|
      invariant m.Valid()
      invariant FirstMatch(rules[i..], m.Value(), now, current) == FirstMatch(rules, old(m.Value()), now, current)
    {
      assert rules[i..][1..] == rules[i + 1..];
      var fire := EvalGuard(m, rules[i].guard, now);
      if fire {
        return rules[i].target;
      }
      i := i + 1;
    }
    next := current;
  }

  /** One tick from `phase`: run its action, then take the first rule whose guard holds. */
  method Tick(m: RestartStateMachine, phase: Phase, executeOnce: bool, reply: Reply, now: Millis) returns (next: Phase)
    requires m.Valid()
    requires Parsable(phase, executeOnce, reply)
    requires phase == Update && executeOnce ==> m.frkrouter.Some?
    modifies m
    ensures m.Valid()
    ensures (next, m.Value()) == TickSpec(phase, executeOnce, old(m.Value()), reply, now)
  {
    RunAction(m, phase, executeOnce, reply);
    next := EvalTransitions(m, Rules(phase), phase, now);
  }

  // ---------------------------------------------------------------------------
  // The global `fsm`: the registered table, the current state and the entry-once flag

  /**
   * The configurations the workflow can be in between ticks: each working
   * state holds exactly the flags of the steps before it (and the cookie once
   * the index page has given one); Sleep holds either a completed cycle or
   * none of it.
   */
  predicate Reachable(p: Phase, executeOnce: bool, s: Snapshot) {
    match p
    case Index => executeOnce && !s.successful && NoSteps(s)
    case Init =>
      executeOnce && !s.successful && s.frkrouter.Some?
      && s.indexLoaded && !s.initialized && !s.loggedIn && !s.updated
    case Login =>
      executeOnce && !s.successful && s.frkrouter.Some?
      && s.indexLoaded && s.initialized && !s.loggedIn && !s.updated
    case Update =>
      executeOnce && !s.successful && s.frkrouter.Some?
      && s.indexLoaded && s.initialized && s.loggedIn && !s.updated
    case Sleep =>
      (s.successful && AllSteps(s) && s.frkrouter.Some?) || (!s.successful && NoSteps(s))
  }

  class Engine {
    /** The controller the guards and actions work on (the global `stateMachine`). */
    const machine: RestartStateMachine
    var transitions: map<Phase, seq<Rule>>
    var current: Phase
    var executeOnce: bool

    ghost predicate Wired()
      reads this
    {
      IsTable(transitions)
    }

    ghost predicate Valid()
      reads this, machine
    {
      Wired() && machine.Valid() && Reachable(current, executeOnce, machine.Value())
    }

    /**
     * The five `addState` calls: every state registered with no rules yet.
     * The engine starts in the first state added, Index, on its entry tick.
     */
    constructor (m: RestartStateMachine)
      ensures machine == m && current == Index && executeOnce
      ensures IsEmptyTable(transitions)
    {
      machine := m;
      transitions := map[Index := [], Init := [], Login := [], Update := [], Sleep := []];
      current := Index;
      executeOnce := true;
    }

    /** `State::addTransition`: append a rule to a state's list. */
    method AddTransition(from: Phase, guard: Guard, to: Phase)
      requires from in transitions
      modifies this
      ensures transitions == old(transitions)[from := old(transitions)[from] + [Rule(guard, to)]]
      ensures current == old(current) && executeOnce == old(executeOnce)
    {
      transitions := transitions[from := transitions[from] + [Rule(guard, to)]];
    }

    /** `setupStateMachine`: the happy-path rules, then the failure fallbacks, then Sleep's two rules. */
    method SetupStateMachine()
      requires IsEmptyTable(transitions)
      modifies this
      ensures Wired()
      ensures current == old(current) && executeOnce == old(executeOnce)
    {
      AddTransition(Index, IndexToInit, Init);
      AddTransition(Init, InitToLogin, Login);
      AddTransition(Login, LoginToUpdate, Update);
      AddTransition(Update, UpdateToSleep, Sleep);

      AddTransition(Index, ToSleep, Sleep);
      AddTransition(Init, ToSleep, Sleep);
      AddTransition(Login, ToSleep, Sleep);
      AddTransition(Update, ToSleep, Sleep);

      AddTransition(Sleep, StaySleeping, Sleep);
      AddTransition(Sleep, TryAgain, Index);
    }

    /** One scheduling tick of the engine, on the rules it has registered for the current state. */
    method Run(reply: Reply, now: Millis)
      requires Valid() && Parsable(current, executeOnce, reply)
      modifies this, machine
      ensures Valid()
      ensures (current, machine.Value()) == TickSpec(old(current), old(executeOnce), old(machine.Value()), reply, now)
      ensures executeOnce == (current != old(current))
      ensures transitions == old(transitions)
    {
      ghost var before := machine.Value();
      TickPreservesReachable(current, executeOnce, before, reply, now);
      RunAction(machine, current, executeOnce, reply);
      assert Holds(transitions, current, Rules(current));
      var next := EvalTransitions(machine, transitions[current], current, now);
      executeOnce := next != current;
      current := next;
    }
  }

  /** The controller's starting state is a reachable configuration of the engine's start, Index on its entry tick. */
  lemma StartReachable()
    ensures Reachable(Index, true, INITIAL)
  {
  }

  /**
   * Program start: the global `stateMachine` (line 230) and `fsm` (line 51),
   * then `setupStateMachine`. The engine is then ready to tick.
   */
  method Boot() returns (e: Engine)
    ensures fresh(e) && fresh(e.machine)
    ensures e.Valid() && e.current == Index && e.executeOnce && e.machine.Value() == INITIAL
  {
    var m := new RestartStateMachine();
    e := new Engine(m);
    e.SetupStateMachine();
    StartReachable();
  }

  // ---------------------------------------------------------------------------
  // Properties of a tick

  /** The flag that records the step of a working state. */
  function StepDone(p: Phase, s: Snapshot): (done: bool)
    requires p != Sleep
  {
    match p
    case Index => s.indexLoaded
    case Init => s.initialized
    case Login => s.loggedIn
    case Update => s.updated
  }

  /**
   * A working state is left on every tick: to its successor when its step is
   * recorded as done (Update also marks success at `now`), otherwise to Sleep
   * through `failed()`. The fallback never overrides a success.
   */
  lemma WorkStateTick(p: Phase, executeOnce: bool, s: Snapshot, reply: Reply, now: Millis)
    requires p != Sleep && Parsable(p, executeOnce, reply)
    requires p == Update && executeOnce ==> s.frkrouter.Some?
    ensures var a := ActionSpec(p, executeOnce, s, reply);
      TickSpec(p, executeOnce, s, reply, now) ==
        if StepDone(p, a) then (Successor(p), if p == Update then AfterSuccess(a, now) else a)
        else (Sleep, AfterFailure(a, now))
    ensures TickSpec(p, executeOnce, s, reply, now).0 != p
  {
    var a := ActionSpec(p, executeOnce, s, reply);
    FirstMatchOfTwo(Rules(p)[0], Rules(p)[1], a, now, p);
  }

  /** While `successful` holds the machine never leaves Sleep, whatever the clock says, and changes nothing. */
  lemma StaysAsleepWhileSuccessful(executeOnce: bool, s: Snapshot, reply: Reply, now: Millis)
    requires s.successful
    ensures TickSpec(Sleep, executeOnce, s, reply, now) == (Sleep, s)
  {
  }

  /** Unsuccessful, Sleep goes back to Index exactly when `canTryAgain()` holds, and changes nothing. */
  lemma SleepRetries(executeOnce: bool, s: Snapshot, reply: Reply, now: Millis)
    requires !s.successful
    ensures TickSpec(Sleep, executeOnce, s, reply, now) == (if CanTryAgainAt(s, now) then Index else Sleep, s)
  {
    FirstMatchOfTwo(Rule(StaySleeping, Sleep), Rule(TryAgain, Index), s, now, Sleep);
  }

  /** A failed step from any working state ends in Sleep with no success and no step recorded. */
  lemma FailureSleeps(p: Phase, s: Snapshot, reply: Reply, now: Millis)
    requires p != Sleep && Parsable(p, true, reply)
    requires p == Update ==> s.frkrouter.Some?
    requires !StepDone(p, ActionSpec(p, true, s, reply))
    ensures var (next, t) := TickSpec(p, true, s, reply, now);
      next == Sleep && !t.successful && NoSteps(t) && t.lastSleep == now
  {
    WorkStateTick(p, true, s, reply, now);
  }

  /**
   * The fallback `transitionToSleep`, and with it `failed()`, is only reached
   * while `updated` is false: in Update a recorded step fires
   * `transitionUpdateToSleep` first, and no other working state holds it.
   */
  lemma FailureNeverSeesUpdate(p: Phase, executeOnce: bool, s: Snapshot, reply: Reply)
    requires p != Sleep && Reachable(p, executeOnce, s) && Parsable(p, executeOnce, reply)
    ensures var a := ActionSpec(p, executeOnce, s, reply);
      !StepDone(p, a) ==> !a.updated
  {
  }

  /** On a re-entry tick the action does nothing: the reply is not consulted and no step flag changes. */
  lemma ReentryIgnoresReply(p: Phase, s: Snapshot, r1: Reply, r2: Reply, now: Millis)
    ensures TickSpec(p, false, s, r1, now) == TickSpec(p, false, s, r2, now)
    ensures ActionSpec(p, false, s, r1) == s
  {
  }

  /**
   * Four successful replies from Index (a 200 with a Set-Cookie header; a
   * 200; a 200 whose body contains "Success"; a 200 whose body contains "OK")
   * pass through Init, Login and Update on consecutive entry ticks and reach
   * Sleep with every flag set and success recorded at the fourth tick; the
   * wait and the last sleep are untouched.
   */
  lemma HappyPath(s: Snapshot, r1: Reply, r2: Reply, r3: Reply, r4: Reply,
                  t1: Millis, t2: Millis, t3: Millis, t4: Millis)
    requires r1.status == 200 && r1.setCookie.Some? && HeaderOrdered(r1.setCookie)
    requires r2.status == 200
    requires r3.status == 200 && Contains(r3.body, "Success")
    requires r4.status == 200 && Contains(r4.body, "OK")
    ensures var s1 := s.(frkrouter := ProcessIndexPage(r1), indexLoaded := true);
      var s2 := s1.(initialized := true);
      var s3 := s2.(loggedIn := true);
      var s4 := s3.(updated := true, successful := true, lastRestart := t4);
      && s1.frkrouter.Some?
      && TickSpec(Index, true, s, r1, t1) == (Init, s1)
      && TickSpec(Init, true, s1, r2, t2) == (Login, s2)
      && TickSpec(Login, true, s2, r3, t3) == (Update, s3)
      && TickSpec(Update, true, s3, r4, t4) == (Sleep, s4)
      && AllSteps(s4) && s4.waitTime == s.waitTime && s4.lastSleep == s.lastSleep
  {
    var s1 := s.(frkrouter := ProcessIndexPage(r1), indexLoaded := true);
    var s2 := s1.(initialized := true);
    var s3 := s2.(loggedIn := true);
    WorkStateTick(Index, true, s, r1, t1);
    WorkStateTick(Init, true, s1, r2, t2);
    WorkStateTick(Login, true, s2, r3, t3);
    WorkStateTick(Update, true, s3, r4, t4);
  }

  /** A tick keeps the workflow among its reachable configurations. */
  lemma TickPreservesReachable(p: Phase, executeOnce: bool, s: Snapshot, reply: Reply, now: Millis)
    requires Reachable(p, executeOnce, s) && Parsable(p, executeOnce, reply)
    ensures p == Update && executeOnce ==> s.frkrouter.Some?
    ensures var (next, t) := TickSpec(p, executeOnce, s, reply, now);
      Reachable(next, next != p, t)
  {
    if p == Sleep {
      if s.successful {
        StaysAsleepWhileSuccessful(executeOnce, s, reply, now);
      } else {
        SleepRetries(executeOnce, s, reply, now);
      }
    } else {
      WorkStateTick(p, executeOnce, s, reply, now);
    }
  }

  /** An external `restart()` between ticks keeps the workflow reachable as well. */
  lemma RestartPreservesReachable(p: Phase, executeOnce: bool, s: Snapshot, now: Millis, later: Millis)
    requires Reachable(p, executeOnce, s)
    ensures Reachable(p, executeOnce, AfterRestart(s, now, later))
  {
  }
}
