// The scheduler around the indexers: a guard against overlapping runs and one retry timer. Callbacks
// run to their next await without interruption, so each method here is one step.
module SingleFlight {

  // A call of `index` by the cron job or at start-up, the firing of a retry timer, and the end of a
  // running `execute`.
  datatype Action = Tick | TimerFires | ExecuteEnds(failed: bool)

  datatype SchedulerState = SchedulerState(
    // the `isRunning` flag and the registry's entry for the retry timeout
    isRunning: bool, registered: bool,
    // executions in progress, timers that have been set and have neither fired nor been cleared
    executing: nat, pending: nat,
    // a timeout was added under a name already taken
    clashed: bool)

  const IDLE := SchedulerState(false, false, 0, 0, false)

  // `index` up to its await.
  function Begin(s: SchedulerState): SchedulerState {
    if s.isRunning then s
    else s.(isRunning := true, executing := s.executing + 1, registered := false,
            // deleting the registered timeout clears its timer
            pending := if s.registered && s.pending > 0 then s.pending - 1 else s.pending)
  }

  function End(s: SchedulerState, failed: bool): SchedulerState
    requires s.executing > 0
  {
    var ended := s.(isRunning := false, executing := s.executing - 1);
    if !failed then ended
    else ended.(pending := s.pending + 1, registered := true, clashed := s.clashed || s.registered)
  }

  predicate Enabled(s: SchedulerState, a: Action) {
    match a
    case Tick => true
    case TimerFires => s.pending > 0
    case ExecuteEnds(_) => s.executing > 0
  }

  function Act(s: SchedulerState, a: Action): SchedulerState
    requires Enabled(s, a)
  {
    match a
    case Tick => Begin(s)
    // a fired timer stays in the registry until `index` deletes it
    case TimerFires => Begin(s.(pending := s.pending - 1))
    case ExecuteEnds(failed) => End(s, failed)
  }

  // Every interleaving: actions that are not enabled do not happen.
  function Interleave(s: SchedulerState, actions: seq<Action>): SchedulerState {
    if actions == [] then s
    else
      var before := Interleave(s, actions[..|actions| - 1]);
      var a := actions[|actions| - 1];
      if Enabled(before, a) then Act(before, a) else before
  }

  ghost predicate Guarded(s: SchedulerState) {
    && s.executing == (if s.isRunning then 1 else 0)
    && s.pending <= 1
    && (s.pending == 1 ==> s.registered)
    && (s.isRunning ==> !s.registered)
    && !s.clashed
  }

  // At most one execution and one pending timer at any time, no timer during an execution, and no
  // clash of timeout names, over every interleaving.
  lemma {:induction false} AlwaysGuarded(actions: seq<Action>)
    ensures Guarded(Interleave(IDLE, actions))
  {
    if actions != [] {
      AlwaysGuarded(actions[..|actions| - 1]);
    }
  }

  lemma {:induction false} ActOnce(s: SchedulerState, actions: seq<Action>, a: Action)
    requires s == Interleave(IDLE, actions)
    ensures Interleave(IDLE, actions + [a]) == if Enabled(s, a) then Act(s, a) else s
  {
    assert (actions + [a])[..|actions|] == actions;
  }

  // What a call of `index` does: nothing during an execution; otherwise an execution begins, and no timer
  // is left pending.
  lemma {:induction false} TickStarts(actions: seq<Action>, a: Action)
    requires a == Tick || (a == TimerFires && Interleave(IDLE, actions).pending > 0)
    ensures var s, next := Interleave(IDLE, actions), Interleave(IDLE, actions + [a]);
            && (s.executing > 0 ==> next == s)
            && (s.executing == 0 ==> next.isRunning && next.executing == 1 && next.pending == 0)
  {
    AlwaysGuarded(actions);
    ActOnce(Interleave(IDLE, actions), actions, a);
  }

  // A failed execution leaves one retry timer and a successful one none, and the next call may begin.
  lemma {:induction false} FailureRetries(actions: seq<Action>, failed: bool)
    requires Interleave(IDLE, actions).executing > 0
    ensures var next := Interleave(IDLE, actions + [ExecuteEnds(failed)]);
            !next.isRunning && next.executing == 0 && next.pending == (if failed then 1 else 0)
  {
    AlwaysGuarded(actions);
    ActOnce(Interleave(IDLE, actions), actions, ExecuteEnds(failed));
  }

  class IndexerOrchestrator {
    var isRunning: bool
    var registered: bool
    var executing: nat
    var pending: nat
    var clashed: bool

    constructor ()
      ensures State() == IDLE
    {
      isRunning, registered, executing, pending, clashed := false, false, 0, 0, false;
    }

    function State(): SchedulerState
      reads this
    {
      SchedulerState(isRunning, registered, executing, pending, clashed)
    }

    // `index` up to the await of `execute`.
    method Index() returns (started: bool)
      modifies this
      ensures State() == Begin(old(State())) && (started <==> !old(isRunning))
    {
      if isRunning {
        return false;
      }
      if registered {
        registered := false;
        if pending > 0 {
          pending := pending - 1;
        }
      }
      isRunning := true;
      executing := executing + 1;
      started := true;
    }

    method TimerCallback() returns (started: bool)
      requires pending > 0
      modifies this
      ensures State() == Act(old(State()), TimerFires)
    {
      pending := pending - 1;
      started := Index();
    }

    // `index` after `execute` has settled: the catch block, then the finally block.
    method ExecuteSettled(failed: bool)
      requires executing > 0
      modifies this
      ensures State() == End(old(State()), failed)
    {
      executing := executing - 1;
      if failed {
        pending := pending + 1;
        clashed := clashed || registered;
        registered := true;
      }
      isRunning := false;
    }
  }
}
