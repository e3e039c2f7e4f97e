/** One instance of the offer-review machine as the state-machine runtime drives
    it: lifecycle, current state, extended state, and the listener's view of
    every state change. */
module Engine {
  import opened Wrappers
  import opened ExtendedState
  import opened OfferReview

  /** `autoStartup(false)`: a machine is created but not started. */
  datatype Lifecycle = Created | Running | Stopped

  /** One `stateChanged(from, to)` callback; `from` is absent for the start. */
  datatype Notification = Notification(from: Option<OfferState>, to: OfferState)

  /** `trace` is every listener notification in order; `errors` every report of the error action. */
  datatype Machine = Machine(
    lifecycle: Lifecycle,
    state: OfferState,
    vars: Variables,
    trace: seq<Notification>,
    errors: seq<ErrorReport>)

  /** Misuse of the lifecycle: a second start, or a call before start or after stop. */
  datatype LifecycleError = AlreadyStarted | NotStarted | AlreadyStopped

  /** Why an event was not processed: the machine was not running, no transition
      is declared for the pair, or the guard denied. */
  datatype Rejection = Inactive(error: LifecycleError) | NoMatchingTransition | GuardDenied

  datatype Outcome = Accepted(target: OfferState) | Rejected(reason: Rejection)

  datatype Step = Step(machine: Machine, outcome: Outcome)

  /** A machine fresh from the factory: bound to the initial state, empty extended
      state, nothing observed yet. */
  function Create(): (m: Machine)
    ensures m.lifecycle == Created && m.state == InitialState
    ensures m.vars == map[] && m.trace == [] && m.errors == []
  {
    Machine(Created, InitialState, map[], [], [])
  }

  /** `start()`: only a created machine starts; it enters the initial state and
      the listener sees (none -> initial). */
  function Start(m: Machine): (r: Result<Machine, LifecycleError>)
    ensures r.Ok? <==> m.lifecycle == Created
    ensures r.Ok? ==> r.value.lifecycle == Running && r.value.state == InitialState
                      && r.value.vars == m.vars && r.value.errors == m.errors
                      && r.value.trace == m.trace + [Notification(None, InitialState)]
    ensures r.Err? ==> r.error == AlreadyStarted
  {
    if m.lifecycle == Created then
      Ok(m.(lifecycle := Running, state := InitialState, trace := m.trace + [Notification(None, InitialState)]))
    else
      Err(AlreadyStarted)
  }

  /** `stop()`: stops a running machine and is a no-op on a stopped one. */
  function Stop(m: Machine): (r: Result<Machine, LifecycleError>)
    ensures r.Ok? <==> m.lifecycle != Created
    ensures r.Ok? ==> r.value == m.(lifecycle := Stopped)
    ensures r.Err? ==> r.error == NotStarted
  {
    match m.lifecycle
    case Created => Err(NotStarted)
    case Running => Ok(m.(lifecycle := Stopped))
    case Stopped => Ok(m)
  }

  /** The machine after an accepted step into `target`: the state is committed,
      the target's entry action has run, and the listener has seen the change.
      The lifecycle and the error reports stay as they were, since the exit
      action runs without an exception. */
  function Advance(m: Machine, target: OfferState): Machine {
    m.(state := target,
       vars := if IsIntermediate(target) then Execute(m.vars) else m.vars,
       trace := m.trace + [Notification(Some(m.state), target)])
  }

  /** `sendEvent(e)`: look the pair up, evaluate the guard, commit the target,
      run the source's exit and the target's entry actions, notify the listener. */
  function SendEvent(m: Machine, e: OfferEvent): (r: Step)
    ensures r.outcome.Rejected? ==> r.machine == m
    ensures r.outcome == Rejected(Inactive(NotStarted)) <==> m.lifecycle == Created
    ensures r.outcome == Rejected(Inactive(AlreadyStopped)) <==> m.lifecycle == Stopped
    ensures r.outcome == Rejected(NoMatchingTransition) <==> m.lifecycle == Running && Lookup(m.state, e).None?
    ensures r.outcome == Rejected(GuardDenied) <==>
              m.lifecycle == Running && e == Publish && m.state == OfferVideoAnalysed
              && !(PassedStepCount in m.vars && m.vars[PassedStepCount] > 0)
    ensures r.outcome.Accepted? <==>
              && m.lifecycle == Running
              && Lookup(m.state, e).Some?
              && EvaluateGuard(Lookup(m.state, e).value.guard, m.vars)
    ensures r.outcome.Accepted? ==>
              && r.outcome.target == Lookup(m.state, e).value.target
              && r.machine == Advance(m, r.outcome.target)
  {
    match m.lifecycle
    case Created => Step(m, Rejected(Inactive(NotStarted)))
    case Stopped => Step(m, Rejected(Inactive(AlreadyStopped)))
    case Running =>
      DeclaredTransitions(m.state, e);
      match Lookup(m.state, e)
      case None => Step(m, Rejected(NoMatchingTransition))
      case Some(t) =>
        if !EvaluateGuard(t.guard, m.vars) then Step(m, Rejected(GuardDenied))
        else
          var ctx := ActionContext(m.state, t.target, false);
          var exited := RunActions(ExitActions(m.state), ctx, m.vars);
          var entered := RunActions(EntryActions(t.target), ctx, exited.vars);
          ExitLeavesVariables(m.state, ctx, m.vars);
          EntryIncrementsOnlyIntermediate(t.target, ctx, exited.vars);
          var next := m.(state := t.target,
                         vars := entered.vars,
                         trace := m.trace + [Notification(Some(m.state), t.target)],
                         errors := m.errors + exited.reports + entered.reports);
          Step(next, Accepted(t.target))
  }

  datatype RunResult = RunResult(machine: Machine, outcomes: seq<Outcome>)

  /** Sends `events` one after another, collecting one outcome per event. */
  function Run(m: Machine, events: seq<OfferEvent>): (r: RunResult)
    ensures |r.outcomes| == |events|
    ensures r.machine.lifecycle == m.lifecycle
    decreases |events|
  {
    if |events| == 0 then RunResult(m, [])
    else
      var step := SendEvent(m, events[0]);
      var rest := Run(step.machine, events[1..]);
      RunResult(rest.machine, [step.outcome] + rest.outcomes)
  }
}
