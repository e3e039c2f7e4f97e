/** The offer-review configuration: its states, events, transition table,
    the publish guard and the two actions bound to the intermediate states. */
module OfferReview {
  import opened Wrappers
  import opened JavaInt
  import opened ExtendedState

  datatype OfferState = NewOfferCreated | OfferImageAnalysed | OfferVideoAnalysed | OfferPublished

  datatype OfferEvent = ImageAnalysis | VideoAnalysis | Publish

  /** The one key of the extended state that the guard and the actions use. */
  const PassedStepCount: string := "passedStepCount"

  const InitialState: OfferState := NewOfferCreated

  /** The declared end state. */
  predicate IsEnd(s: OfferState) {
    s == OfferPublished
  }

  /** The two states that carry the counting entry action. */
  predicate IsIntermediate(s: OfferState) {
    s == OfferImageAnalysed || s == OfferVideoAnalysed
  }

  datatype Guard = PublishGuard

  datatype Action = ExecuteAction | ErrorAction

  /** An external transition; `guard` is `None` when the transition is unguarded. */
  datatype Transition = Transition(source: OfferState, event: OfferEvent, target: OfferState, guard: Option<Guard>)

  /** The transitions in declaration order. */
  const Transitions: seq<Transition> := [
    Transition(NewOfferCreated, ImageAnalysis, OfferImageAnalysed, None),
    Transition(OfferImageAnalysed, VideoAnalysis, OfferVideoAnalysed, None),
    Transition(OfferVideoAnalysed, Publish, OfferPublished, Some(PublishGuard))
  ]

  /** A transition of `table` leaving `source` on `event`, if any (the earliest;
      in the declared table it is the only one, see `TableIsFunctional`). */
  function LookupIn(table: seq<Transition>, source: OfferState, event: OfferEvent): (r: Option<Transition>)
    ensures r.Some? ==> r.value in table && r.value.source == source && r.value.event == event
    ensures r.None? ==> forall i :: 0 <= i < |table| ==> !(table[i].source == source && table[i].event == event)
    ensures r.Some? ==> exists i :: 0 <= i < |table| && table[i] == r.value
                          && forall j :: 0 <= j < i ==> !(table[j].source == source && table[j].event == event)
  {
    if |table| == 0 then None
    else if table[0].source == source && table[0].event == event then Some(table[0])
    else LookupIn(table[1..], source, event)
  }

  /** Dispatch on the (source, event) pair, as the runtime's transition map does. */
  function Lookup(source: OfferState, event: OfferEvent): (r: Option<Transition>)
    ensures r.Some? ==> r.value in Transitions && r.value.source == source && r.value.event == event
    ensures r.None? ==> forall t :: t in Transitions ==> !(t.source == source && t.event == event)
  {
    match (source, event)
    case (NewOfferCreated, ImageAnalysis) => Some(Transitions[0])
    case (OfferImageAnalysed, VideoAnalysis) => Some(Transitions[1])
    case (OfferVideoAnalysed, Publish) => Some(Transitions[2])
    case _ => None
  }

  /** The dispatch agrees with a first-match search of the declared transitions. */
  lemma LookupFollowsTable(s: OfferState, e: OfferEvent)
    ensures Lookup(s, e) == LookupIn(Transitions, s, e)
  {
  }

  /** Each (source, event) pair is declared at most once, so the table is a mapping. */
  lemma TableIsFunctional()
    ensures forall i, j ::
              (0 <= i < |Transitions| && 0 <= j < |Transitions|
               && Transitions[i].source == Transitions[j].source
               && Transitions[i].event == Transitions[j].event) ==> i == j
  {
  }

  /** Exactly three pairs have a transition; only the one into the end state is guarded. */
  lemma DeclaredTransitions(s: OfferState, e: OfferEvent)
    ensures Lookup(s, e).Some? <==>
              (s == NewOfferCreated && e == ImageAnalysis)
              || (s == OfferImageAnalysed && e == VideoAnalysis)
              || (s == OfferVideoAnalysed && e == Publish)
    ensures s == NewOfferCreated && e == ImageAnalysis ==> Lookup(s, e) == Some(Transition(s, e, OfferImageAnalysed, None))
    ensures s == OfferImageAnalysed && e == VideoAnalysis ==> Lookup(s, e) == Some(Transition(s, e, OfferVideoAnalysed, None))
    ensures s == OfferVideoAnalysed && e == Publish ==> Lookup(s, e) == Some(Transition(s, e, OfferPublished, Some(PublishGuard)))
  {
  }

  /** The end state has no outgoing transition, and nothing re-enters the initial state. */
  lemma EndStateHasNoExit(e: OfferEvent)
    ensures Lookup(OfferPublished, e).None?
    ensures forall t :: t in Transitions ==> !IsEnd(t.source) && t.target != InitialState
  {
  }

  /** The counter as the guard and the action read it: an absent key counts as 0. */
  function Counter(vars: Variables): (c: int32)
    ensures PassedStepCount in vars ==> c == vars[PassedStepCount]
    ensures PassedStepCount !in vars ==> c == 0
  {
    GetOrDefault(vars, PassedStepCount, 0)
  }

  /** Guard evaluation: an unguarded transition is always allowed; the publish
      guard allows exactly when a positive counter is stored. */
  function EvaluateGuard(guard: Option<Guard>, vars: Variables): (allowed: bool)
    ensures guard.None? ==> allowed
    ensures guard == Some(PublishGuard) ==> (allowed <==> PassedStepCount in vars && vars[PassedStepCount] > 0)
    ensures guard == Some(PublishGuard) && vars == map[] ==> !allowed
  {
    match guard
    case None => true
    case Some(PublishGuard) => Counter(vars) > 0
  }

  /** The context an action sees: the transition's endpoints and whether an
      exception is attached. */
  datatype ActionContext = ActionContext(source: OfferState, target: OfferState, hasException: bool)

  /** What the error action reports: the source state of the failing step. */
  datatype ErrorReport = ErrorReport(source: OfferState)

  /** `executeAction`: stores the counter's successor (absent read as 0, Java
      `int` arithmetic) and leaves every other variable alone. */
  function Execute(vars: Variables): (r: Variables)
    ensures AgreeExcept(vars, r, PassedStepCount)
    ensures PassedStepCount in r
    ensures Counter(vars) as int < MAX ==> Counter(r) as int == Counter(vars) as int + 1
    ensures Counter(vars) as int == MAX ==> Counter(r) as int == MIN
  {
    Put(vars, PassedStepCount, Increment(Counter(vars)))
  }

  /** `errorAction`: reads only the context, and reports exactly when an
      exception is attached to it. */
  function ReportError(ctx: ActionContext): (report: Option<ErrorReport>)
    ensures report.Some? <==> ctx.hasException
    ensures report.Some? ==> report.value.source == ctx.source
  {
    if ctx.hasException then Some(ErrorReport(ctx.source)) else None
  }

  /** The effect of running actions: the resulting variables and the reports made. */
  datatype Effect = Effect(vars: Variables, reports: seq<ErrorReport>)

  function RunAction(a: Action, ctx: ActionContext, vars: Variables): (r: Effect)
    ensures a == ErrorAction ==> r.vars == vars
    ensures a == ErrorAction ==> r.reports == (if ctx.hasException then [ErrorReport(ctx.source)] else [])
    ensures a == ExecuteAction ==> r.vars == Execute(vars) && r.reports == []
    ensures !ctx.hasException ==> r.reports == []
  {
    match a
    case ExecuteAction => Effect(Execute(vars), [])
    case ErrorAction =>
      match ReportError(ctx)
      case None => Effect(vars, [])
      case Some(report) => Effect(vars, [report])
  }

  /** Number of occurrences of `a` in `actions`. */
  function CountOf(actions: seq<Action>, a: Action): nat {
    if |actions| == 0 then 0
    else (if actions[0] == a then 1 else 0) + CountOf(actions[1..], a)
  }

  /** The variables after `executeAction` has run `n` times. */
  function ExecuteTimes(vars: Variables, n: nat): Variables
    decreases n
  {
    if n == 0 then vars else ExecuteTimes(Execute(vars), n - 1)
  }

  /** Runs `actions` in order, threading the variables through and collecting reports. */
  function RunActions(actions: seq<Action>, ctx: ActionContext, vars: Variables): (r: Effect)
    ensures r.vars == ExecuteTimes(vars, CountOf(actions, ExecuteAction))
    ensures |r.reports| == (if ctx.hasException then CountOf(actions, ErrorAction) else 0)
    ensures forall i :: 0 <= i < |r.reports| ==> r.reports[i] == ErrorReport(ctx.source)
    ensures AgreeExcept(vars, r.vars, PassedStepCount)
    ensures (forall i :: 0 <= i < |actions| ==> actions[i] == ErrorAction) ==> r.vars == vars
    ensures !ctx.hasException ==> r.reports == []
    decreases |actions|
  {
    if |actions| == 0 then Effect(vars, [])
    else
      var first := RunAction(actions[0], ctx, vars);
      var rest := RunActions(actions[1..], ctx, first.vars);
      Effect(rest.vars, first.reports + rest.reports)
  }

  /** Entry actions per state: `executeAction` on each intermediate state. */
  function EntryActions(s: OfferState): (actions: seq<Action>)
    ensures CountOf(actions, ExecuteAction) == (if IsIntermediate(s) then 1 else 0)
    ensures CountOf(actions, ErrorAction) == 0
  {
    if IsIntermediate(s) then [ExecuteAction] else []
  }

  /** Exit actions per state: `errorAction` on each intermediate state (the third
      argument of the three-argument state declaration is an exit action). */
  function ExitActions(s: OfferState): (actions: seq<Action>)
    ensures CountOf(actions, ErrorAction) == (if IsIntermediate(s) then 1 else 0)
    ensures CountOf(actions, ExecuteAction) == 0
  {
    if IsIntermediate(s) then [ErrorAction] else []
  }

  /** Entering a state increments the counter exactly when it is intermediate. */
  lemma EntryIncrementsOnlyIntermediate(s: OfferState, ctx: ActionContext, vars: Variables)
    ensures RunActions(EntryActions(s), ctx, vars).vars == (if IsIntermediate(s) then Execute(vars) else vars)
    ensures RunActions(EntryActions(s), ctx, vars).reports == []
  {
    if IsIntermediate(s) {
      assert EntryActions(s)[1..] == [];
    }
  }

  /** Leaving a state never changes the variables, and reports only with an exception. */
  lemma ExitLeavesVariables(s: OfferState, ctx: ActionContext, vars: Variables)
    ensures RunActions(ExitActions(s), ctx, vars).vars == vars
    ensures RunActions(ExitActions(s), ctx, vars).reports != [] <==> IsIntermediate(s) && ctx.hasException
  {
    if IsIntermediate(s) {
      assert ExitActions(s)[1..] == [];
    }
  }

  /** After the entry action has run once from a non-negative counter below `MAX`,
      the publish guard allows. */
  lemma ExecuteEnablesPublish(vars: Variables)
    requires 0 <= Counter(vars) as int < MAX
    ensures EvaluateGuard(Some(PublishGuard), Execute(vars))
  {
  }
}
