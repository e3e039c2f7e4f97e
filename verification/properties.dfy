/** Properties of the offer-review machine over whole event sequences. */
module Properties {
  import opened Wrappers
  import opened JavaInt
  import opened OfferReview
  import opened Engine

  /** The machine right after `start()` on a freshly created instance. */
  function Started(): (m: Machine)
    ensures m.lifecycle == Running && m.state == InitialState
    ensures m.vars == map[] && m.errors == []
    ensures m.trace == [Notification(None, InitialState)]
  {
    Start(Create()).value
  }

  /** Number of notifications whose target is one of the intermediate states,
      that is, the accepted entries into them. */
  function IntermediateEntries(trace: seq<Notification>): nat {
    if |trace| == 0 then 0
    else IntermediateEntries(trace[..|trace| - 1]) + (if IsIntermediate(trace[|trace| - 1].to) then 1 else 0)
  }

  /** Number of accepted outcomes. */
  function AcceptedCount(outcomes: seq<Outcome>): nat {
    if |outcomes| == 0 then 0
    else (if outcomes[0].Accepted? then 1 else 0) + AcceptedCount(outcomes[1..])
  }

  /** How many counting steps lie on the only path into each state. */
  function StepsPassed(s: OfferState): nat {
    match s
    case NewOfferCreated => 0
    case OfferImageAnalysed => 1
    case OfferVideoAnalysed => 2
    case OfferPublished => 2
  }

  /** The notifications form one chain: the first is the start's (none, initial),
      each later one leaves the state the previous one entered, the last one is
      the current state. */
  ghost predicate ChainedTrace(trace: seq<Notification>, current: OfferState) {
    && |trace| > 0
    && trace[0] == Notification(None, InitialState)
    && (forall i :: 0 < i < |trace| ==> trace[i].from == Some(trace[i - 1].to))
    && trace[|trace| - 1].to == current
  }

  /** What holds of every machine reached from a fresh start. */
  ghost predicate Invariant(m: Machine) {
    && Counter(m.vars) as int == StepsPassed(m.state)
    && Counter(m.vars) as int == IntermediateEntries(m.trace)
    && ChainedTrace(m.trace, m.state)
    && m.errors == []
  }

  lemma StartedSatisfiesInvariant()
    ensures Invariant(Started())
  {
  }

  lemma IntermediateEntriesAppend(trace: seq<Notification>, n: Notification)
    ensures IntermediateEntries(trace + [n]) == IntermediateEntries(trace) + (if IsIntermediate(n.to) then 1 else 0)
  {
    assert (trace + [n])[..|trace|] == trace;
  }

  /** One event keeps the invariant, and the publish guard does not deny. */
  lemma SendEventPreservesInvariant(m: Machine, e: OfferEvent)
    requires Invariant(m)
    ensures Invariant(SendEvent(m, e).machine)
    ensures SendEvent(m, e).outcome != Rejected(GuardDenied)
  {
    var step := SendEvent(m, e);
    if step.outcome.Accepted? {
      var n := Notification(Some(m.state), step.outcome.target);
      IntermediateEntriesAppend(m.trace, n);
      DeclaredTransitions(m.state, e);
    }
  }

  /** Every event sequence keeps the invariant and meets no guard denial. */
  lemma {:induction false} RunPreservesInvariant(m: Machine, events: seq<OfferEvent>)
    requires Invariant(m)
    ensures Invariant(Run(m, events).machine)
    ensures forall i :: 0 <= i < |events| ==> Run(m, events).outcomes[i] != Rejected(GuardDenied)
    decreases |events|
  {
    if |events| > 0 {
      SendEventPreservesInvariant(m, events[0]);
      RunPreservesInvariant(SendEvent(m, events[0]).machine, events[1..]);
    }
  }

  /** On every run from a freshly started machine the counter equals the number
      of accepted entries into the intermediate states, is at least 2 in the video
      state, and the publish guard never denies. */
  lemma ReachableRunsNeverMeetGuardDenial(m: Machine, events: seq<OfferEvent>)
    requires m == Started()
    ensures Counter(Run(m, events).machine.vars) as int
            == IntermediateEntries(Run(m, events).machine.trace)
    ensures Counter(Run(m, events).machine.vars) as int == StepsPassed(Run(m, events).machine.state)
    ensures Run(m, events).machine.state == OfferVideoAnalysed ==>
              Counter(Run(m, events).machine.vars) >= 2
    ensures ChainedTrace(Run(m, events).machine.trace, Run(m, events).machine.state)
    ensures forall i :: 0 <= i < |events| ==> Run(m, events).outcomes[i] != Rejected(GuardDenied)
    ensures Run(m, events).machine.errors == []
  {
    StartedSatisfiesInvariant();
    RunPreservesInvariant(m, events);
  }

  /** Before `start()` and after `stop()` no event is processed. */
  lemma {:induction false} NotRunningIgnoresEvents(m: Machine, events: seq<OfferEvent>)
    requires m.lifecycle != Running
    ensures Run(m, events).machine == m
    ensures forall i :: 0 <= i < |events| ==>
              Run(m, events).outcomes[i] == Rejected(Inactive(if m.lifecycle == Created then NotStarted else AlreadyStopped))
    decreases |events|
  {
    if |events| > 0 {
      NotRunningIgnoresEvents(m, events[1..]);
    }
  }

  /** The end state is a sink: every event is rejected and nothing changes. */
  lemma {:induction false} EndStateAbsorbs(m: Machine, events: seq<OfferEvent>)
    requires m.state == OfferPublished
    ensures Run(m, events).machine == m
    ensures forall i :: 0 <= i < |events| ==> Run(m, events).outcomes[i].Rejected?
    decreases |events|
  {
    if |events| > 0 {
      EndStateHasNoExit(events[0]);
      EndStateAbsorbs(m, events[1..]);
    }
  }

  /** The listener is notified once per accepted event, and the extended state
      is only touched by accepted entries. */
  lemma {:induction false} NotificationPerAcceptedEvent(m: Machine, events: seq<OfferEvent>)
    ensures |Run(m, events).machine.trace| == |m.trace| + AcceptedCount(Run(m, events).outcomes)
    ensures AcceptedCount(Run(m, events).outcomes) == 0 ==> Run(m, events).machine == m
    decreases |events|
  {
    if |events| > 0 {
      NotificationPerAcceptedEvent(SendEvent(m, events[0]).machine, events[1..]);
      var r := Run(m, events);
      assert r.outcomes[1..] == Run(SendEvent(m, events[0]).machine, events[1..]).outcomes;
    }
  }

  /** The counter never decreases along a run, as long as it cannot wrap around. */
  lemma {:induction false} CounterNeverDecreases(m: Machine, events: seq<OfferEvent>)
    requires Counter(m.vars) as int + |events| <= MAX
    ensures Counter(m.vars) <= Counter(Run(m, events).machine.vars)
    ensures Counter(Run(m, events).machine.vars) as int <= Counter(m.vars) as int + |events|
    decreases |events|
  {
    if |events| > 0 {
      var next := SendEvent(m, events[0]).machine;
      assert Counter(m.vars) <= Counter(next.vars) && Counter(next.vars) as int <= Counter(m.vars) as int + 1;
      CounterNeverDecreases(next, events[1..]);
    }
  }

  /** On runs from any machine meeting the invariant (so on every run from a
      fresh start, of any length) the counter never decreases. */
  lemma {:induction false} ReachableCounterMonotone(m: Machine, events: seq<OfferEvent>)
    requires Invariant(m)
    ensures Counter(m.vars) <= Counter(Run(m, events).machine.vars)
    decreases |events|
  {
    if |events| > 0 {
      var next := SendEvent(m, events[0]).machine;
      SendEventPreservesInvariant(m, events[0]);
      DeclaredTransitions(m.state, events[0]);
      assert Counter(m.vars) <= Counter(next.vars);
      ReachableCounterMonotone(next, events[1..]);
    }
  }

  /** A running machine with a declared transition whose guard allows takes it. */
  lemma AcceptedStep(m: Machine, e: OfferEvent, target: OfferState)
    requires m.lifecycle == Running
    requires Lookup(m.state, e).Some? && Lookup(m.state, e).value.target == target
    requires EvaluateGuard(Lookup(m.state, e).value.guard, m.vars)
    ensures SendEvent(m, e) == Step(Advance(m, target), Accepted(target))
  {
  }

  /** Three commits along the declared path notify the listener three times in
      order and count two passed steps. */
  lemma AdvanceAlongPath(m: Machine)
    requires m.state == InitialState
    requires 0 <= Counter(m.vars) as int < MAX - 1
    ensures Advance(Advance(Advance(m, OfferImageAnalysed), OfferVideoAnalysed), OfferPublished).trace
            == m.trace + [Notification(Some(NewOfferCreated), OfferImageAnalysed),
                          Notification(Some(OfferImageAnalysed), OfferVideoAnalysed),
                          Notification(Some(OfferVideoAnalysed), OfferPublished)]
    ensures Counter(Advance(Advance(Advance(m, OfferImageAnalysed), OfferVideoAnalysed), OfferPublished).vars) as int
            == Counter(m.vars) as int + 2
  {
  }

  /** From any running machine in the initial state: image analysis, video
      analysis and publish are all accepted, the listener sees the three steps in
      order, and the counter goes up by two. */
  lemma AnalysisThenPublish(m: Machine)
    requires m.lifecycle == Running && m.state == InitialState
    requires 0 <= Counter(m.vars) as int < MAX - 1
    ensures var s1 := SendEvent(m, ImageAnalysis);
            var s2 := SendEvent(s1.machine, VideoAnalysis);
            var s3 := SendEvent(s2.machine, Publish);
            && s1.outcome == Accepted(OfferImageAnalysed)
            && s2.outcome == Accepted(OfferVideoAnalysed)
            && s3.outcome == Accepted(OfferPublished)
            && s3.machine.state == OfferPublished
            && s3.machine.trace == m.trace + [Notification(Some(NewOfferCreated), OfferImageAnalysed),
                                              Notification(Some(OfferImageAnalysed), OfferVideoAnalysed),
                                              Notification(Some(OfferVideoAnalysed), OfferPublished)]
            && Counter(s3.machine.vars) as int == Counter(m.vars) as int + 2
  {
    var m1 := Advance(m, OfferImageAnalysed);
    var m2 := Advance(m1, OfferVideoAnalysed);
    DeclaredTransitions(NewOfferCreated, ImageAnalysis);
    DeclaredTransitions(OfferImageAnalysed, VideoAnalysis);
    DeclaredTransitions(OfferVideoAnalysed, Publish);
    AcceptedStep(m, ImageAnalysis, OfferImageAnalysed);
    AcceptedStep(m1, VideoAnalysis, OfferVideoAnalysed);
    AcceptedStep(m2, Publish, OfferPublished);
    AdvanceAlongPath(m);
  }

  /** The driver's run: after `start()`, image analysis, video analysis and
      publish visit every state once with every step accepted. */
  lemma RunnerScenario(m: Machine)
    requires m == Started()
    ensures var s1 := SendEvent(m, ImageAnalysis);
            var s2 := SendEvent(s1.machine, VideoAnalysis);
            var s3 := SendEvent(s2.machine, Publish);
            && [s1.outcome, s2.outcome, s3.outcome]
               == [Accepted(OfferImageAnalysed), Accepted(OfferVideoAnalysed), Accepted(OfferPublished)]
            && s3.machine.trace == [Notification(None, NewOfferCreated),
                                    Notification(Some(NewOfferCreated), OfferImageAnalysed),
                                    Notification(Some(OfferImageAnalysed), OfferVideoAnalysed),
                                    Notification(Some(OfferVideoAnalysed), OfferPublished)]
            && Counter(s3.machine.vars) == 2
  {
    StartedFromNothing();
    AnalysisThenPublish(m);
  }

  /** The started machine has counter 0 and the start notification alone, so the
      demo's three notifications follow it. */
  lemma StartedFromNothing()
    ensures Counter(Started().vars) == 0
    ensures Started().trace + [Notification(Some(NewOfferCreated), OfferImageAnalysed),
                               Notification(Some(OfferImageAnalysed), OfferVideoAnalysed),
                               Notification(Some(OfferVideoAnalysed), OfferPublished)]
            == [Notification(None, NewOfferCreated),
                Notification(Some(NewOfferCreated), OfferImageAnalysed),
                Notification(Some(OfferImageAnalysed), OfferVideoAnalysed),
                Notification(Some(OfferVideoAnalysed), OfferPublished)]
  {
  }

  /** Before `start()` no event is processed, so the driver's events are all
      rejected and the machine does not move. */
  lemma RunnerWithoutStart()
    ensures Run(Create(), [ImageAnalysis, VideoAnalysis, Publish]).machine == Create()
    ensures Run(Create(), [ImageAnalysis, VideoAnalysis, Publish]).outcomes
            == [Rejected(Inactive(NotStarted)), Rejected(Inactive(NotStarted)), Rejected(Inactive(NotStarted))]
  {
    NotRunningIgnoresEvents(Create(), [ImageAnalysis, VideoAnalysis, Publish]);
  }

  /** Publishing straight from the initial state finds no transition. */
  lemma PublishWithoutAnalysisIsRejected()
    ensures SendEvent(Started(), Publish) == Step(Started(), Rejected(NoMatchingTransition))
  {
    DeclaredTransitions(NewOfferCreated, Publish);
  }

  /** With the counter not positive (a fresh context, or one zeroed by hand), the
      publish guard denies and the machine stays in the video state. */
  lemma GuardDeniesWithoutPassedSteps(m: Machine)
    requires m.lifecycle == Running && m.state == OfferVideoAnalysed
    requires Counter(m.vars) <= 0
    ensures SendEvent(m, Publish) == Step(m, Rejected(GuardDenied))
  {
  }

  /** Stopping twice is the same as stopping once. */
  lemma StopIsIdempotent(m: Machine)
    requires Stop(m).Ok?
    ensures Stop(Stop(m).value) == Stop(m)
    ensures Stop(m).value.lifecycle == Stopped
  {
  }
}
