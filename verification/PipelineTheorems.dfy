/** What holds of every pipeline run, for all answers of agents, hook, cost estimator
    and clock, and for all inputs. */
module PipelineTheorems {
  import opened Wrappers
  import opened Strings
  import opened Fsm
  import opened Memory
  import opened Pipeline
  import Obs = Observability

  // ----- The audit trail ------------------------------------------------------------------

  /** A connected walk of allowed edges from IDLE to `end`. */
  ghost predicate IsWalk(trail: seq<TransitionRecord>, end: State) {
    && trail != [] && trail[0].fromState == Idle && trail[|trail| - 1].toState == end
    && (forall i | 0 <= i < |trail| :: CanTransition(trail[i].fromState, trail[i].toState))
    && (forall i | 0 < i < |trail| :: trail[i - 1].toState == trail[i].fromState)
  }

  /** How often the trail takes the edge from f to t. */
  function Edges(trail: seq<TransitionRecord>, f: State, t: State): nat {
    if trail == [] then 0
    else Edges(trail[..|trail| - 1], f, t) + (if trail[|trail| - 1] == TransitionRecord(f, t) then 1 else 0)
  }

  lemma WalkAppend(trail: seq<TransitionRecord>, f: State, t: State)
    requires IsWalk(trail, f) && CanTransition(f, t)
    ensures IsWalk(trail + [TransitionRecord(f, t)], t)
  {
  }

  /** One more edge: only its own count rises. */
  lemma EdgeTaken(trail: seq<TransitionRecord>, f: State, t: State)
    ensures var longer := trail + [TransitionRecord(f, t)];
            && (forall g, u :: Edges(longer, g, u) == Edges(trail, g, u) + (if g == f && u == t then 1 else 0))
  {
    forall g, u { EdgesAppend(trail, TransitionRecord(f, t), g, u); }
  }

  lemma EdgesAppend(trail: seq<TransitionRecord>, r: TransitionRecord, f: State, t: State)
    ensures Edges(trail + [r], f, t) == Edges(trail, f, t) + (if r == TransitionRecord(f, t) then 1 else 0)
  {
    assert (trail + [r])[..|trail|] == trail;
  }

  /** The number of edges to a state when no fix loop was taken. A way through FIX is as
      long as the loop it closes, so FIX counts one less than the REVIEW it leads to. */
  function Position(s: State): nat {
    match s
    case Idle => 0 case Planning => 1 case Pm => 2 case Architect => 3 case Writer => 4
    case Fix => 4 case Review => 5 case Test => 6 case Qa => 7
    case Success => 8 case Fail => 0 case Blocked => 0
  }

  /** At a loop head the trail is a walk to the current state, the loop counters are the
      numbers of edges into FIX, within their limits, and the trail's length is a fixed
      function of state and counters. */
  ghost predicate Audited(m: Machine) {
    var trail := m.task.transitions;
    var review, qa := LoopCount(m.task, ReviewFix), LoopCount(m.task, QaFix);
    && (HasHandler(m.state) || m.state == Success)
    && IsWalk(trail, m.state)
    && review == Edges(trail, Review, Fix) <= MAX_REVIEW_FIX_LOOPS
    && qa == Edges(trail, Qa, Fix) <= MAX_QA_FIX_LOOPS
    && LoopCount(m.task, TestFix) == Edges(trail, Test, Fix) == 0
    && |trail| == Position(m.state) + 2 * review + 4 * qa
  }

  lemma MovedAudited(w: World, m: Machine, m': Machine, rec: CallRecord)
    requires HasHandler(m.state) && Audited(m) && Moved(w, m, m', rec)
    ensures Audited(m')
  {
    hide Usable, VerdictOf, HookPassed, QaSentBack, IsWalk, Edges, RetryCount;
    WalkAppend(m.task.transitions, m.state, m'.state);
    EdgeTaken(m.task.transitions, m.state, m'.state);
  }

  lemma AskedAgainAudited(m: Machine, m': Machine)
    requires HasHandler(m.state) && Audited(m) && AskedAgain(m, m')
    ensures Audited(m')
  {
    hide IsWalk, Edges, RetryCount;
  }

  lemma TurnAudited(c: Config, w: World, id: string, m: Machine, m': Machine)
    requires HasHandler(m.state) && Audited(m) && Turn(c, w, id, m, m')
    ensures Audited(m')
  {
    var rec := m'.trace[|m.trace|];
    hide LimitReason, Recorded, Malformed, Moved, AskedAgain, Audited;
    if Malformed(w, rec) {
      AskedAgainAudited(m, m');
    } else {
      MovedAudited(w, m, m', rec);
    }
  }

  /** What a finished run's trail and outcome look like. */
  ghost predicate GoodTrail(r: RunResult) {
    var trail := r.machine.task.transitions;
    && IsTerminal(r.finalState)
    && (r.failureReason.None? <==> r.finalState == Success)
    && IsWalk(trail, r.finalState)
    && (r.finalState != Success ==> r.finalState == TerminalFor(trail[|trail| - 1].fromState))
    && Edges(trail, Review, Fix) <= MAX_REVIEW_FIX_LOOPS
    && Edges(trail, Qa, Fix) <= MAX_QA_FIX_LOOPS
    && Edges(trail, Test, Fix) == 0
    && |trail| <= Position(Success) + 2 * Edges(trail, Review, Fix) + 4 * Edges(trail, Qa, Fix)
    && (r.finalState == Success ==>
          |trail| == Position(Success) + 2 * Edges(trail, Review, Fix) + 4 * Edges(trail, Qa, Fix))
  }

  lemma {:induction false} DriveFromTrail(c: Config, w: World, id: string, m: Machine)
    requires Audited(m)
    ensures GoodTrail(DriveFrom(c, w, id, m))
    decreases FixBudget(m.task), Distance(m.state), RetriesLeft(m)
  {
    if HasHandler(m.state) {
      hide Audited, GoodTrail, Turn, Halted, Step;
      StepTurns(c, w, id, m);
      match Step(c, w, id, m)
      case Next(m') =>
        TurnAudited(c, w, id, m, m');
        StepDecreases(c, w, id, m);
        DriveFromTrail(c, w, id, m');
      case Stop(r) => HaltedTrail(c, w, id, m, r);
    }
  }

  lemma HaltedTrail(c: Config, w: World, id: string, m: Machine, r: RunResult)
    requires HasHandler(m.state) && Audited(m) && Halted(c, w, id, m, r)
    ensures GoodTrail(r)
  {
    hide LimitReason, Recorded, IsWalk, Edges;
    WalkAppend(m.task.transitions, m.state, TerminalFor(m.state));
    EdgeTaken(m.task.transitions, m.state, TerminalFor(m.state));
  }

  lemma StartAudited(raw: string, seeds: map<Kind, string>, ledger: seq<Obs.AgentCallRecord>)
    ensures Audited(Start(raw, seeds, ledger))
  {
    var trail := [TransitionRecord(Idle, Planning)];
    assert trail[..0] == [];
    assert Edges(trail, Review, Fix) == Edges(trail, Qa, Fix) == Edges(trail, Test, Fix) == 0;
  }

  /** Every run ends in a terminal state with a connected trail of at most 22 edges; it
      has no failure reason exactly when it succeeded; it fails into the failure state of
      the state it was in; and it never goes from TEST to FIX. */
  lemma TrailTheorem(c: Config, w: World, id: string, raw: string, seeds: map<Kind, string>,
                     ledger: seq<Obs.AgentCallRecord>)
    ensures var r := Drive(c, w, id, raw, seeds, ledger);
            GoodTrail(r) && |r.machine.task.transitions| <= 22
  {
    hide DriveFrom;
    StartAudited(raw, seeds, ledger);
    DriveFromTrail(c, w, id, Start(raw, seeds, ledger));
  }

  /** The step limit of 25 is dead code: with any limit from 21 on, or none, every run
      is the same run, and no run ends for that reason. */
  lemma {:induction false} StepLimitIsDead(c: Config, w: World, id: string, m: Machine)
    requires Audited(m) && (c.maxSteps.Some? ==> c.maxSteps.value >= 21)
    ensures DriveFrom(c, w, id, m) == DriveFrom(c.(maxSteps := None), w, id, m)
    ensures var reason := DriveFrom(c, w, id, m).failureReason;
            reason.Some? ==> !reason.value.MaxTotalStepsExceeded?
    decreases FixBudget(m.task), Distance(m.state), RetriesLeft(m)
  {
    if HasHandler(m.state) {
      var c' := c.(maxSteps := None);
      assert |m.task.transitions| <= 21;
      assert LimitReason(c, id, m) == LimitReason(c', id, m);
      SameWithoutStepLimit(c, w, id, m);
      StepTurns(c, w, id, m);
      match Step(c, w, id, m)
      case Next(m') =>
        TurnAudited(c, w, id, m, m');
        StepDecreases(c, w, id, m);
        StepLimitIsDead(c, w, id, m');
      case Stop(r) =>
    }
  }

  lemma SameWithoutStepLimit(c: Config, w: World, id: string, m: Machine)
    requires HasHandler(m.state)
    requires LimitReason(c, id, m) == LimitReason(c.(maxSteps := None), id, m)
    ensures Step(c, w, id, m) == Step(c.(maxSteps := None), w, id, m)
  {
    hide LimitReason, Judge, Inputs, IsBlank, LedgerEntry, Obs.Recorded, CanTransition, TerminalFor, AgentName;
  }

  // ----- Call counts ------------------------------------------------------------------------

  function CountMalformed(w: World, trace: seq<CallRecord>): nat {
    if trace == [] then 0
    else CountMalformed(w, trace[..|trace| - 1]) + (if Malformed(w, trace[|trace| - 1]) then 1 else 0)
  }

  lemma CountMalformedAppend(w: World, trace: seq<CallRecord>, rec: CallRecord)
    ensures CountMalformed(w, trace + [rec]) == CountMalformed(w, trace) + (if Malformed(w, rec) then 1 else 0)
  {
    assert (trace + [rec])[..|trace|] == trace;
  }

  /** The memory's call list names the agents of the calls made, in order. */
  ghost predicate CallsListed(m: Machine) {
    && |m.task.agentCalls| == |m.trace|
    && forall i | 0 <= i < |m.trace| :: m.task.agentCalls[i] == AgentName(m.trace[i].agent)
  }

  /** At a loop head every call either moved the run along one edge or was malformed,
      and no state has used more than three calls per visit. */
  ghost predicate Counted(w: World, m: Machine) {
    && CallsListed(m)
    && m.task.transitions != []
    && |m.trace| == |m.task.transitions| - 1 + CountMalformed(w, m.trace)
    && RetryCount(m) <= STATE_MAX_RETRY
    && (IsTerminal(m.state) ==> RetryCount(m) == 0)
    && |m.trace| <= (STATE_MAX_RETRY + 1) * (|m.task.transitions| - 1) + RetryCount(m)
  }

  lemma TurnCounted(c: Config, w: World, id: string, m: Machine, m': Machine)
    requires HasHandler(m.state) && Counted(w, m) && Turn(c, w, id, m, m')
    ensures Counted(w, m')
  {
    hide LimitReason, Malformed, Usable, VerdictOf, HookPassed, Inputs, LedgerEntry, Obs.Recorded, StoreFirst, KindOf,
      AgentName, RetryCount;
    assert m'.trace == m.trace + [m'.trace[|m.trace|]];
    CountMalformedAppend(w, m.trace, m'.trace[|m.trace|]);
  }

  /** How many calls a finished run has made. */
  ghost predicate GoodCalls(c: Config, w: World, r: RunResult) {
    var calls := |r.machine.task.agentCalls|;
    && CallsListed(r.machine)
    && calls <= 63
    && (c.maxCalls.Some? ==> calls <= c.maxCalls.value + 1)
    && (r.failureReason.Some? && r.failureReason.value.MaxTotalAgentCallsExceeded? ==>
          c.maxCalls.Some? && calls == c.maxCalls.value + 1 && calls <= 20 + CountMalformed(w, r.machine.trace))
  }

  lemma {:induction false} DriveFromCalls(c: Config, w: World, id: string, m: Machine)
    requires Audited(m) && Counted(w, m)
    requires c.maxCalls.Some? ==> |m.trace| <= c.maxCalls.value + 1
    ensures GoodCalls(c, w, DriveFrom(c, w, id, m))
    decreases FixBudget(m.task), Distance(m.state), RetriesLeft(m)
  {
    if HasHandler(m.state) {
      StepTurns(c, w, id, m);
      match Step(c, w, id, m)
      case Next(m') =>
        TurnAudited(c, w, id, m, m');
        TurnCounted(c, w, id, m, m');
        StepDecreases(c, w, id, m);
        assert c.maxCalls.Some? ==> |m.trace| <= c.maxCalls.value;
        hide Audited, Counted, GoodCalls, Step, Moved, AskedAgain;
        DriveFromCalls(c, w, id, m');
      case Stop(r) =>
        hide Step;
        HaltedCalls(c, w, id, m, r);
    }
  }

  lemma HaltedCalls(c: Config, w: World, id: string, m: Machine, r: RunResult)
    requires HasHandler(m.state) && Audited(m) && Counted(w, m) && Halted(c, w, id, m, r)
    requires c.maxCalls.Some? ==> |m.trace| <= c.maxCalls.value + 1
    ensures GoodCalls(c, w, r)
  {
    hide IsWalk, Edges, Malformed, Usable, Inputs, LedgerEntry, Obs.Recorded, StoreFirst, KindOf, AgentName,
      RetryCount;
    assert |m.task.transitions| <= 21;
    assert CallsListed(r.machine);
  }

  /** No run makes more than 63 agent calls even without the call limit, and none more
      than one above it; the limit of 40 can end a run only after 21 malformed answers. */
  lemma CallsTheorem(c: Config, w: World, id: string, raw: string, seeds: map<Kind, string>,
                     ledger: seq<Obs.AgentCallRecord>)
    ensures var r := Drive(c, w, id, raw, seeds, ledger);
            && GoodCalls(c, w, r)
            && (c.maxCalls == Some(MAX_TOTAL_AGENT_CALLS) ==>
                  && |r.machine.task.agentCalls| <= 41
                  && (r.failureReason.Some? && r.failureReason.value.MaxTotalAgentCallsExceeded? ==>
                        CountMalformed(w, r.machine.trace) >= 21))
  {
    hide DriveFrom;
    StartAudited(raw, seeds, ledger);
    DriveFromCalls(c, w, id, Start(raw, seeds, ledger));
  }

  // ----- Where the stored artifacts come from -------------------------------------------------

  /** The first usable answer of an agent. */
  function FirstUsable(w: World, trace: seq<CallRecord>, a: Agent): Option<string> {
    if trace == [] then None
    else
      var earlier := FirstUsable(w, trace[..|trace| - 1], a);
      var last := trace[|trace| - 1];
      if earlier.Some? then earlier
      else if last.agent == a && Usable(w, last) then Some(last.reply.text)
      else None
  }

  /** The newest code: the last usable answer of the writer or the fixer. */
  function NewestCode(w: World, trace: seq<CallRecord>): Option<string> {
    if trace == [] then None
    else
      var last := trace[|trace| - 1];
      if (last.agent.WriterAgent? || last.agent.Fixer?) && Usable(w, last) then Some(last.reply.text)
      else NewestCode(w, trace[..|trace| - 1])
  }

  /** A seeded artifact is the seed; any other is its agent's first usable answer, and is
      missing as long as there was none; kinds without an agent come from seeds only. */
  ghost predicate SourcedFrom(w: World, seeds: map<Kind, string>, trace: seq<CallRecord>,
                              artifacts: map<Kind, string>) {
    && (forall k | k in seeds :: k in artifacts && artifacts[k] == seeds[k])
    && (forall k | k in artifacts && k !in seeds :: exists a :: KindOf(a) == k)
    && (forall a | KindOf(a) !in seeds ::
          FirstUsable(w, trace, a) == (if KindOf(a) in artifacts then Some(artifacts[KindOf(a)]) else None))
  }

  ghost predicate Sourced(w: World, seeds: map<Kind, string>, m: Machine) {
    SourcedFrom(w, seeds, m.trace, m.task.artifacts)
  }

  lemma KindsOfAgentsDiffer(a: Agent, b: Agent)
    requires KindOf(a) == KindOf(b)
    ensures a == b
  {
  }

  lemma RecordedSourced(c: Config, w: World, id: string, seeds: map<Kind, string>, m: Machine, m': Machine)
    requires HasHandler(m.state) && Sourced(w, seeds, m) && Recorded(c, w, id, m, m')
    ensures Sourced(w, seeds, m')
  {
    hide Inputs, LedgerEntry, Obs.Recorded, Usable, KindOf, AgentOf;
    var rec := m'.trace[|m.trace|];
    assert m'.trace[..|m'.trace| - 1] == m.trace;
    forall a | KindOf(a) !in seeds
      ensures FirstUsable(w, m'.trace, a) ==
              (if KindOf(a) in m'.task.artifacts then Some(m'.task.artifacts[KindOf(a)]) else None)
    {
      if KindOf(a) == KindOf(rec.agent) {
        KindsOfAgentsDiffer(a, rec.agent);
      }
    }
  }

  /** The driver's current code is the newest usable one, at every loop head. */
  lemma TurnNewestCode(c: Config, w: World, id: string, m: Machine, m': Machine)
    requires HasHandler(m.state) && Turn(c, w, id, m, m')
    requires m.scratch.latestCode == NewestCode(w, m.trace)
    ensures m'.scratch.latestCode == NewestCode(w, m'.trace)
  {
    hide Inputs, LedgerEntry, Obs.Recorded, LimitReason, StoreFirst;
    assert m'.trace[..|m'.trace| - 1] == m.trace;
  }

  lemma {:induction false} DriveFromSourced(c: Config, w: World, id: string, seeds: map<Kind, string>, m: Machine)
    requires HasHandler(m.state) || IsTerminal(m.state)
    requires Sourced(w, seeds, m) && m.scratch.latestCode == NewestCode(w, m.trace)
    ensures var r := DriveFrom(c, w, id, m);
            && Sourced(w, seeds, r.machine)
            && (r.finalState == Success && !IsTerminal(m.state) ==>
                r.machine.scratch.latestCode == NewestCode(w, r.machine.trace))
    decreases FixBudget(m.task), Distance(m.state), RetriesLeft(m)
  {
    if HasHandler(m.state) {
      hide Sourced, Step, NewestCode, Recorded, Moved, AskedAgain;
      StepTurns(c, w, id, m);
      match Step(c, w, id, m)
      case Next(m') =>
        RecordedSourced(c, w, id, seeds, m, m');
        TurnNewestCode(c, w, id, m, m');
        StepDecreases(c, w, id, m);
        DriveFromSourced(c, w, id, seeds, m');
      case Stop(r) =>
        if LimitReason(c, id, m).None? {
          RecordedSourced(c, w, id, seeds, m, r.machine);
        } else {
          SourcedKept(w, seeds, m, r.machine);
        }
    }
  }

  lemma SourcedKept(w: World, seeds: map<Kind, string>, m: Machine, m': Machine)
    requires Sourced(w, seeds, m)
    requires m'.trace == m.trace && m'.task.artifacts == m.task.artifacts
    ensures Sourced(w, seeds, m')
  {
  }

  /** However often agents are asked again or loops are taken, memory holds each agent's
      first usable answer, or the seed it was given instead. */
  lemma ArtifactTheorem(c: Config, w: World, id: string, raw: string, seeds: map<Kind, string>,
                        ledger: seq<Obs.AgentCallRecord>)
    ensures Sourced(w, seeds, Drive(c, w, id, raw, seeds, ledger).machine)
  {
    var m := Start(raw, seeds, ledger);
    forall a | KindOf(a) !in seeds ensures FirstUsable(w, m.trace, a) == None {}
    DriveFromSourced(c, w, id, seeds, m);
  }
}
