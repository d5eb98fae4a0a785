/** What a failed run's reason says about the run. */
module PipelineOutcomes {
  import opened Wrappers
  import opened Strings
  import opened Fsm
  import opened Memory
  import opened Pipeline
  import opened PipelineTheorems
  import Obs = Observability

  // ----- Reasons tell what happened ---------------------------------------------------------

  predicate SaidBlocked(rec: CallRecord, text: string) {
    rec.reply.Text? && IsBlocked(rec.reply.text) && text == BlockedText(rec.reply.text)
  }

  /** The answer has this verdict, with or without something for the fixer to do. */
  predicate Judges(w: World, rec: CallRecord, verdict: Verdict, items: bool) {
    rec.reply.Text? && w.parse(rec.reply.text).Some?
    && var p := w.parse(rec.reply.text).value;
       p.verdict == verdict && (items <==> p.forFixer.Some? && p.forFixer.value.truthy)
  }

  predicate HookSaid(w: World, rec: CallRecord, said: HookReply -> bool) {
    VerdictOf(w, rec) == Passed && rec.hook.Some? && said(rec.hook.value.reply)
  }

  /** A BLOCKED answer is reported with its first 120 characters, white space around it aside. */
  lemma BlockedTextIs(text: string)
    ensures BlockedText(text) <= Strip(text)
    ensures |BlockedText(text)| == if |Strip(text)| < 120 then |Strip(text)| else 120
  {
  }

  /** BLOCKED answers are those that start with the word and its colon, white space aside. */
  lemma IsBlockedIff(text: string)
    ensures IsBlocked(text) <==> exists n: nat :: n <= |text| && AllSpaces(text[..n]) && "BLOCKED:" <= text[n..]
  {
    LStripFirst(text);
    if IsBlocked(text) {
      LStripSplits(text);
    }
    if n: nat :| n <= |text| && AllSpaces(text[..n]) && "BLOCKED:" <= text[n..] {
      LStripStops(text, n);
    }
  }

  lemma {:induction false} LStripSplits(text: string)
    ensures var n := |text| - |LStrip(text)|; 0 <= n <= |text| && AllSpaces(text[..n]) && text[n..] == LStrip(text)
  {
    if text != "" && IsSpace(text[0]) {
      LStripSplits(text[1..]);
      var n := |text| - |LStrip(text)|;
      assert text[..n] == [text[0]] + text[1..][..n - 1];
      assert text[n..] == text[1..][n - 1..];
    }
  }

  lemma {:induction false} LStripStops(text: string, n: nat)
    requires n < |text| && AllSpaces(text[..n]) && !IsSpace(text[n])
    ensures LStrip(text) == text[n..]
  {
    if n > 0 {
      assert text[0] in text[..n];
      assert text[1..][..n - 1] == text[..n][1..];
      LStripStops(text[1..], n - 1);
    }
  }

  /** The reasons that stem from the last call, with what that call was and how often each
      fix loop had been taken. */
  ghost predicate Blames(w: World, from: State, rec: CallRecord, review: int, qa: int, reason: Reason) {
    match reason
    case AgentException => rec.reply.Raised?
    case WriterBlocked(t) => from == Writer && SaidBlocked(rec, t)
    case TesterBlocked(t) => from == Test && SaidBlocked(rec, t)
    case FixerBlocked(t) => from == Fix && SaidBlocked(rec, t)
    case ReviewRejectedWithoutForFixer => from == Review && Judges(w, rec, Rejected, false)
    case ReviewFixLoopExceeded => from == Review && Judges(w, rec, Rejected, true) && review == MAX_REVIEW_FIX_LOOPS
    case QaFailedWithoutForFixer => from == Qa && Judges(w, rec, Failed, false)
    case QaFixLoopExceeded => from == Qa && Judges(w, rec, Failed, true) && qa == MAX_QA_FIX_LOOPS
    case RuntimeFixLoopExceeded(t) =>
      from == Qa && qa == MAX_QA_FIX_LOOPS
      && HookSaid(w, rec, (r: HookReply) => r.ReportFailed? && t == Take(r.summary, 120))
    case RuntimeValidatorException => from == Qa && HookSaid(w, rec, (r: HookReply) => r.HookRaised?)
    case RuntimeValidatorInvalidReport => from == Qa && HookSaid(w, rec, (r: HookReply) => r.ReportWithoutOk?)
    case _ => false
  }

  /** The last n calls were all malformed answers of the state's own agent. */
  ghost predicate LastMalformed(w: World, trace: seq<CallRecord>, from: State, n: nat) {
    && n <= |trace| && HasHandler(from)
    && forall k | |trace| - n <= k < |trace| :: trace[k].agent == AgentOf(from) && Malformed(w, trace[k])
  }

  /** A failed run's reason is true of the run: of its limits, or of the three malformed
      answers in a row, or of its very last call and the loops taken before. */
  ghost predicate Explained(c: Config, w: World, id: string, r: RunResult) {
    var m, trail := r.machine, r.machine.task.transitions;
    && r.failureReason.Some? && trail != [] && HasHandler(trail[|trail| - 1].fromState)
    && var from := trail[|trail| - 1].fromState;
       match r.failureReason.value
       case MaxTotalStepsExceeded(n) => c.maxSteps.Some? && n == |trail| - 1 > c.maxSteps.value
       case MaxTotalAgentCallsExceeded(n) =>
         && c.maxCalls.Some? && n == |m.task.agentCalls| > c.maxCalls.value
         && (c.maxSteps.Some? ==> |trail| - 1 <= c.maxSteps.value)
       case CostBudgetExceeded(x) =>
         && (c.maxSteps.Some? ==> |trail| - 1 <= c.maxSteps.value)
         && (c.maxCalls.Some? ==> |m.task.agentCalls| <= c.maxCalls.value)
         && c.sink.InMemorySink? && c.budget.Some? && x == Obs.TaskCost(m.ledger, id) > c.budget.value
       case StateRetryExceeded(s) => s == from && LastMalformed(w, m.trace, from, STATE_MAX_RETRY + 1)
       case reason =>
         && m.trace != [] && m.trace[|m.trace| - 1].agent == AgentOf(from)
         && Blames(w, from, m.trace[|m.trace| - 1], Edges(trail, Review, Fix), Edges(trail, Qa, Fix), reason)
  }

  ghost predicate JudgeBlames(w: World, m: Machine, m1: Machine, d: Decision) {
    d.FailWith? ==>
      m1.trace != [] &&
      Blames(w, m.state, m1.trace[|m1.trace| - 1], LoopCount(m.task, ReviewFix), LoopCount(m.task, QaFix), d.reason)
  }

  ghost predicate WithinLoops(t: TaskState) {
    LoopCount(t, ReviewFix) <= MAX_REVIEW_FIX_LOOPS && LoopCount(t, QaFix) <= MAX_QA_FIX_LOOPS
  }

  lemma ReviewBlames(w: World, m: Machine, out: string)
    requires JustAnswered(m, out) && m.state == Review && WithinLoops(m.task)
    ensures var (m1, d) := JudgeReview(w, m, out); JudgeBlames(w, m, m1, d)
  {
    hide IsBlank, IsBlocked;
  }

  lemma HookBlames(w: World, m: Machine, out: string)
    requires JustAnswered(m, out) && m.state == Qa && WithinLoops(m.task)
    requires w.parse(out).Some? && w.parse(out).value.verdict == Passed
    ensures var (m1, d) := RunHook(w, Keep(m, QaDoc, out)); JudgeBlames(w, m, m1, d)
  {
    hide IsBlank, IsBlocked;
  }

  lemma QaBlames(w: World, m: Machine, out: string)
    requires JustAnswered(m, out) && m.state == Qa && WithinLoops(m.task)
    ensures var (m1, d) := JudgeQa(w, m, out); JudgeBlames(w, m, m1, d)
  {
    hide IsBlank, IsBlocked, RunHook;
    if w.parse(out).Some? && w.parse(out).value.verdict == Passed {
      HookBlames(w, m, out);
    }
  }

  lemma JudgeExplains(w: World, m: Machine, out: string)
    requires JustAnswered(m, out) && WithinLoops(m.task)
    ensures var (m1, d) := Judge(w, m, out); JudgeBlames(w, m, m1, d)
  {
    hide IsBlank, JudgeReview, JudgeQa;
    if m.state == Review {
      ReviewBlames(w, m, out);
      hide JudgeBlames;
    } else if m.state == Qa {
      QaBlames(w, m, out);
      hide JudgeBlames;
    }
  }

  lemma HandleExplains(c: Config, w: World, id: string, m: Machine)
    requires HasHandler(m.state) && WithinLoops(m.task)
    ensures var (m1, outcome) := Handle(c, w, id, m); outcome.Decided? ==> JudgeBlames(w, m, m1, outcome.decision)
  {
    var m1 := Invoke(c, w, id, m, AgentOf(m.state), Inputs(w, m));
    var reply := w.agent(|m.trace|);
    if reply.Text? && !IsBlank(reply.text) {
      JudgeExplains(w, m1, reply.text);
    }
    hide Judge, Inputs, IsBlank, Blames, LedgerEntry;
  }

  /** At a loop head the retries so far are malformed answers of this visit. */
  ghost predicate Tried(w: World, m: Machine) {
    HasHandler(m.state) ==> RetryCount(m) <= STATE_MAX_RETRY && LastMalformed(w, m.trace, m.state, RetryCount(m))
  }

  lemma TurnTried(c: Config, w: World, id: string, m: Machine, m': Machine)
    requires HasHandler(m.state) && Tried(w, m) && Turn(c, w, id, m, m')
    ensures Tried(w, m')
  {
    hide LimitReason, Malformed, Usable, VerdictOf, HookPassed, Inputs, LedgerEntry, Obs.Recorded, StoreFirst,
      AgentName, RetryCount;
    assert m'.trace == m.trace + [m'.trace[|m.trace|]];
  }

  lemma TerminateExplains(c: Config, w: World, id: string, m: Machine, m1: Machine, reason: Reason)
    requires HasHandler(m.state) && Audited(m)
    requires m1.state == m.state && m1.task.transitions == m.task.transitions
    ensures var r, trail := Terminate(m1, reason), m.task.transitions;
            && r.failureReason == Some(reason)
            && r.machine == m1.(task := r.machine.task)
            && r.machine.task == m1.task.(transitions := trail + [TransitionRecord(m.state, TerminalFor(m.state))])
            && Edges(r.machine.task.transitions, Review, Fix) == LoopCount(m.task, ReviewFix)
            && Edges(r.machine.task.transitions, Qa, Fix) == LoopCount(m.task, QaFix)
  {
    hide IsWalk, Edges;
    EdgeTaken(m.task.transitions, m.state, TerminalFor(m.state));
  }

  lemma LimitExplains(c: Config, w: World, id: string, m: Machine)
    requires HasHandler(m.state) && Audited(m) && LimitReason(c, id, m).Some?
    ensures Step(c, w, id, m).Stop? && Explained(c, w, id, Step(c, w, id, m).result)
  {
    TerminateExplains(c, w, id, m, m, LimitReason(c, id, m).value);
    hide Handle, Terminate, Edges, LastMalformed, LoopCount, Blames, IsWalk, Obs.TaskCost;
  }

  lemma StopExplains(c: Config, w: World, id: string, m: Machine)
    requires HasHandler(m.state) && Audited(m) && Tried(w, m)
    requires Step(c, w, id, m).Stop?
    ensures var r := Step(c, w, id, m).result; Explained(c, w, id, r)
  {
    if LimitReason(c, id, m).Some? {
      LimitExplains(c, w, id, m);
    } else {
      StopCallExplains(c, w, id, m);
    }
    hide LimitReason, Explained, Audited, Tried, Step;
  }

  lemma CallExplains(c: Config, w: World, id: string, m: Machine, m1: Machine, reason: Reason)
    requires HasHandler(m.state) && Audited(m)
    requires m1.state == m.state && m1.task.transitions == m.task.transitions
    requires m1.trace != [] && m1.trace[|m1.trace| - 1].agent == AgentOf(m.state)
    requires Blames(w, m.state, m1.trace[|m1.trace| - 1], LoopCount(m.task, ReviewFix), LoopCount(m.task, QaFix),
                    reason)
    ensures Explained(c, w, id, Terminate(m1, reason))
  {
    TerminateExplains(c, w, id, m, m1, reason);
    hide Terminate, Edges, Audited, LoopCount, SaidBlocked, Judges, HookSaid, LastMalformed;
  }

  lemma RetryExplains(c: Config, w: World, id: string, m: Machine, m2: Machine)
    requires HasHandler(m.state) && Audited(m) && Tried(w, m)
    requires m2.state == m.state && m2.task.transitions == m.task.transitions
    requires |m2.trace| == |m.trace| + 1 && m2.trace[..|m.trace|] == m.trace
    requires m2.trace[|m.trace|].agent == AgentOf(m.state) && Malformed(w, m2.trace[|m.trace|])
    requires RetryCount(m) == STATE_MAX_RETRY
    ensures Explained(c, w, id, Terminate(m2, StateRetryExceeded(m2.state)))
  {
    assert m2.trace == m.trace + [m2.trace[|m.trace|]];
    TerminateExplains(c, w, id, m, m2, StateRetryExceeded(m2.state));
    hide Terminate, Edges, Audited, LoopCount, Malformed, RetryCount;
  }

  /** How a turn without a limit stops, by what its handler decided. */
  lemma StoppedBy(c: Config, w: World, id: string, m: Machine)
    requires HasHandler(m.state) && LimitReason(c, id, m).None? && Step(c, w, id, m).Stop?
    ensures var (m1, outcome) := Handle(c, w, id, m);
            var r := Step(c, w, id, m).result;
            if outcome.HandlerRaised? then r == Terminate(m1, AgentException)
            else if outcome.decision.FailWith? then r == Terminate(m1, outcome.decision.reason)
            else if outcome.decision.Goto? then !CanTransition(m1.state, outcome.decision.next)
            else
              && RetryCount(m1) >= STATE_MAX_RETRY
              && exists scratch: Scratch ::
                   var m2 := m1.(scratch := scratch); r == Terminate(m2, StateRetryExceeded(m2.state))
  {
    var (m1, outcome) := Handle(c, w, id, m);
    hide Handle, LimitReason, Terminate, CanTransition;
    if outcome.Decided? && outcome.decision.Retry? {
      var scratch := m1.scratch.(stateRetry := m1.scratch.stateRetry[m1.state := RetryCount(m1) + 1]);
      var m2 := m1.(scratch := scratch);
      assert Step(c, w, id, m).result == Terminate(m2, StateRetryExceeded(m2.state));
    }
  }

  lemma StopCallExplains(c: Config, w: World, id: string, m: Machine)
    requires HasHandler(m.state) && Audited(m) && Tried(w, m) && LimitReason(c, id, m).None?
    requires Step(c, w, id, m).Stop?
    ensures Explained(c, w, id, Step(c, w, id, m).result)
  {
    HandleShape(c, w, id, m);
    HandleExplains(c, w, id, m);
    StoppedBy(c, w, id, m);
    var (m1, outcome) := Handle(c, w, id, m);
    hide LimitReason, Handle, Step, Explained, Terminate, Audited, Tried, LoopCount, CanTransition;
    DecidedExplains(c, w, id, m, m1, outcome, Step(c, w, id, m).result);
  }

  lemma DecidedExplains(c: Config, w: World, id: string, m: Machine, m1: Machine, outcome: HandlerResult, r: RunResult)
    requires HasHandler(m.state) && Audited(m) && Tried(w, m) && Handled(c, w, id, m, m1, outcome)
    requires outcome.Decided? ==> JudgeBlames(w, m, m1, outcome.decision)
    requires if outcome.HandlerRaised? then r == Terminate(m1, AgentException)
             else if outcome.decision.FailWith? then r == Terminate(m1, outcome.decision.reason)
             else if outcome.decision.Goto? then !CanTransition(m1.state, outcome.decision.next)
             else
               && RetryCount(m1) >= STATE_MAX_RETRY
               && exists scratch: Scratch ::
                    var m2 := m1.(scratch := scratch); r == Terminate(m2, StateRetryExceeded(m2.state))
    ensures Explained(c, w, id, r)
  {
    hide Explained, Inputs, LedgerEntry, Obs.Recorded, Terminate, Malformed, Usable, VerdictOf, HookPassed, QaSentBack,
      BumpLoop, StoreFirst, Audited, LoopCount, CanTransition, Asked, KindOf, AgentName;
    assert m1.trace[|m1.trace| - 1] == m1.trace[|m.trace|];
    if outcome.HandlerRaised? {
      CallExplains(c, w, id, m, m1, AgentException);
    } else if outcome.decision.FailWith? {
      CallExplains(c, w, id, m, m1, outcome.decision.reason);
    } else if outcome.decision.Goto? {
      AskedIsAllowed(m.state, outcome.decision.next);
    } else {
      var scratch: Scratch :| var m2 := m1.(scratch := scratch); r == Terminate(m2, StateRetryExceeded(m2.state));
      SameRetries(m, m1);
      RetryExplains(c, w, id, m, m1.(scratch := scratch));
    }
  }

  lemma SameRetries(m: Machine, m1: Machine)
    requires m1.state == m.state && m1.scratch == m.scratch
    ensures RetryCount(m1) == RetryCount(m)
  {
  }

  lemma AskedIsAllowed(s: State, next: State)
    requires Asked(s, next)
    ensures CanTransition(s, next)
  {
  }

  lemma {:induction false} DriveFromExplained(c: Config, w: World, id: string, m: Machine)
    requires Audited(m) && Tried(w, m)
    ensures var r := DriveFrom(c, w, id, m); r.failureReason.Some? ==> Explained(c, w, id, r)
    decreases FixBudget(m.task), Distance(m.state), RetriesLeft(m)
  {
    if HasHandler(m.state) {
      StepTurns(c, w, id, m);
      match Step(c, w, id, m)
      case Next(m') =>
        TurnAudited(c, w, id, m, m');
        TurnTried(c, w, id, m, m');
        StepDecreases(c, w, id, m);
        hide Audited, Tried, Explained, Step, Turn;
        DriveFromExplained(c, w, id, m');
      case Stop(r) =>
        StopExplains(c, w, id, m);
        hide Step, Explained;
    }
  }

  /** Every failed run's reason is true of it. */
  lemma ReasonTheorem(c: Config, w: World, id: string, raw: string, seeds: map<Kind, string>,
                      ledger: seq<Obs.AgentCallRecord>)
    ensures var r := Drive(c, w, id, raw, seeds, ledger);
            r.finalState != Success ==> Explained(c, w, id, r)
  {
    hide DriveFrom;
    TrailTheorem(c, w, id, raw, seeds, ledger);
    StartAudited(raw, seeds, ledger);
    DriveFromExplained(c, w, id, Start(raw, seeds, ledger));
  }

  // ----- Failures have a cause, and runs can succeed ------------------------------------------

  /** An answer that can make a run fail or go back: none, malformed, BLOCKED, a refusal, or
      a hook that is not content. */
  predicate Bad(w: World, rec: CallRecord) {
    || rec.reply.Raised? || Malformed(w, rec) || !Usable(w, rec)
    || (rec.agent.Reviewer? && VerdictOf(w, rec) == Rejected)
    || (rec.agent.QaAgent? && VerdictOf(w, rec) == Failed)
    || (rec.hook.Some? && !rec.hook.value.reply.NoReport? && !rec.hook.value.reply.ReportOk?)
  }

  lemma BlamedIsBad(w: World, from: State, rec: CallRecord, review: int, qa: int, reason: Reason)
    requires HasHandler(from) && rec.agent == AgentOf(from) && Blames(w, from, rec, review, qa, reason)
    ensures Bad(w, rec)
  {
    hide IsBlank, IsBlocked, BlockedText;
  }

  lemma {:induction false} NoneMalformed(w: World, trace: seq<CallRecord>)
    requires forall k | 0 <= k < |trace| :: !Bad(w, trace[k])
    ensures CountMalformed(w, trace) == 0
  {
    if trace != [] {
      NoneMalformed(w, trace[..|trace| - 1]);
    }
  }

  /** With the driver's own limits a run that is not stopped by its budget fails only if some
      call of it was bad: good answers always lead to SUCCESS. */
  lemma FailureHasCause(c: Config, w: World, id: string, raw: string, seeds: map<Kind, string>,
                        ledger: seq<Obs.AgentCallRecord>)
    requires c.maxSteps == Some(MAX_TOTAL_STEPS) && c.maxCalls == Some(MAX_TOTAL_AGENT_CALLS)
    ensures var r := Drive(c, w, id, raw, seeds, ledger);
            r.finalState != Success ==>
              || (r.failureReason.Some? && r.failureReason.value.CostBudgetExceeded?)
              || exists k :: 0 <= k < |r.machine.trace| && Bad(w, r.machine.trace[k])
  {
    hide Drive;
    var r := Drive(c, w, id, raw, seeds, ledger);
    ReasonTheorem(c, w, id, raw, seeds, ledger);
    TrailTheorem(c, w, id, raw, seeds, ledger);
    CallsTheorem(c, w, id, raw, seeds, ledger);
    hide IsWalk, Edges;
    if r.finalState != Success && (forall k | 0 <= k < |r.machine.trace| :: !Bad(w, r.machine.trace[k])) {
      NoneMalformed(w, r.machine.trace);
      CauseOfFailure(c, w, id, r);
    }
  }

  lemma CauseOfFailure(c: Config, w: World, id: string, r: RunResult)
    requires Explained(c, w, id, r)
    requires r.machine.trace != [] ==> !Bad(w, r.machine.trace[|r.machine.trace| - 1])
    ensures var reason := r.failureReason.value;
            reason.MaxTotalStepsExceeded? || reason.MaxTotalAgentCallsExceeded? || reason.CostBudgetExceeded?
  {
    var m, trail, reason := r.machine, r.machine.task.transitions, r.failureReason.value;
    var from := trail[|trail| - 1].fromState;
    if m.trace != [] && m.trace[|m.trace| - 1].agent == AgentOf(from)
              && Blames(w, from, m.trace[|m.trace| - 1], Edges(trail, Review, Fix), Edges(trail, Qa, Fix), reason) {
      BlamedIsBad(w, from, m.trace[|m.trace| - 1], Edges(trail, Review, Fix), Edges(trail, Qa, Fix), reason);
    }
    hide Bad, Blames, Edges, Malformed;
  }
}
