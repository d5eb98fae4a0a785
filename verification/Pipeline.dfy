/** What one pipeline run does (core/orchestrator.py), as functions of the run's state.
    Agents, the runtime hook, the cost estimator and the clock are oracles that may
    answer anything at each call; module `Orchestrator` refines these functions. */
module Pipeline {
  import opened Wrappers
  import opened Strings
  import opened Fsm
  import opened Memory
  import Obs = Observability

  // ----- The surroundings of a run ----------------------------------------------------

  datatype AgentReply = Text(text: string) | NoneReply | Raised

  /** What the runtime validation hook does. A failing report comes with its summary
      and with the REJECTED review that is rendered from it. */
  datatype HookReply =
    | HookRaised
    | NoReport
    | ReportOk
    | ReportWithoutOk
    | ReportFailed(summary: string, review: string)

  datatype CostReply = Estimate(inputTokens: int, outputTokens: int, usd: real) | EstimatorRaised

  /** A `for_fixer` value: whether Python takes it for true, and its JSON text. */
  datatype FixItems = FixItems(truthy: bool, dumped: string)

  /** A `verdict` value: one of the four texts the driver knows, or anything else. */
  datatype Verdict = Approved | Rejected | Passed | Failed | OtherVerdict

  /** The fields the driver reads of an extracted JSON object. */
  datatype Parsed = Parsed(verdict: Verdict, forFixer: Option<FixItems>)

  /** The k-th agent call of a run is answered by agent(k), timed by durationMs(k),
      priced by cost(k); a hook run right after it is answered by hook(k). */
  datatype World = World(
    agent: nat -> AgentReply,
    hook: Option<nat -> HookReply>,
    cost: Option<nat -> CostReply>,
    durationMs: nat -> nat,
    parse: string -> Option<Parsed>
  )

  datatype Sink = NoObservability | InMemorySink | OtherSink

  /** None stands for a limit that is not applied at all. */
  datatype Config = Config(sink: Sink, budget: Option<real>, maxSteps: Option<nat>, maxCalls: Option<nat>)

  // ----- The state of a run -----------------------------------------------------------

  datatype Agent = Planner | PmAgent | ArchitectAgent | WriterAgent | Reviewer | Tester | QaAgent | Fixer

  function AgentName(a: Agent): string {
    match a
    case Planner => "planning_agent"
    case PmAgent => "pm_agent"
    case ArchitectAgent => "architect_agent"
    case WriterAgent => "writer_agent"
    case Reviewer => "reviewer_agent"
    case Tester => "tester_agent"
    case QaAgent => "qa_agent"
    case Fixer => "fixer_agent"
  }

  /** What the hook was shown, and its answer. */
  datatype HookCall = HookCall(artifacts: map<Kind, string>, reply: HookReply)

  /** One agent call as it happened; ledgerLen says how many cost records preceded it. */
  datatype CallRecord = CallRecord(
    agent: Agent,
    args: seq<string>,
    reply: AgentReply,
    hook: Option<HookCall>,
    ledgerLen: nat
  )

  datatype Scratch = Scratch(
    latestCode: Option<string>,
    latestReview: Option<string>,
    stateRetry: map<State, nat>
  )

  datatype Machine = Machine(
    state: State,
    task: TaskState,
    scratch: Scratch,
    trace: seq<CallRecord>,
    ledger: seq<Obs.AgentCallRecord>
  )

  datatype Reason =
    | MaxTotalStepsExceeded(steps: nat)
    | MaxTotalAgentCallsExceeded(calls: nat)
    | CostBudgetExceeded(spent: real)
    | AgentException
    | StateRetryExceeded(state: State)
    | InvalidTransitionDecision(fromState: State, toState: State)
    | WriterBlocked(text: string)
    | TesterBlocked(text: string)
    | FixerBlocked(text: string)
    | ReviewRejectedWithoutForFixer
    | ReviewFixLoopExceeded
    | QaFailedWithoutForFixer
    | QaFixLoopExceeded
    | RuntimeFixLoopExceeded(summary: string)
    | RuntimeValidatorException
    | RuntimeValidatorInvalidReport
    | Terminated(state: State)

  datatype Decision =
    | Retry
    | FailWith(reason: Reason)
    | Goto(next: State, latestCode: Option<string>, latestReview: Option<string>)

  datatype HandlerResult = Decided(decision: Decision) | HandlerRaised

  datatype RunResult = RunResult(finalState: State, failureReason: Option<Reason>, machine: Machine)

  datatype StepResult = Stop(result: RunResult) | Next(machine: Machine)

  // ----- Pieces -----------------------------------------------------------------------

  function Artifact(t: TaskState, k: Kind): string {
    if k in t.artifacts then t.artifacts[k] else ""
  }

  /** Only the first text of a kind is kept. */
  function StoreFirst(t: TaskState, k: Kind, text: string): TaskState {
    if k in t.artifacts then t else t.(artifacts := t.artifacts[k := text])
  }

  function CurrentCode(scratch: Scratch, t: TaskState): string {
    var code := scratch.latestCode.GetOr("");
    if code != "" then code else Artifact(t, WriterCode)
  }

  function CurrentReview(scratch: Scratch, t: TaskState): string {
    var review := scratch.latestReview.GetOr("");
    if review != "" then review else Artifact(t, ReviewDoc)
  }

  predicate IsBlocked(text: string) {
    "BLOCKED:" <= LStrip(text)
  }

  function Take(text: string, n: nat): string {
    if |text| <= n then text else text[..n]
  }

  /** The text a BLOCKED answer is reported with. */
  function BlockedText(text: string): string {
    Take(Strip(text), 120)
  }

  function ExtractForFixer(w: World, payload: string): string {
    match w.parse(payload)
    case None => "[]"
    case Some(p) => if p.forFixer.Some? then p.forFixer.value.dumped else "[]"
  }

  /** `if not for_fixer`: an absent or empty list gives the fixer nothing to do. */
  predicate HasFixItems(p: Parsed) {
    p.forFixer.Some? && p.forFixer.value.truthy
  }

  function BumpLoop(t: TaskState, l: Loop): TaskState {
    t.(loopCounters := t.loopCounters[l := LoopCount(t, l) + 1])
  }

  /** What is written to the cost ledger for the k-th call, before validation. */
  function LedgerEntry(w: World, taskId: string, agent: Agent, reply: AgentReply, k: nat): Obs.AgentCallRecord {
    var name, ms := AgentName(agent), w.durationMs(k);
    if reply.Raised? then Obs.AgentCallRecord(name, taskId, ms, 0, 0, 0.0, false, Some("exception"))
    else
      match (if w.cost.Some? then w.cost.value(k) else EstimatorRaised)
      case EstimatorRaised => Obs.AgentCallRecord(name, taskId, ms, 0, 0, 0.0, true, None)
      case Estimate(i, o, usd) => Obs.AgentCallRecord(name, taskId, ms, i, o, usd, true, None)
  }

  function Invoke(c: Config, w: World, taskId: string, m: Machine, agent: Agent, args: seq<string>): Machine {
    var k := |m.trace|;
    var reply := w.agent(k);
    m.(task := m.task.(agentCalls := m.task.agentCalls + [AgentName(agent)]),
       trace := m.trace + [CallRecord(agent, args, reply, None, |m.ledger|)],
       ledger := if c.sink.NoObservability? then m.ledger
                 else Obs.Recorded(m.ledger, LedgerEntry(w, taskId, agent, reply, k)))
  }

  // ----- One handler per state ----------------------------------------------------------

  /** The states that have a handler. */
  predicate HasHandler(s: State) {
    s != Idle && !IsTerminal(s)
  }

  /** The agent that works in a state. */
  function AgentOf(s: State): Agent
    requires HasHandler(s)
  {
    match s
    case Planning => Planner
    case Pm => PmAgent
    case Architect => ArchitectAgent
    case Writer => WriterAgent
    case Review => Reviewer
    case Test => Tester
    case Qa => QaAgent
    case Fix => Fixer
  }

  /** What the agent of the current state is given. */
  function Inputs(w: World, m: Machine): seq<string>
    requires HasHandler(m.state)
  {
    var code, review := CurrentCode(m.scratch, m.task), CurrentReview(m.scratch, m.task);
    match m.state
    case Planning => [m.task.rawTask]
    case Pm => [Artifact(m.task, PlanningDoc)]
    case Architect => [Artifact(m.task, PmDoc)]
    case Writer => [Artifact(m.task, ArchitectDoc)]
    case Review => [code, Artifact(m.task, ArchitectDoc)]
    case Test => [code, Artifact(m.task, ArchitectDoc)]
    case Qa => [Artifact(m.task, PmDoc), Artifact(m.task, ArchitectDoc), code, review, Artifact(m.task, TestDoc)]
    case Fix => [code, ExtractForFixer(w, review), Artifact(m.task, ArchitectDoc)]
  }

  function Keep(m: Machine, kind: Kind, out: string): Machine {
    m.(task := StoreFirst(m.task, kind, out))
  }

  /** A preparatory stage accepts any JSON object. */
  function JudgeJson(w: World, m: Machine, out: string, kind: Kind, next: State): (Machine, Decision) {
    if w.parse(out).None? then (m, Retry)
    else (Keep(m, kind, out), Goto(next, None, None))
  }

  function JudgeWriter(m: Machine, out: string): (Machine, Decision) {
    if IsBlocked(out) then (m, FailWith(WriterBlocked(BlockedText(out))))
    else (Keep(m, WriterCode, out), Goto(Review, Some(out), None))
  }

  function JudgeReview(w: World, m: Machine, out: string): (Machine, Decision) {
    if w.parse(out).None? then (m, Retry)
    else
      var parsed := w.parse(out).value;
      var m1 := Keep(m, ReviewDoc, out);
      if parsed.verdict == Approved then (m1, Goto(Test, None, Some(out)))
      else if parsed.verdict == Rejected then
        if !HasFixItems(parsed) then (m1, FailWith(ReviewRejectedWithoutForFixer))
        else
          var m2 := m1.(task := BumpLoop(m1.task, ReviewFix));
          if LoopCount(m2.task, ReviewFix) > MAX_REVIEW_FIX_LOOPS then (m2, FailWith(ReviewFixLoopExceeded))
          else (m2, Goto(Fix, None, Some(out)))
      else (m1, Retry)
  }

  function JudgeTest(m: Machine, out: string): (Machine, Decision) {
    if IsBlocked(out) then (m, FailWith(TesterBlocked(BlockedText(out))))
    else (Keep(m, TestDoc, out), Goto(Qa, None, None))
  }

  function JudgeQa(w: World, m: Machine, out: string): (Machine, Decision) {
    if w.parse(out).None? then (m, Retry)
    else
      var parsed := w.parse(out).value;
      var m1 := Keep(m, QaDoc, out);
      if parsed.verdict == Passed then RunHook(w, m1)
      else if parsed.verdict == Failed then
        if !HasFixItems(parsed) then (m1, FailWith(QaFailedWithoutForFixer))
        else
          var m2 := m1.(task := BumpLoop(m1.task, QaFix));
          if LoopCount(m2.task, QaFix) > MAX_QA_FIX_LOOPS then (m2, FailWith(QaFixLoopExceeded))
          else (m2, Goto(Fix, None, None))
      else (m1, Retry)
  }

  /** The optional runtime validation, right after the call that made QA pass. */
  function RunHook(w: World, m: Machine): (Machine, Decision) {
    if w.hook.None? || m.trace == [] then (m, Goto(Success, None, None))
    else
      var k := |m.trace| - 1;
      var reply := w.hook.value(k);
      var m1 := m.(trace := m.trace[k := m.trace[k].(hook := Some(HookCall(m.task.artifacts, reply)))]);
      match reply
      case HookRaised => (m1, FailWith(RuntimeValidatorException))
      case NoReport => (m1, Goto(Success, None, None))
      case ReportOk => (m1, Goto(Success, None, None))
      case ReportWithoutOk => (m1, FailWith(RuntimeValidatorInvalidReport))
      case ReportFailed(summary, review) =>
        var m2 := m1.(task := BumpLoop(m1.task, QaFix));
        if LoopCount(m2.task, QaFix) > MAX_QA_FIX_LOOPS then (m2, FailWith(RuntimeFixLoopExceeded(Take(summary, 120))))
        else (m2, Goto(Fix, None, Some(review)))
  }

  function JudgeFix(m: Machine, out: string): (Machine, Decision) {
    if IsBlocked(out) then (m, FailWith(FixerBlocked(BlockedText(out))))
    else (Keep(m, FixCode, out), Goto(Review, Some(out), None))
  }

  /** What a state makes of its agent's non-blank answer. */
  function Judge(w: World, m: Machine, out: string): (Machine, Decision)
    requires HasHandler(m.state)
  {
    match m.state
    case Planning => JudgeJson(w, m, out, PlanningDoc, Pm)
    case Pm => JudgeJson(w, m, out, PmDoc, Architect)
    case Architect => JudgeJson(w, m, out, ArchitectDoc, Writer)
    case Writer => JudgeWriter(m, out)
    case Review => JudgeReview(w, m, out)
    case Test => JudgeTest(m, out)
    case Qa => JudgeQa(w, m, out)
    case Fix => JudgeFix(m, out)
  }

  function Handle(c: Config, w: World, id: string, m: Machine): (Machine, HandlerResult)
    requires HasHandler(m.state)
  {
    var m1 := Invoke(c, w, id, m, AgentOf(m.state), Inputs(w, m));
    match w.agent(|m.trace|)
    case Raised => (m1, HandlerRaised)
    case NoneReply => (m1, Decided(Retry))
    case Text(out) =>
      if IsBlank(out) then (m1, Decided(Retry))
      else
        var (m2, decision) := Judge(w, m1, out);
        (m2, Decided(decision))
  }

  // ----- The driver ---------------------------------------------------------------------

  function LimitReason(c: Config, id: string, m: Machine): Option<Reason> {
    var steps, calls := |m.task.transitions|, |m.task.agentCalls|;
    if c.maxSteps.Some? && steps > c.maxSteps.value then Some(MaxTotalStepsExceeded(steps))
    else if c.maxCalls.Some? && calls > c.maxCalls.value then Some(MaxTotalAgentCallsExceeded(calls))
    else BudgetReason(c, id, m)
  }

  function BudgetReason(c: Config, id: string, m: Machine): Option<Reason> {
    if c.budget.None? || !c.sink.InMemorySink? then None
    else
      var spent := Obs.TaskCost(m.ledger, id);
      if spent > c.budget.value then Some(CostBudgetExceeded(spent)) else None
  }

  function TerminalFor(s: State): State {
    if s.Idle? || s.Planning? || s.Pm? || s.Architect? || s.Writer? then Blocked else Fail
  }

  function Record(m: Machine, next: State): Machine {
    m.(task := m.task.(transitions := m.task.transitions + [TransitionRecord(m.state, next)]))
  }

  function Terminate(m: Machine, reason: Reason): RunResult {
    var terminal := TerminalFor(m.state);
    if CanTransition(m.state, terminal) then RunResult(terminal, Some(reason), Record(m, terminal))
    else RunResult(m.state, Some(reason), m)
  }

  function RetryCount(m: Machine): nat {
    if m.state in m.scratch.stateRetry then m.scratch.stateRetry[m.state] else 0
  }

  function Enter(m: Machine, next: State, code: Option<string>, review: Option<string>): Machine {
    var s := m.scratch;
    Record(m, next).(
      state := next,
      scratch := Scratch(if code.Some? then code else s.latestCode,
                         if review.Some? then review else s.latestReview,
                         s.stateRetry[next := 0]))
  }

  /** One turn of the driver's loop. */
  function Step(c: Config, w: World, id: string, m: Machine): StepResult
    requires HasHandler(m.state)
  {
    var limit := LimitReason(c, id, m);
    if limit.Some? then Stop(Terminate(m, limit.value))
    else
      var (m1, outcome) := Handle(c, w, id, m);
      match outcome
      case HandlerRaised => Stop(Terminate(m1, AgentException))
      case Decided(FailWith(reason)) => Stop(Terminate(m1, reason))
      case Decided(Retry) =>
        var n := RetryCount(m1) + 1;
        var m2 := m1.(scratch := m1.scratch.(stateRetry := m1.scratch.stateRetry[m1.state := n]));
        if n > STATE_MAX_RETRY then Stop(Terminate(m2, StateRetryExceeded(m2.state))) else Next(m2)
      case Decided(Goto(next, code, review)) =>
        if !CanTransition(m1.state, next) then
          Stop(Terminate(m1, InvalidTransitionDecision(m1.state, next)))
        else Next(Enter(m1, next, code, review))
  }

  // ----- What a handler can do ------------------------------------------------------------

  /** The edges a handler can ask for. TEST to FIX is in the table but is never asked for. */
  predicate Asked(s: State, next: State) {
    match s
    case Planning => next == Pm
    case Pm => next == Architect
    case Architect => next == Writer
    case Writer => next == Review
    case Review => next == Test || next == Fix
    case Test => next == Qa
    case Qa => next == Success || next == Fix
    case Fix => next == Review
    case _ => false
  }

  /** The kind under which an agent's answer is kept. */
  function KindOf(a: Agent): Kind {
    match a
    case Planner => PlanningDoc
    case PmAgent => PmDoc
    case ArchitectAgent => ArchitectDoc
    case WriterAgent => WriterCode
    case Reviewer => ReviewDoc
    case Tester => TestDoc
    case QaAgent => QaDoc
    case Fixer => FixCode
  }

  predicate AnswersJson(a: Agent) {
    !a.WriterAgent? && !a.Tester? && !a.Fixer?
  }

  /** The answer is one its agent's kind of artifact may hold. */
  predicate Usable(w: World, rec: CallRecord) {
    && rec.reply.Text? && !IsBlank(rec.reply.text)
    && (if AnswersJson(rec.agent) then w.parse(rec.reply.text).Some? else !IsBlocked(rec.reply.text))
  }

  function VerdictOf(w: World, rec: CallRecord): Verdict {
    if rec.reply.Text? && w.parse(rec.reply.text).Some? then w.parse(rec.reply.text).value.verdict else OtherVerdict
  }

  /** An answer that makes the driver ask the same agent again: none, blank, not the
      JSON object it should be, or a JSON object without a known verdict. */
  predicate Malformed(w: World, rec: CallRecord) {
    match rec.reply
    case Raised => false
    case NoneReply => true
    case Text(out) =>
      || IsBlank(out)
      || (AnswersJson(rec.agent) && w.parse(out).None?)
      || (rec.agent.Reviewer? && VerdictOf(w, rec) != Approved && VerdictOf(w, rec) != Rejected)
      || (rec.agent.QaAgent? && VerdictOf(w, rec) != Passed && VerdictOf(w, rec) != Failed)
  }

  /** The hook did not object: there is none, it had nothing to say, or it said ok. */
  predicate HookPassed(w: World, rec: CallRecord) {
    if w.hook.None? then rec.hook.None?
    else rec.hook.Some? && (rec.hook.value.reply.NoReport? || rec.hook.value.reply.ReportOk?)
  }

  /** QA leads to FIX by its own FAIL, which leaves the current review as it is, or by a
      failing report of the hook, which replaces the review. */
  predicate QaSentBack(w: World, rec: CallRecord, before: Option<string>, after: Option<string>) {
    match rec.hook
    case None => VerdictOf(w, rec) == Failed && after == before
    case Some(h) => VerdictOf(w, rec) == Passed && h.reply.ReportFailed? && after == Some(h.reply.review)
  }

  /** The loop counter an edge into FIX belongs to, and its limit. */
  function LoopOf(s: State): Loop {
    if s == Review then ReviewFix else QaFix
  }

  function LoopLimit(s: State): nat {
    if s == Review then MAX_REVIEW_FIX_LOOPS else MAX_QA_FIX_LOOPS
  }

  /** How the newest call's record determines the decision, the kept artifact and the
      loop counters; m is a state before the decision, m1 the one it leads to. */
  ghost predicate Decides(w: World, m: Machine, m1: Machine, d: Decision)
    requires HasHandler(m.state) && m1.trace != []
  {
    var rec := m1.trace[|m1.trace| - 1];
    var out := if rec.reply.Text? then rec.reply.text else "";
    && m1.state == m.state && m1.scratch == m.scratch
    && m1.task.rawTask == m.task.rawTask && m1.task.transitions == m.task.transitions
    && m1.task.artifacts ==
       (if Usable(w, rec) then StoreFirst(m.task, KindOf(AgentOf(m.state)), out).artifacts else m.task.artifacts)
    && (d.Retry? <==> Malformed(w, rec))
    && match d
       case Retry => m1.task.loopCounters == m.task.loopCounters
       case FailWith(_) => true
       case Goto(next, code, review) =>
         && Asked(m.state, next) && Usable(w, rec)
         && code == (if m.state == Writer || m.state == Fix then Some(out) else None)
         && (m.state == Review ==> review == Some(out))
         && (m.state != Review && m.state != Qa ==> review == None)
         && (next == Test ==> VerdictOf(w, rec) == Approved)
         && (m.state == Review && next == Fix ==> VerdictOf(w, rec) == Rejected)
         && (m.state == Qa && next == Fix ==> QaSentBack(w, rec, None, review))
         && (next == Success ==> VerdictOf(w, rec) == Passed && HookPassed(w, rec))
         && m1.task.loopCounters ==
            (if next == Fix then BumpLoop(m.task, LoopOf(m.state)).loopCounters else m.task.loopCounters)
         && (next == Fix ==> LoopCount(m1.task, LoopOf(m.state)) <= LoopLimit(m.state))
  }

  /** A state's agent has just given a non-blank answer, and nothing else has happened. */
  ghost predicate JustAnswered(m: Machine, out: string) {
    && HasHandler(m.state) && m.trace != [] && !IsBlank(out)
    && var rec := m.trace[|m.trace| - 1];
       rec.agent == AgentOf(m.state) && rec.reply == Text(out) && rec.hook.None?
  }

  ghost predicate Judged(w: World, m: Machine, m1: Machine, d: Decision)
    requires HasHandler(m.state) && m.trace != []
  {
    var n := |m.trace| - 1;
    && |m1.trace| == n + 1 && m1.trace[..n] == m.trace[..n]
    && m1.trace[n] == m.trace[n].(hook := m1.trace[n].hook)
    && m1.ledger == m.ledger && m1.task.agentCalls == m.task.agentCalls
    && Decides(w, m, m1, d)
  }

  lemma JudgeJsonShape(w: World, m: Machine, out: string, kind: Kind, next: State)
    requires JustAnswered(m, out) && (m.state == Planning || m.state == Pm || m.state == Architect)
    requires kind == KindOf(AgentOf(m.state)) && Asked(m.state, next)
    ensures var (m1, d) := JudgeJson(w, m, out, kind, next); Judged(w, m, m1, d)
  {
    hide IsBlank, IsBlocked, BlockedText;
  }

  lemma JudgeCodeShape(w: World, m: Machine, out: string)
    requires JustAnswered(m, out) && (m.state == Writer || m.state == Fix || m.state == Test)
    ensures var (m1, d) := if m.state == Writer then JudgeWriter(m, out)
                           else if m.state == Fix then JudgeFix(m, out)
                           else JudgeTest(m, out);
            Judged(w, m, m1, d)
  {
    hide IsBlank, IsBlocked, BlockedText;
  }

  /** A rejection kept as an artifact and counted against a loop limit. */
  lemma SentBackShape(w: World, m: Machine, out: string, d: Decision)
    requires JustAnswered(m, out) && (m.state == Review || m.state == Qa)
    requires var rec := m.trace[|m.trace| - 1];
             Usable(w, rec) && !Malformed(w, rec)
                 && VerdictOf(w, rec) == (if m.state == Review then Rejected else Failed)
    requires d.FailWith? ||
             (d == Goto(Fix, None, if m.state == Review then Some(out) else None)
              && LoopCount(BumpLoop(m.task, LoopOf(m.state)), LoopOf(m.state)) <= LoopLimit(m.state))
    ensures var m1 := m.(task := BumpLoop(StoreFirst(m.task, KindOf(AgentOf(m.state)), out), LoopOf(m.state)));
            Judged(w, m, m1, d)
  {
    hide IsBlank, Usable, Malformed, VerdictOf;
  }

  lemma ReviewRejects(w: World, m: Machine, out: string)
    requires JustAnswered(m, out) && m.state == Review
    requires w.parse(out).Some? && w.parse(out).value.verdict == Rejected && HasFixItems(w.parse(out).value)
    ensures var (m1, d) := JudgeReview(w, m, out); Judged(w, m, m1, d)
  {
    hide IsBlank, Judged;
    SentBackShape(w, m, out, JudgeReview(w, m, out).1);
  }

  lemma QaFails(w: World, m: Machine, out: string)
    requires JustAnswered(m, out) && m.state == Qa
    requires w.parse(out).Some? && w.parse(out).value.verdict == Failed && HasFixItems(w.parse(out).value)
    ensures var (m1, d) := JudgeQa(w, m, out); Judged(w, m, m1, d)
  {
    hide IsBlank, Judged, RunHook;
    SentBackShape(w, m, out, JudgeQa(w, m, out).1);
  }

  lemma JudgeReviewShape(w: World, m: Machine, out: string)
    requires JustAnswered(m, out) && m.state == Review
    ensures var (m1, d) := JudgeReview(w, m, out); Judged(w, m, m1, d)
  {
    hide IsBlank, IsBlocked;
    if w.parse(out).Some? && w.parse(out).value.verdict == Rejected && HasFixItems(w.parse(out).value) {
      ReviewRejects(w, m, out);
      hide Judged;
    } else {
      hide LoopCount, BumpLoop;
    }
  }

  /** The hook's answer is noted on the QA call and decides alone. */
  lemma RunHookShape(w: World, m: Machine)
    requires m.state == Qa && m.trace != []
    requires var rec := m.trace[|m.trace| - 1]; VerdictOf(w, rec) == Passed && rec.hook.None?
    ensures var (m1, d) := RunHook(w, m);
            var n := |m.trace| - 1;
            && |m1.trace| == n + 1 && m1.trace[..n] == m.trace[..n]
            && m1.trace[n] == m.trace[n].(hook := m1.trace[n].hook)
            && m1 == m.(trace := m1.trace, task := m.task.(loopCounters := m1.task.loopCounters))
            && match d
               case Retry => false
               case FailWith(_) => true
               case Goto(next, code, review) =>
                 && code == None
                 && (|| (next == Success && HookPassed(w, m1.trace[n]) && m1.task == m.task)
                     || (next == Fix && QaSentBack(w, m1.trace[n], None, review)
                         && m1.task == BumpLoop(m.task, QaFix) && LoopCount(m1.task, QaFix) <= MAX_QA_FIX_LOOPS))
  {
    hide LoopCount;
  }

  lemma PassedShape(w: World, m: Machine, out: string)
    requires JustAnswered(m, out) && m.state == Qa
    requires w.parse(out).Some? && w.parse(out).value.verdict == Passed
    ensures var (m1, d) := RunHook(w, Keep(m, QaDoc, out)); Judged(w, m, m1, d)
  {
    hide IsBlank, IsBlocked, RunHook;
    RunHookShape(w, Keep(m, QaDoc, out));
    hide HookPassed, QaSentBack;
  }

  lemma JudgeQaShape(w: World, m: Machine, out: string)
    requires JustAnswered(m, out) && m.state == Qa
    ensures var (m1, d) := JudgeQa(w, m, out); Judged(w, m, m1, d)
  {
    hide IsBlank, IsBlocked, RunHook;
    if w.parse(out).Some? && w.parse(out).value.verdict == Passed {
      PassedShape(w, m, out);
      hide Judged;
    } else if w.parse(out).Some? && w.parse(out).value.verdict == Failed && HasFixItems(w.parse(out).value) {
      QaFails(w, m, out);
      hide Judged;
    } else {
      hide LoopCount, BumpLoop;
    }
  }

  lemma JudgeShape(w: World, m: Machine, out: string)
    requires JustAnswered(m, out)
    ensures var (m1, d) := Judge(w, m, out); Judged(w, m, m1, d)
  {
    hide JudgeJson, JudgeWriter, JudgeReview, JudgeTest, JudgeQa, JudgeFix, Judged;
    match m.state
    case Planning => JudgeJsonShape(w, m, out, PlanningDoc, Pm);
    case Pm => JudgeJsonShape(w, m, out, PmDoc, Architect);
    case Architect => JudgeJsonShape(w, m, out, ArchitectDoc, Writer);
    case Writer => JudgeCodeShape(w, m, out);
    case Review => JudgeReviewShape(w, m, out);
    case Test => JudgeCodeShape(w, m, out);
    case Qa => JudgeQaShape(w, m, out);
    case Fix => JudgeCodeShape(w, m, out);
  }

  /** One turn calls the state's own agent once, on its own inputs, records the call and
      its cost, and then decides by the answer alone. */
  ghost predicate Handled(c: Config, w: World, id: string, m: Machine, m1: Machine, outcome: HandlerResult)
    requires HasHandler(m.state)
  {
    var n := |m.trace|;
    && |m1.trace| == n + 1 && m1.trace[..n] == m.trace
    && m1.trace[n] == CallRecord(AgentOf(m.state), Inputs(w, m), w.agent(n), m1.trace[n].hook, |m.ledger|)
    && m1.task.agentCalls == m.task.agentCalls + [AgentName(AgentOf(m.state))]
    && m1.ledger == (if c.sink.NoObservability? then m.ledger
                     else Obs.Recorded(m.ledger, LedgerEntry(w, id, AgentOf(m.state), w.agent(n), n)))
    && (outcome.HandlerRaised? <==> m1.trace[n].reply.Raised?)
    && (outcome.HandlerRaised? ==>
          m1.task == m.task.(agentCalls := m1.task.agentCalls) && m1.state == m.state && m1.scratch == m.scratch)
    && (outcome.Decided? ==> Decides(w, m, m1, outcome.decision))
  }

  lemma DecidesFrom(w: World, m: Machine, m0: Machine, m1: Machine, d: Decision)
    requires HasHandler(m.state) && m0.state == m.state && m0.scratch == m.scratch
    requires m1.trace != [] && Decides(w, m0, m1, d)
    requires m0.task == m.task.(agentCalls := m0.task.agentCalls)
    ensures Decides(w, m, m1, d)
  {
    hide Usable, Malformed, VerdictOf, HookPassed, QaSentBack, KindOf, AgentOf;
  }

  lemma HandleShape(c: Config, w: World, id: string, m: Machine)
    requires HasHandler(m.state)
    ensures var (m1, outcome) := Handle(c, w, id, m); Handled(c, w, id, m, m1, outcome)
  {
    var m1 := Invoke(c, w, id, m, AgentOf(m.state), Inputs(w, m));
    var reply := w.agent(|m.trace|);
    if reply.Text? && !IsBlank(reply.text) {
      JudgeShape(w, m1, reply.text);
      var (m2, d) := Judge(w, m1, reply.text);
      DecidesFrom(w, m, m1, m2, d);
      assert m2.trace[..|m.trace|] == m1.trace[..|m.trace|] == m.trace;
      hide Judge, Decides, LedgerEntry, Inputs, IsBlank, IsBlocked, Obs.Recorded, AgentName;
    } else {
      hide LedgerEntry, Inputs, IsBlank, IsBlocked, Obs.Recorded, VerdictOf, HookPassed, QaSentBack, AgentName, Judge;
    }
  }

  // ----- One turn of the loop, seen from outside ------------------------------------------

  /** The turn made one call, recorded it with its cost, and kept its answer if it may. */
  ghost predicate Recorded(c: Config, w: World, id: string, m: Machine, m': Machine)
    requires HasHandler(m.state)
  {
    var n := |m.trace|;
    && |m'.trace| == n + 1 && m'.trace[..n] == m.trace
    && m'.trace[n] == CallRecord(AgentOf(m.state), Inputs(w, m), w.agent(n), m'.trace[n].hook, |m.ledger|)
    && m'.task.agentCalls == m.task.agentCalls + [AgentName(AgentOf(m.state))]
    && m'.task.rawTask == m.task.rawTask
    && m'.task.artifacts ==
       (if Usable(w, m'.trace[n]) then StoreFirst(m.task, KindOf(AgentOf(m.state)), m'.trace[n].reply.text).artifacts
        else m.task.artifacts)
    && m'.ledger == (if c.sink.NoObservability? then m.ledger
                     else Obs.Recorded(m.ledger, LedgerEntry(w, id, AgentOf(m.state), w.agent(n), n)))
  }

  /** After a malformed answer the same agent is asked again, a limited number of times. */
  ghost predicate AskedAgain(m: Machine, m': Machine) {
    && m'.state == m.state
    && m'.task.transitions == m.task.transitions && m'.task.loopCounters == m.task.loopCounters
    && m'.scratch.latestCode == m.scratch.latestCode && m'.scratch.latestReview == m.scratch.latestReview
    && RetryCount(m') == RetryCount(m) + 1 <= STATE_MAX_RETRY
  }

  /** After a good answer the driver moves along one edge. */
  ghost predicate Moved(w: World, m: Machine, m': Machine, rec: CallRecord) {
    var next := m'.state;
    && Asked(m.state, next) && CanTransition(m.state, next)
    && Usable(w, rec)
    && m'.task.transitions == m.task.transitions + [TransitionRecord(m.state, next)]
    && RetryCount(m') == 0
    && m'.scratch.latestCode ==
       (if m.state == Writer || m.state == Fix then Some(rec.reply.text) else m.scratch.latestCode)
    && (m.state == Review ==> m'.scratch.latestReview == Some(rec.reply.text))
    && (m.state != Review && m.state != Qa ==> m'.scratch.latestReview == m.scratch.latestReview)
    && (next == Test ==> VerdictOf(w, rec) == Approved)
    && (m.state == Review && next == Fix ==> VerdictOf(w, rec) == Rejected)
    && (m.state == Qa && next == Fix ==>
          QaSentBack(w, rec, m.scratch.latestReview, m'.scratch.latestReview))
    && (next == Success ==> VerdictOf(w, rec) == Passed && HookPassed(w, rec))
    && (if next == Fix then
          && m'.task.loopCounters == BumpLoop(m.task, LoopOf(m.state)).loopCounters
          && LoopCount(m'.task, LoopOf(m.state)) <= LoopLimit(m.state)
        else m'.task.loopCounters == m.task.loopCounters)
  }

  ghost predicate Turn(c: Config, w: World, id: string, m: Machine, m': Machine)
    requires HasHandler(m.state)
  {
    && LimitReason(c, id, m).None?
    && Recorded(c, w, id, m, m')
    && var rec := m'.trace[|m.trace|];
       if Malformed(w, rec) then AskedAgain(m, m') else Moved(w, m, m', rec)
  }

  /** The run ends here: the last edge leads to the state's own failure state. */
  ghost predicate Halted(c: Config, w: World, id: string, m: Machine, r: RunResult)
    requires HasHandler(m.state)
  {
    var m' := r.machine;
    && r.finalState == TerminalFor(m.state) && r.failureReason.Some?
    && m'.task.transitions == m.task.transitions + [TransitionRecord(m.state, TerminalFor(m.state))]
    && m'.scratch.latestCode == m.scratch.latestCode
    && (if LimitReason(c, id, m).Some? then
          && m' == Record(m, TerminalFor(m.state))
          && r.failureReason == LimitReason(c, id, m)
        else
          && Recorded(c, w, id, m, m')
          && !r.failureReason.value.MaxTotalAgentCallsExceeded?
          && !r.failureReason.value.MaxTotalStepsExceeded?
          && !r.failureReason.value.CostBudgetExceeded?)
  }

  /** What a turn records does not depend on what the driver then does with its own state. */
  lemma RecordedKept(c: Config, w: World, id: string, m: Machine, m1: Machine, m2: Machine)
    requires HasHandler(m.state) && Recorded(c, w, id, m, m1)
    requires m2.trace == m1.trace && m2.ledger == m1.ledger
    requires m2.task.agentCalls == m1.task.agentCalls && m2.task.rawTask == m1.task.rawTask
    requires m2.task.artifacts == m1.task.artifacts
    ensures Recorded(c, w, id, m, m2)
  {
    hide Usable, Inputs, LedgerEntry, Obs.Recorded, AgentName, KindOf, StoreFirst;
  }

  lemma MovesOn(w: World, m: Machine, m1: Machine, d: Decision)
    requires HasHandler(m.state) && m1.trace != [] && d.Goto? && Decides(w, m, m1, d)
    ensures var rec := m1.trace[|m1.trace| - 1];
            && !Malformed(w, rec) && CanTransition(m1.state, d.next)
            && Moved(w, m, Enter(m1, d.next, d.latestCode, d.latestReview), rec)
  {
    var rec := m1.trace[|m1.trace| - 1];
    var before := m.scratch.latestReview;
    assert QaSentBack(w, rec, None, d.latestReview) ==>
        QaSentBack(w, rec, before, if d.latestReview.Some? then d.latestReview else before);
    hide Malformed, VerdictOf, HookPassed, QaSentBack, IsBlank, IsBlocked, StoreFirst, KindOf, BumpLoop, LoopLimit;
  }

  lemma GotoTurns(c: Config, w: World, id: string, m: Machine, m1: Machine, d: Decision)
    requires HasHandler(m.state) && LimitReason(c, id, m).None? && Recorded(c, w, id, m, m1)
    requires d.Goto? && Decides(w, m, m1, d)
    ensures CanTransition(m1.state, d.next)
    ensures Turn(c, w, id, m, Enter(m1, d.next, d.latestCode, d.latestReview))
  {
    MovesOn(w, m, m1, d);
    var m2 := Enter(m1, d.next, d.latestCode, d.latestReview);
    assert m1.trace[|m1.trace| - 1] == m2.trace[|m.trace|];
    RecordedKept(c, w, id, m, m1, m2);
    hide Moved, Recorded, Malformed, Decides, LimitReason, CanTransition, Enter;
  }

  lemma RetryTurns(c: Config, w: World, id: string, m: Machine, m1: Machine, n: nat)
    requires HasHandler(m.state) && LimitReason(c, id, m).None? && Recorded(c, w, id, m, m1)
    requires Decides(w, m, m1, Retry) && n == RetryCount(m1) + 1
    ensures var m2 := m1.(scratch := m1.scratch.(stateRetry := m1.scratch.stateRetry[m1.state := n]));
            && Recorded(c, w, id, m, m2)
            && (n <= STATE_MAX_RETRY ==> Turn(c, w, id, m, m2))
  {
    var m2 := m1.(scratch := m1.scratch.(stateRetry := m1.scratch.stateRetry[m1.state := n]));
    RecordedKept(c, w, id, m, m1, m2);
    assert m1.trace[|m1.trace| - 1] == m2.trace[|m.trace|];
    hide Moved, Recorded, Malformed, Usable, VerdictOf, AgentName, KindOf, AgentOf, StoreFirst, LimitReason;
  }

  lemma TerminateHalts(c: Config, w: World, id: string, m: Machine, m1: Machine, reason: Reason)
    requires HasHandler(m.state) && LimitReason(c, id, m).None?
    requires Recorded(c, w, id, m, m1)
    requires m1.state == m.state && m1.task.transitions == m.task.transitions
    requires m1.scratch.latestCode == m.scratch.latestCode
    requires !reason.MaxTotalAgentCallsExceeded? && !reason.MaxTotalStepsExceeded? && !reason.CostBudgetExceeded?
    ensures Halted(c, w, id, m, Terminate(m1, reason))
  {
    hide Usable, Inputs, LedgerEntry, Obs.Recorded, AgentName, KindOf, AgentOf, StoreFirst, LimitReason;
  }

  lemma StepTurns(c: Config, w: World, id: string, m: Machine)
    requires HasHandler(m.state)
    ensures match Step(c, w, id, m)
            case Next(m') => Turn(c, w, id, m, m')
            case Stop(r) => Halted(c, w, id, m, r)
  {
    if LimitReason(c, id, m).None? {
      HandleShape(c, w, id, m);
      HandleReasons(c, w, id, m);
      var (m1, outcome) := Handle(c, w, id, m);
      assert Recorded(c, w, id, m, m1) by {
        hide Handle, Inputs, LedgerEntry, Obs.Recorded, KindOf, StoreFirst, AgentName, Malformed, VerdictOf,
          HookPassed;
      }
      assert outcome.Decided? ==> Decides(w, m, m1, outcome.decision);
      hide Handle, LimitReason, Turn, Halted, Recorded, CanTransition, Enter, Malformed, Usable, VerdictOf, HookPassed,
        QaSentBack, StoreFirst, BumpLoop, LoopCount, Terminate;
      match outcome
      case HandlerRaised => TerminateHalts(c, w, id, m, m1, AgentException);
      case Decided(FailWith(reason)) => TerminateHalts(c, w, id, m, m1, reason);
      case Decided(Retry) =>
        var n := RetryCount(m1) + 1;
        RetryTurns(c, w, id, m, m1, n);
        if n > STATE_MAX_RETRY {
          var m2 := m1.(scratch := m1.scratch.(stateRetry := m1.scratch.stateRetry[m1.state := n]));
          TerminateHalts(c, w, id, m, m2, StateRetryExceeded(m2.state));
        }
      case Decided(Goto(_, _, _)) => GotoTurns(c, w, id, m, m1, outcome.decision);
    }
  }

  /** The global limits are the driver's own reasons; no handler gives them. */
  lemma HandleReasons(c: Config, w: World, id: string, m: Machine)
    requires HasHandler(m.state)
    ensures var (m1, outcome) := Handle(c, w, id, m);
            outcome.Decided? && outcome.decision.FailWith? ==>
              && !outcome.decision.reason.MaxTotalAgentCallsExceeded?
              && !outcome.decision.reason.MaxTotalStepsExceeded?
              && !outcome.decision.reason.CostBudgetExceeded?
  {
    hide IsBlank, IsBlocked, BlockedText, Invoke, Keep, BumpLoop;
  }

  // ----- Termination --------------------------------------------------------------------

  function FixBudget(t: TaskState): nat {
    var review, qa := MAX_REVIEW_FIX_LOOPS - LoopCount(t, ReviewFix), MAX_QA_FIX_LOOPS - LoopCount(t, QaFix);
    (if review > 0 then review else 0) + (if qa > 0 then qa else 0)
  }

  /** How far a state is from the end when no fix loop is taken. */
  function Distance(s: State): nat {
    match s
    case Idle => 9 case Planning => 8 case Pm => 7 case Architect => 6 case Writer => 5
    case Fix => 4 case Review => 3 case Test => 2 case Qa => 1
    case Success => 0 case Fail => 0 case Blocked => 0
  }

  function RetriesLeft(m: Machine): nat {
    if RetryCount(m) <= STATE_MAX_RETRY then STATE_MAX_RETRY + 1 - RetryCount(m) else 0
  }

  /** Whatever the oracles answer and whatever the limits are, a turn that goes on
      spends a fix loop, or moves towards the end, or uses up a retry. */
  lemma StepDecreases(c: Config, w: World, id: string, m: Machine)
    requires HasHandler(m.state) && Step(c, w, id, m).Next?
    ensures var m' := Step(c, w, id, m).machine;
            || FixBudget(m'.task) < FixBudget(m.task)
            || (FixBudget(m'.task) == FixBudget(m.task) && Distance(m'.state) < Distance(m.state))
            || (FixBudget(m'.task) == FixBudget(m.task) && m'.state == m.state && RetriesLeft(m') < RetriesLeft(m))
    ensures var m' := Step(c, w, id, m).machine; HasHandler(m'.state) || m'.state == Success
  {
    hide Step, LimitReason, Recorded, Malformed, Usable, VerdictOf, HookPassed, QaSentBack, CanTransition;
    StepTurns(c, w, id, m);
    var m' := Step(c, w, id, m).machine;
    if m'.state == Fix && m.state != Fix {
      var l := LoopOf(m.state);
      assert LoopCount(m'.task, l) == LoopCount(m.task, l) + 1 <= LoopLimit(m.state);
    } else {
      assert FixBudget(m'.task) == FixBudget(m.task);
    }
  }

  /** The loop from a state with a handler, or from its end. */
  function DriveFrom(c: Config, w: World, id: string, m: Machine): RunResult
    requires HasHandler(m.state) || IsTerminal(m.state)
    decreases FixBudget(m.task), Distance(m.state), RetriesLeft(m)
  {
    if IsTerminal(m.state) then
      RunResult(m.state, if m.state == Success then None else Some(Terminated(m.state)), m)
    else
      match Step(c, w, id, m)
      case Stop(r) => r
      case Next(m') =>
        StepDecreases(c, w, id, m);
        DriveFrom(c, w, id, m')
  }

  /** The run's state when the loop is entered: the task has just been created and
      seeded, and the step from IDLE to PLANNING is recorded. */
  function Start(raw: string, seeds: map<Kind, string>, ledger: seq<Obs.AgentCallRecord>): Machine {
    Machine(Planning,
            TaskState(raw, seeds, [TransitionRecord(Idle, Planning)], [], map[]),
            Scratch(None, None, map[Planning := 0]),
            [], ledger)
  }

  function Drive(c: Config, w: World, id: string, raw: string, seeds: map<Kind, string>,
                 ledger: seq<Obs.AgentCallRecord>): RunResult
  {
    DriveFrom(c, w, id, Start(raw, seeds, ledger))
  }
}
