/** The pipeline driver in its own, imperative form (core/orchestrator.py): handlers that
    write memory and read the run's scratch, and the loop that updates state and scratch.
    Every method is proved to do what module `Pipeline` says. */
module Orchestrator {
  import opened Wrappers
  import opened Strings
  import opened Fsm
  import opened Memory
  import opened Pipeline
  import opened PipelineTheorems
  import opened PipelineVetting
  import Obs = Observability

  lemma AgentNamesHaveText(a: Agent)
    ensures !IsBlank(AgentName(a))
  {
    BlankIsAllSpaces(AgentName(a));
    assert AgentName(a)[0] in AgentName(a) && !IsSpace(AgentName(a)[0]);
  }

  datatype RunError = RejectedByValidator | Refused(error: Error)

  class Orchestrator {
    const memory: PipelineMemory
    const obs: Obs.Observability?
    const budget: Option<real>
    const validators: seq<string -> bool>
    const world: World
    /** The current run's calls; the oracles in `world` answer by position in it. */
    var trace: seq<CallRecord>

    constructor (memory: PipelineMemory, obs: Obs.Observability?, budget: Option<real>,
                 validators: seq<string -> bool>, world: World)
      ensures this.memory == memory && this.obs == obs && this.budget == budget
      ensures this.validators == validators && this.world == world
    {
      this.memory := memory;
      this.obs := obs;
      this.budget := budget;
      this.validators := validators;
      this.world := world;
      trace := [];
    }

    function Cfg(): Config {
      Config(if obs == null then NoObservability else if obs.inMemory then InMemorySink else OtherSink,
             budget, Some(MAX_TOTAL_STEPS), Some(MAX_TOTAL_AGENT_CALLS))
    }

    function Ledger(): seq<Obs.AgentCallRecord>
      reads obs
    {
      if obs == null then [] else obs.calls
    }

    /** The run's state as `Pipeline` sees it. */
    ghost function Abs(id: string, state: State, scratch: Scratch): Machine
      requires id in memory.tasks
      reads this, memory, obs
    {
      Machine(state, memory.tasks[id], scratch, trace, Ledger())
    }

    method RecordCall(id: string, agent: Agent)
      requires id in memory.tasks
      modifies memory
      ensures var t := old(memory.tasks)[id];
              memory.tasks == old(memory.tasks)[id := t.(agentCalls := t.agentCalls + [AgentName(agent)])]
    {
      AgentNamesHaveText(agent);
      hide AgentName, IsBlank;
      var error := memory.RecordAgentCall(id, AgentName(agent));
    }

    method Invoke(id: string, agent: Agent, args: seq<string>, ghost state: State, ghost scratch: Scratch)
      returns (reply: AgentReply)
      requires id in memory.tasks
      modifies this, memory, obs
      ensures id in memory.tasks && memory.tasks == old(memory.tasks)[id := memory.tasks[id]]
      ensures Abs(id, state, scratch) == Pipeline.Invoke(Cfg(), world, id, old(Abs(id, state, scratch)), agent, args)
      ensures reply == world.agent(old(|trace|))
    {
      hide AgentName, LedgerEntry, Obs.CallError, Strip;
      RecordCall(id, agent);
      var k := |trace|;
      reply := world.agent(k);
      trace := trace + [CallRecord(agent, args, reply, None, |Ledger()|)];
      if obs != null {
        var error := obs.RecordAgentCall(LedgerEntry(world, id, agent, reply, k));
      }
    }

    /** `if get_artifact(...) is None: set_artifact(...)` */
    method KeepFirst(id: string, kind: Kind, out: string)
      requires id in memory.tasks && !IsBlank(out)
      modifies memory
      ensures memory.tasks == old(memory.tasks)[id := StoreFirst(old(memory.tasks)[id], kind, out)]
    {
      ParseKindInverts(KindName(kind), kind);
      hide ParseKind, KindName, IsBlank;
      if kind !in memory.tasks[id].artifacts {
        var error := memory.SetArtifact(id, KindName(kind), out);
      } else {
        assert memory.tasks == memory.tasks[id := memory.tasks[id]];
      }
    }

    method CountLoop(id: string, loop: Loop) returns (count: int)
      requires id in memory.tasks
      modifies memory
      ensures memory.tasks == old(memory.tasks)[id := BumpLoop(old(memory.tasks)[id], loop)]
      ensures count == LoopCount(memory.tasks[id], loop)
    {
      ParseLoopInverts(LoopName(loop), loop);
      hide ParseLoop, LoopName;
      var r := memory.IncrementLoop(id, LoopName(loop));
      return r.value;
    }

    method RecordEdge(id: string, f: State, t: State)
      requires id in memory.tasks && CanTransition(f, t)
      modifies memory
      ensures var task := old(memory.tasks)[id];
              memory.tasks == old(memory.tasks)[id := task.(transitions := task.transitions + [TransitionRecord(f, t)])]
    {
      hide CanTransition;
      var error := memory.RecordTransition(id, f, t);
    }

    // ----- Handlers: one agent call each, then the decision by its answer ----------------

    method HandlePlanning(id: string, scratch: Scratch) returns (r: HandlerResult)
      requires id in memory.tasks
      modifies this, memory, obs
      ensures id in memory.tasks && memory.tasks == old(memory.tasks)[id := memory.tasks[id]]
      ensures (Abs(id, Planning, scratch), r) == Handle(Cfg(), world, id, old(Abs(id, Planning, scratch)))
    {
      hide Pipeline.Invoke, IsBlank, AgentName;
      var rawTask := memory.tasks[id].rawTask;
      var out := Invoke(id, Planner, [rawTask], Planning, scratch);
      match out
      case Raised => return HandlerRaised;
      case NoneReply => return Decided(Retry);
      case Text(text) =>
        if IsBlank(text) || world.parse(text).None? {
          return Decided(Retry);
        }
        KeepFirst(id, PlanningDoc, text);
        return Decided(Goto(Pm, None, None));
    }

    method HandlePm(id: string, scratch: Scratch) returns (r: HandlerResult)
      requires id in memory.tasks
      modifies this, memory, obs
      ensures id in memory.tasks && memory.tasks == old(memory.tasks)[id := memory.tasks[id]]
      ensures (Abs(id, Pm, scratch), r) == Handle(Cfg(), world, id, old(Abs(id, Pm, scratch)))
    {
      hide Pipeline.Invoke, IsBlank, AgentName;
      var input := Artifact(memory.tasks[id], PlanningDoc);
      var out := Invoke(id, PmAgent, [input], Pm, scratch);
      match out
      case Raised => return HandlerRaised;
      case NoneReply => return Decided(Retry);
      case Text(text) =>
        if IsBlank(text) || world.parse(text).None? {
          return Decided(Retry);
        }
        KeepFirst(id, PmDoc, text);
        return Decided(Goto(Architect, None, None));
    }

    method HandleArchitect(id: string, scratch: Scratch) returns (r: HandlerResult)
      requires id in memory.tasks
      modifies this, memory, obs
      ensures id in memory.tasks && memory.tasks == old(memory.tasks)[id := memory.tasks[id]]
      ensures (Abs(id, Architect, scratch), r) == Handle(Cfg(), world, id, old(Abs(id, Architect, scratch)))
    {
      hide Pipeline.Invoke, IsBlank, AgentName;
      var input := Artifact(memory.tasks[id], PmDoc);
      var out := Invoke(id, ArchitectAgent, [input], Architect, scratch);
      match out
      case Raised => return HandlerRaised;
      case NoneReply => return Decided(Retry);
      case Text(text) =>
        if IsBlank(text) || world.parse(text).None? {
          return Decided(Retry);
        }
        KeepFirst(id, ArchitectDoc, text);
        return Decided(Goto(Writer, None, None));
    }

    method HandleWriter(id: string, scratch: Scratch) returns (r: HandlerResult)
      requires id in memory.tasks
      modifies this, memory, obs
      ensures id in memory.tasks && memory.tasks == old(memory.tasks)[id := memory.tasks[id]]
      ensures (Abs(id, Writer, scratch), r) == Handle(Cfg(), world, id, old(Abs(id, Writer, scratch)))
    {
      hide Pipeline.Invoke, IsBlank, IsBlocked, BlockedText, AgentName, ExtractForFixer;
      var arch := Artifact(memory.tasks[id], ArchitectDoc);
      var out := Invoke(id, WriterAgent, [arch], Writer, scratch);
      match out
      case Raised => return HandlerRaised;
      case NoneReply => return Decided(Retry);
      case Text(text) =>
        if IsBlank(text) {
          return Decided(Retry);
        }
        if IsBlocked(text) {
          return Decided(FailWith(WriterBlocked(BlockedText(text))));
        }
        KeepFirst(id, WriterCode, text);
        return Decided(Goto(Review, Some(text), None));
    }

    method HandleReview(id: string, scratch: Scratch) returns (r: HandlerResult)
      requires id in memory.tasks
      modifies this, memory, obs
      ensures id in memory.tasks && memory.tasks == old(memory.tasks)[id := memory.tasks[id]]
      ensures (Abs(id, Review, scratch), r) == Handle(Cfg(), world, id, old(Abs(id, Review, scratch)))
    {
      hide Pipeline.Invoke, IsBlank, AgentName;
      var arch := Artifact(memory.tasks[id], ArchitectDoc);
      var code := CurrentCode(scratch, memory.tasks[id]);
      var out := Invoke(id, Reviewer, [code, arch], Review, scratch);
      match out
      case Raised => return HandlerRaised;
      case NoneReply => return Decided(Retry);
      case Text(text) =>
        if IsBlank(text) || world.parse(text).None? {
          return Decided(Retry);
        }
        var parsed := world.parse(text).value;
        KeepFirst(id, ReviewDoc, text);
        if parsed.verdict == Approved {
          return Decided(Goto(Test, None, Some(text)));
        }
        if parsed.verdict == Rejected {
          if !HasFixItems(parsed) {
            return Decided(FailWith(ReviewRejectedWithoutForFixer));
          }
          var loop := CountLoop(id, ReviewFix);
          if loop > MAX_REVIEW_FIX_LOOPS {
            return Decided(FailWith(ReviewFixLoopExceeded));
          }
          return Decided(Goto(Fix, None, Some(text)));
        }
        return Decided(Retry);
    }

    method HandleTest(id: string, scratch: Scratch) returns (r: HandlerResult)
      requires id in memory.tasks
      modifies this, memory, obs
      ensures id in memory.tasks && memory.tasks == old(memory.tasks)[id := memory.tasks[id]]
      ensures (Abs(id, Test, scratch), r) == Handle(Cfg(), world, id, old(Abs(id, Test, scratch)))
    {
      hide Pipeline.Invoke, IsBlank, IsBlocked, BlockedText, AgentName, ExtractForFixer;
      var arch := Artifact(memory.tasks[id], ArchitectDoc);
      var code := CurrentCode(scratch, memory.tasks[id]);
      var out := Invoke(id, Tester, [code, arch], Test, scratch);
      match out
      case Raised => return HandlerRaised;
      case NoneReply => return Decided(Retry);
      case Text(text) =>
        if IsBlank(text) {
          return Decided(Retry);
        }
        if IsBlocked(text) {
          return Decided(FailWith(TesterBlocked(BlockedText(text))));
        }
        KeepFirst(id, TestDoc, text);
        return Decided(Goto(Qa, None, None));
    }

    method HandleQa(id: string, scratch: Scratch) returns (r: HandlerResult)
      requires id in memory.tasks
      modifies this, memory, obs
      ensures id in memory.tasks && memory.tasks == old(memory.tasks)[id := memory.tasks[id]]
      ensures (Abs(id, Qa, scratch), r) == Handle(Cfg(), world, id, old(Abs(id, Qa, scratch)))
    {
      hide Pipeline.Invoke, IsBlank, AgentName, RunHook;
      var pmPlan := Artifact(memory.tasks[id], PmDoc);
      var arch := Artifact(memory.tasks[id], ArchitectDoc);
      var code := CurrentCode(scratch, memory.tasks[id]);
      var review := CurrentReview(scratch, memory.tasks[id]);
      var test := Artifact(memory.tasks[id], TestDoc);
      var out := Invoke(id, QaAgent, [pmPlan, arch, code, review, test], Qa, scratch);
      match out
      case Raised => return HandlerRaised;
      case NoneReply => return Decided(Retry);
      case Text(text) =>
        if IsBlank(text) || world.parse(text).None? {
          return Decided(Retry);
        }
        var parsed := world.parse(text).value;
        KeepFirst(id, QaDoc, text);
        if parsed.verdict == Passed {
          var decision := InvokeRuntimeValidator(id, scratch);
          return Decided(decision);
        }
        if parsed.verdict == Failed {
          if !HasFixItems(parsed) {
            return Decided(FailWith(QaFailedWithoutForFixer));
          }
          var loop := CountLoop(id, QaFix);
          if loop > MAX_QA_FIX_LOOPS {
            return Decided(FailWith(QaFixLoopExceeded));
          }
          return Decided(Goto(Fix, None, None));
        }
        return Decided(Retry);
    }

    /** The hook sees the memory's snapshot; its answer is noted on the QA call it follows. */
    method InvokeRuntimeValidator(id: string, ghost scratch: Scratch) returns (d: Decision)
      requires id in memory.tasks
      modifies this, memory, obs
      ensures id in memory.tasks && memory.tasks == old(memory.tasks)[id := memory.tasks[id]]
      ensures (Abs(id, Qa, scratch), d) == RunHook(world, old(Abs(id, Qa, scratch)))
    {
      assert memory.tasks == memory.tasks[id := memory.tasks[id]];
      if world.hook.None? || trace == [] {
        return Goto(Success, None, None);
      }
      var k := |trace| - 1;
      var reply := world.hook.value(k);
      trace := trace[k := trace[k].(hook := Some(HookCall(memory.tasks[id].artifacts, reply)))];
      match reply
      case HookRaised => return FailWith(RuntimeValidatorException);
      case NoReport => return Goto(Success, None, None);
      case ReportOk => return Goto(Success, None, None);
      case ReportWithoutOk => return FailWith(RuntimeValidatorInvalidReport);
      case ReportFailed(summary, review) =>
        var loop := CountLoop(id, QaFix);
        if loop > MAX_QA_FIX_LOOPS {
          return FailWith(RuntimeFixLoopExceeded(Take(summary, 120)));
        }
        return Goto(Fix, None, Some(review));
    }

    method HandleFix(id: string, scratch: Scratch) returns (r: HandlerResult)
      requires id in memory.tasks
      modifies this, memory, obs
      ensures id in memory.tasks && memory.tasks == old(memory.tasks)[id := memory.tasks[id]]
      ensures (Abs(id, Fix, scratch), r) == Handle(Cfg(), world, id, old(Abs(id, Fix, scratch)))
    {
      hide Pipeline.Invoke, IsBlank, IsBlocked, BlockedText, AgentName, ExtractForFixer;
      var arch := Artifact(memory.tasks[id], ArchitectDoc);
      var code := CurrentCode(scratch, memory.tasks[id]);
      var forFixer := ExtractForFixer(world, CurrentReview(scratch, memory.tasks[id]));
      var out := Invoke(id, Fixer, [code, forFixer, arch], Fix, scratch);
      match out
      case Raised => return HandlerRaised;
      case NoneReply => return Decided(Retry);
      case Text(text) =>
        if IsBlank(text) {
          return Decided(Retry);
        }
        if IsBlocked(text) {
          return Decided(FailWith(FixerBlocked(BlockedText(text))));
        }
        KeepFirst(id, FixCode, text);
        return Decided(Goto(Review, Some(text), None));
    }

    method CallHandler(id: string, state: State, scratch: Scratch) returns (r: HandlerResult)
      requires id in memory.tasks && HasHandler(state)
      modifies this, memory, obs
      ensures id in memory.tasks && memory.tasks == old(memory.tasks)[id := memory.tasks[id]]
      ensures (Abs(id, state, scratch), r) == Handle(Cfg(), world, id, old(Abs(id, state, scratch)))
    {
      hide Handle;
      match state
      case Planning => r := HandlePlanning(id, scratch);
      case Pm => r := HandlePm(id, scratch);
      case Architect => r := HandleArchitect(id, scratch);
      case Writer => r := HandleWriter(id, scratch);
      case Review => r := HandleReview(id, scratch);
      case Test => r := HandleTest(id, scratch);
      case Qa => r := HandleQa(id, scratch);
      case Fix => r := HandleFix(id, scratch);
    }

    // ----- The loop ------------------------------------------------------------------------

    method CheckGlobalLimits(id: string, ghost state: State, ghost scratch: Scratch) returns (reason: Option<Reason>)
      requires id in memory.tasks
      ensures reason == LimitReason(Cfg(), id, Abs(id, state, scratch))
    {
      var transitions := |memory.tasks[id].transitions|;
      if transitions > MAX_TOTAL_STEPS {
        return Some(MaxTotalStepsExceeded(transitions));
      }
      var calls := |memory.tasks[id].agentCalls|;
      if calls > MAX_TOTAL_AGENT_CALLS {
        return Some(MaxTotalAgentCallsExceeded(calls));
      }
      if budget.None? || obs == null {
        return None;
      }
      hide Obs.IsCostBy, Obs.MapSum;
      var snapshot := obs.GetCostSnapshot(Some(id));
      if snapshot.Err? || snapshot.value.totalUsd <= budget.value {
        return None;
      }
      return Some(CostBudgetExceeded(snapshot.value.totalUsd));
    }

    method Terminate(id: string, state: State, scratch: Scratch, reason: Reason) returns (r: RunResult)
      requires id in memory.tasks
      modifies memory
      ensures id in memory.tasks && memory.tasks == old(memory.tasks)[id := memory.tasks[id]]
      ensures r == Pipeline.Terminate(old(Abs(id, state, scratch)), reason)
      ensures memory.tasks[id] == r.machine.task && trace == r.machine.trace
    {
      assert memory.tasks == memory.tasks[id := memory.tasks[id]];
      hide CanTransition, TerminalFor;
      var terminal := TerminalFor(state);
      var final := state;
      if CanTransition(state, terminal) {
        RecordEdge(id, state, terminal);
        final := terminal;
      }
      return RunResult(final, Some(reason), Machine(state, memory.tasks[id], scratch, trace, Ledger()));
    }

    /** The loop's body: either the run's result, or the next state and scratch. */
    method Turn(id: string, state: State, scratch: Scratch)
      returns (result: Option<RunResult>, nextState: State, nextScratch: Scratch)
      requires id in memory.tasks && HasHandler(state)
      modifies this, memory, obs
      ensures id in memory.tasks && memory.tasks == old(memory.tasks)[id := memory.tasks[id]]
      ensures var step := Step(Cfg(), world, id, old(Abs(id, state, scratch)));
              match result
              case Some(r) => step == Stop(r) && memory.tasks[id] == r.machine.task && trace == r.machine.trace
              case None => step == Next(Abs(id, nextState, nextScratch))
    {
      nextState, nextScratch := state, scratch;
      hide Handle, LimitReason, Abs, CanTransition;
      var limit := CheckGlobalLimits(id, state, scratch);
      if limit.Some? {
        var r := Terminate(id, state, scratch, limit.value);
        return Some(r), state, scratch;
      }
      var outcome := CallHandler(id, state, scratch);
      if outcome.HandlerRaised? {
        var r := Terminate(id, state, scratch, AgentException);
        return Some(r), state, scratch;
      }
      match outcome.decision
      case FailWith(reason) =>
        var r := Terminate(id, state, scratch, reason);
        return Some(r), state, scratch;
      case Retry =>
        ghost var m1 := Abs(id, state, scratch);
        assert m1.state == state && m1.scratch == scratch by { AbsFields(id, state, scratch); }
        var n := (if state in scratch.stateRetry then scratch.stateRetry[state] else 0) + 1;
        nextScratch := scratch.(stateRetry := scratch.stateRetry[state := n]);
        AbsScratch(id, state, scratch, nextScratch);
        if n > STATE_MAX_RETRY {
          var r := Terminate(id, state, nextScratch, StateRetryExceeded(state));
          return Some(r), state, nextScratch;
        }
        return None, state, nextScratch;
      case Goto(next, code, review) =>
        AbsFields(id, state, scratch);
        if !CanTransition(state, next) {
          var r := Terminate(id, state, scratch, InvalidTransitionDecision(state, next));
          return Some(r), state, scratch;
        }
        nextScratch := EnterState(id, state, scratch, next, code, review);
        return None, next, nextScratch;
    }

    /** A move along an edge, and what it leaves in the driver's own state. */
    method EnterState(id: string, state: State, scratch: Scratch, next: State, code: Option<string>,
                      review: Option<string>)
      returns (nextScratch: Scratch)
      requires id in memory.tasks && CanTransition(state, next)
      modifies memory
      ensures id in memory.tasks && memory.tasks == old(memory.tasks)[id := memory.tasks[id]]
      ensures Abs(id, next, nextScratch) == Enter(old(Abs(id, state, scratch)), next, code, review)
    {
      hide CanTransition;
      ghost var m1 := Abs(id, state, scratch);
      AbsFields(id, state, scratch);
      hide Abs;
      RecordEdge(id, state, next);
      nextScratch := Scratch(if code.Some? then code else scratch.latestCode,
                             if review.Some? then review else scratch.latestReview,
                             scratch.stateRetry[next := 0]);
      EntersAs(id, m1, next, code, review, nextScratch);
    }

    lemma AbsFields(id: string, state: State, scratch: Scratch)
      requires id in memory.tasks
      ensures var m := Abs(id, state, scratch);
              && m.state == state && m.scratch == scratch && m.task == memory.tasks[id]
              && m.trace == trace && m.ledger == Ledger()
    {
    }

    lemma AbsScratch(id: string, state: State, scratch: Scratch, scratch': Scratch)
      requires id in memory.tasks
      ensures Abs(id, state, scratch') == Abs(id, state, scratch).(scratch := scratch')
    {
    }

    lemma EntersAs(id: string, m1: Machine, next: State, code: Option<string>, review: Option<string>,
                   scratch': Scratch)
      requires id in memory.tasks && memory.tasks[id] == Record(m1, next).task
      requires trace == m1.trace && Ledger() == m1.ledger
      requires scratch' == Enter(m1, next, code, review).scratch
      ensures Abs(id, next, scratch') == Enter(m1, next, code, review)
    {
    }

    /** The driver's loop does exactly what `Pipeline.DriveFrom` does. */
    method DriveLoop(id: string) returns (r: RunResult)
      requires id in memory.tasks
      modifies this, memory, obs
      ensures id in memory.tasks && memory.tasks == old(memory.tasks)[id := memory.tasks[id]]
      ensures var task := old(memory.tasks)[id];
              var m := Machine(Planning,
                               task.(transitions := task.transitions + [TransitionRecord(Idle, Planning)]),
                               Scratch(None, None, map[Planning := 0]), [], old(Ledger()));
              r == DriveFrom(Cfg(), world, id, m)
      ensures memory.tasks[id] == r.machine.task && trace == r.machine.trace
    {
      hide DriveFrom, Step;
      trace := [];
      // The source also handles a refused first transition; the table allows it.
      RecordEdge(id, Idle, Planning);
      var state := Planning;
      var scratch := Scratch(None, None, map[Planning := 0]);
      ghost var start := Abs(id, state, scratch);

      while !IsTerminal(state)
        invariant id in memory.tasks && memory.tasks == old(memory.tasks)[id := memory.tasks[id]]
        invariant HasHandler(state) || state == Success
        invariant DriveFrom(Cfg(), world, id, start) == DriveFrom(Cfg(), world, id, Abs(id, state, scratch))
        decreases FixBudget(memory.tasks[id]), Distance(state), RetriesLeft(Abs(id, state, scratch))
      {
        UnfoldDrive(Cfg(), world, id, Abs(id, state, scratch));
        StepDecreasesIfNext(Cfg(), world, id, Abs(id, state, scratch));
        var result;
        result, state, scratch := Turn(id, state, scratch);
        if result.Some? {
          return result.value;
        }
      }
      DriveEnds(Cfg(), world, id, Abs(id, state, scratch));
      return RunResult(state, if state == Success then None else Some(Terminated(state)),
                       Machine(state, memory.tasks[id], scratch, trace, Ledger()));
    }

    /** Why a run does not start at all; nothing has been stored in that case. */
    function Refusal(tasks: Tasks, id: string, raw: string, seeds: map<string, string>): Option<RunError> {
      if exists i | 0 <= i < |validators| :: !validators[i](raw) then Some(RejectedByValidator)
      else TaskRefusal(tasks, id, raw, seeds)
    }

    function TaskRefusal(tasks: Tasks, id: string, raw: string, seeds: map<string, string>): Option<RunError> {
      if !SeedsOk(seeds) then Some(Refused(InvalidSeeds))
      else
        match Failure(tasks, Command.NewTask(id, raw))
        case Some(e) => Some(Refused(e))
        case None => None
    }

    /** Why a run is refused: a validator rejects the task; or some seed has no known kind or no
        text; or the task's id or text is blank, or its id in use. */
    lemma RefusalIs(tasks: Tasks, id: string, raw: string, seeds: map<string, string>)
      ensures var rejected := exists i :: 0 <= i < |validators| && !validators[i](raw);
              var badSeed := exists name :: name in seeds &&
                               ((forall k :: KindName(k) != name) || AllSpaces(seeds[name]));
              Refusal(tasks, id, raw, seeds) ==
              if rejected then Some(RejectedByValidator)
              else if badSeed then Some(Refused(InvalidSeeds))
              else if AllSpaces(id) then Some(Refused(EmptyTaskId))
              else if AllSpaces(raw) then Some(Refused(EmptyRawTask))
              else if id in tasks then Some(Refused(TaskAlreadyExists(id)))
              else None
    {
      BlankIsAllSpaces(id);
      BlankIsAllSpaces(raw);
      SeedsOkIff(seeds);
      hide IsBlank, AllSpaces, SeedsOk, KindName;
    }

    /** A run is refused without any trace in memory, or it adds exactly its own task, as
        `Pipeline.Drive` leaves it; other tasks stay as they are. */
    method RunTask(id: string, raw: string, seeds: map<string, string>) returns (r: Result<RunResult, RunError>)
      modifies this, memory, obs
      ensures var refusal := Refusal(old(memory.tasks), id, raw, seeds);
              if refusal.Some? then r == Err(refusal.value) && memory.tasks == old(memory.tasks)
              else
                && r == Ok(Drive(Cfg(), world, id, raw, SeedsOf(seeds), old(Ledger())))
                && GoodRun(world, r.value)
                && memory.tasks == old(memory.tasks)[id := r.value.machine.task]
    {
      hide *;
      var refusal := Admit(id, raw, seeds);
      if refusal.Some? {
        return Err(refusal.value);
      }
      var result := DriveNewTask(id, raw, SeedsOf(seeds));
      return Ok(result);
    }

    method DriveNewTask(id: string, raw: string, ghost seeds: map<Kind, string>) returns (r: RunResult)
      requires id in memory.tasks && memory.tasks[id] == TaskState(raw, seeds, [], [], map[])
      modifies this, memory, obs
      ensures r == Drive(Cfg(), world, id, raw, seeds, old(Ledger()))
      ensures GoodRun(world, r)
      ensures memory.tasks == old(memory.tasks)[id := r.machine.task]
    {
      assert Cfg().maxCalls == Some(MAX_TOTAL_AGENT_CALLS);
      hide *;
      r := DriveLoop(id);
      StartedAs(id, raw, seeds, old(Ledger()));
      RunFacts(Cfg(), world, id, raw, seeds, old(Ledger()));
    }

    method ValidatorsAccept(raw: string) returns (ok: bool)
      ensures ok <==> forall i | 0 <= i < |validators| :: validators[i](raw)
    {
      for i := 0 to |validators|
        invariant forall j | 0 <= j < i :: validators[j](raw)
      {
        if !validators[i](raw) {
          return false;
        }
      }
      return true;
    }

    /** Everything that is checked and stored before the driver starts. */
    method Admit(id: string, raw: string, seeds: map<string, string>) returns (refusal: Option<RunError>)
      modifies memory
      ensures refusal == Refusal(old(memory.tasks), id, raw, seeds)
      ensures memory.tasks == if refusal.Some? then old(memory.tasks)
                              else old(memory.tasks)[id := TaskState(raw, SeedsOf(seeds), [], [], map[])]
    {
      var accepted := ValidatorsAccept(raw);
      if !accepted {
        return Some(RejectedByValidator);
      }
      hide TaskRefusal, SeedsOf;
      refusal := StoreTask(id, raw, seeds);
    }

    /** The task with its seeds. */
    method StoreTask(id: string, raw: string, seeds: map<string, string>) returns (refusal: Option<RunError>)
      modifies memory
      ensures refusal == TaskRefusal(old(memory.tasks), id, raw, seeds)
      ensures memory.tasks == if refusal.Some? then old(memory.tasks)
                              else old(memory.tasks)[id := TaskState(raw, SeedsOf(seeds), [], [], map[])]
    {
      hide SeedsOk, SeedsOf, Failure;
      var artifacts := NormalizeSeeds(seeds);
      if artifacts.Err? {
        return Some(Refused(artifacts.error));
      }
      var error := CreateTask(id, raw);
      if error.Some? {
        return Some(Refused(error.value));
      }
      PlantSeeds(id, raw, seeds, artifacts.value);
      return None;
    }

    method CreateTask(id: string, raw: string) returns (error: Option<Error>)
      modifies memory
      ensures error == Failure(old(memory.tasks), Command.NewTask(id, raw))
      ensures memory.tasks == if error.Some? then old(memory.tasks)
                              else old(memory.tasks)[id := TaskState(raw, map[], [], [], map[])]
    {
      error := memory.NewTask(id, raw);
      hide IsBlank;
    }

    method PlantSeeds(id: string, raw: string, seeds: map<string, string>, artifacts: map<Kind, string>)
      requires SeedsOk(seeds) && artifacts == SeedsOf(seeds)
      requires id in memory.tasks && memory.tasks[id] == TaskState(raw, map[], [], [], map[])
      modifies memory
      ensures memory.tasks == old(memory.tasks)[id := TaskState(raw, artifacts, [], [], map[])]
    {
      SeedsHaveText(seeds);
      var todo := artifacts.Keys;
      ghost var before := memory.tasks;
      NothingPlanted(before, id, raw, artifacts);
      hide *;
      while todo != {}
        invariant todo <= artifacts.Keys
        invariant memory.tasks == Planted(before, id, raw, artifacts - todo)
        decreases todo
      {
        var kind :| kind in todo;
        PlantOneMore(before, id, raw, artifacts, todo, kind);
        PlantSeed(id, kind, artifacts[kind]);
        todo := todo - {kind};
      }
      AllPlanted(before, id, raw, artifacts);
    }

    /** The new task with these artifacts. */
    ghost function Planted(tasks: Tasks, id: string, raw: string, artifacts: map<Kind, string>): Tasks {
      tasks[id := TaskState(raw, artifacts, [], [], map[])]
    }

    lemma NothingPlanted(tasks: Tasks, id: string, raw: string, artifacts: map<Kind, string>)
      requires id in tasks && tasks[id] == TaskState(raw, map[], [], [], map[])
      ensures tasks == Planted(tasks, id, raw, artifacts - artifacts.Keys)
    {
      assert artifacts - artifacts.Keys == map[];
    }

    lemma AllPlanted(tasks: Tasks, id: string, raw: string, artifacts: map<Kind, string>)
      ensures Planted(tasks, id, raw, artifacts - {}) == tasks[id := TaskState(raw, artifacts, [], [], map[])]
    {
      assert artifacts - {} == artifacts;
    }

    lemma PlantOneMore(tasks: Tasks, id: string, raw: string, artifacts: map<Kind, string>, todo: set<Kind>, kind: Kind)
      requires kind in todo && todo <= artifacts.Keys
      ensures var now := Planted(tasks, id, raw, artifacts - todo);
              && id in now && kind !in now[id].artifacts
              && now[id := now[id].(artifacts := now[id].artifacts[kind := artifacts[kind]])] ==
                 Planted(tasks, id, raw, artifacts - (todo - {kind}))
    {
      assert (artifacts - todo)[kind := artifacts[kind]] == artifacts - (todo - {kind});
    }

    method PlantSeed(id: string, kind: Kind, payload: string)
      requires id in memory.tasks && kind !in memory.tasks[id].artifacts && !IsBlank(payload)
      modifies memory
      ensures var t := old(memory.tasks)[id];
              memory.tasks == old(memory.tasks)[id := t.(artifacts := t.artifacts[kind := payload])]
    {
      ParseKindInverts(KindName(kind), kind);
      hide ParseKind, KindName, IsBlank;
      var error := memory.SetArtifact(id, KindName(kind), payload);
    }

    lemma StartedAs(id: string, raw: string, seeds: map<Kind, string>, ledger: seq<Obs.AgentCallRecord>)
      ensures var task := TaskState(raw, seeds, [], [], map[]);
              var m := Machine(Planning,
                               task.(transitions := task.transitions + [TransitionRecord(Idle, Planning)]),
                               Scratch(None, None, map[Planning := 0]), [], ledger);
              Drive(Cfg(), world, id, raw, seeds, ledger) == DriveFrom(Cfg(), world, id, m)
    {
      hide DriveFrom;
      assert [] + [TransitionRecord(Idle, Planning)] == [TransitionRecord(Idle, Planning)];
    }
  }

  lemma SeedsOkIff(seeds: map<string, string>)
    ensures SeedsOk(seeds) <==>
            !exists name :: name in seeds && ((forall k :: KindName(k) != name) || AllSpaces(seeds[name]))
  {
    forall s: string ensures IsBlank(s) <==> AllSpaces(s) { BlankIsAllSpaces(s); }
    forall name: string, k: Kind
      ensures ParseKind(name) == Some(k) <==> KindName(k) == name
    {
      ParseKindInverts(name, k);
    }
    hide IsBlank, AllSpaces, ParseKind, KindName;
  }

  lemma SeedsHaveText(seeds: map<string, string>)
    requires SeedsOk(seeds)
    ensures forall k | k in SeedsOf(seeds) :: !IsBlank(SeedsOf(seeds)[k])
  {
    hide ParseKind, IsBlank;
  }

  /** A terminal state reached along a good trail, within the bounds on edges and calls;
      and success only for a certified newest code. */
  ghost predicate GoodRun(w: World, r: RunResult) {
    && GoodTrail(r)
    && |r.machine.task.transitions| <= 22
    && |r.machine.task.agentCalls| <= 41
    && (r.finalState == Success ==>
          exists code, review ::
            Certified(w, r.machine.trace, code, review) && NewestCode(w, r.machine.trace) == Some(code))
  }

  /** The theorems about every run, gathered for one run. */
  lemma RunFacts(c: Config, w: World, id: string, raw: string, seeds: map<Kind, string>,
                 ledger: seq<Obs.AgentCallRecord>)
    requires c.maxCalls == Some(MAX_TOTAL_AGENT_CALLS)
    ensures GoodRun(w, Drive(c, w, id, raw, seeds, ledger))
  {
    hide Drive;
    TrailTheorem(c, w, id, raw, seeds, ledger);
    CallsTheorem(c, w, id, raw, seeds, ledger);
    if Drive(c, w, id, raw, seeds, ledger).finalState == Success {
      SuccessTheorem(c, w, id, raw, seeds, ledger);
    }
  }

  lemma DriveEnds(c: Config, w: World, id: string, m: Machine)
    requires m.state == Success
    ensures DriveFrom(c, w, id, m) == RunResult(Success, None, m)
  {
  }

  lemma StepDecreasesIfNext(c: Config, w: World, id: string, m: Machine)
    requires HasHandler(m.state)
    ensures Step(c, w, id, m).Next? ==>
              var m' := Step(c, w, id, m).machine;
              && (HasHandler(m'.state) || m'.state == Success)
              && (|| FixBudget(m'.task) < FixBudget(m.task)
                  || (FixBudget(m'.task) == FixBudget(m.task) && Distance(m'.state) < Distance(m.state))
                  || (FixBudget(m'.task) == FixBudget(m.task) && Distance(m'.state) == Distance(m.state)
                      && RetriesLeft(m') < RetriesLeft(m)))
  {
    hide Step;
    if Step(c, w, id, m).Next? {
      StepDecreases(c, w, id, m);
    }
  }

  lemma UnfoldDrive(c: Config, w: World, id: string, m: Machine)
    requires HasHandler(m.state)
    ensures var step := Step(c, w, id, m);
            if step.Stop? then DriveFrom(c, w, id, m) == step.result
            else (HasHandler(step.machine.state) || step.machine.state == Success)
                 && DriveFrom(c, w, id, m) == DriveFrom(c, w, id, step.machine)
  {
    hide Step;
    if Step(c, w, id, m).Next? {
      StepDecreases(c, w, id, m);
    }
  }
}
