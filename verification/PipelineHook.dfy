/** What the runtime hook gets to see. */
module PipelineHook {
  import opened Wrappers
  import opened Strings
  import opened Fsm
  import opened Memory
  import opened Pipeline
  import opened PipelineTheorems
  import Obs = Observability

  /** The hook is run on a QA answer that passed, and is shown the artifacts in memory. */
  ghost predicate HookShown(w: World, rec: CallRecord, k: nat, artifacts: map<Kind, string>) {
    rec.hook.Some? ==>
      && rec.agent == QaAgent && Usable(w, rec) && VerdictOf(w, rec) == Passed
      && w.hook.Some? && rec.hook.value == HookCall(artifacts, w.hook.value(k))
  }

  lemma JudgeShowsHook(w: World, m: Machine, out: string)
    requires JustAnswered(m, out)
    ensures var (m1, d) := Judge(w, m, out);
            |m1.trace| == |m.trace| && HookShown(w, m1.trace[|m.trace| - 1], |m.trace| - 1, m1.task.artifacts)
  {
    JudgeShape(w, m, out);
    hide IsBlank, IsBlocked, JudgeReview, Judged, BumpLoop, LoopCount;
    if m.state == Review {
      ReviewLeavesTrace(w, m, out);
    }
  }

  lemma ReviewLeavesTrace(w: World, m: Machine, out: string)
    ensures JudgeReview(w, m, out).0.trace == m.trace
  {
  }

  lemma HandleShowsHook(c: Config, w: World, id: string, m: Machine)
    requires HasHandler(m.state)
    ensures var m1 := Handle(c, w, id, m).0;
            |m1.trace| == |m.trace| + 1 && HookShown(w, m1.trace[|m.trace|], |m.trace|, m1.task.artifacts)
  {
    var m1 := Invoke(c, w, id, m, AgentOf(m.state), Inputs(w, m));
    var reply := w.agent(|m.trace|);
    if reply.Text? && !IsBlank(reply.text) {
      JudgeShowsHook(w, m1, reply.text);
    }
    hide Judge, Inputs, IsBlank, LedgerEntry, Obs.Recorded, VerdictOf;
  }

  /** Ending, moving on and asking again leave the trace and the artifacts alone. */
  lemma OnlyHandlersWrite(c: Config, w: World, id: string, m: Machine)
    requires HasHandler(m.state) && LimitReason(c, id, m).None?
    ensures var next, m1 := Step(c, w, id, m), Handle(c, w, id, m).0;
            var m' := if next.Stop? then next.result.machine else next.machine;
            m'.trace == m1.trace && m'.task.artifacts == m1.task.artifacts
  {
    hide Handle, CanTransition, TerminalFor, LimitReason, RetryCount;
  }

  lemma StepShowsHook(c: Config, w: World, id: string, m: Machine)
    requires HasHandler(m.state) && LimitReason(c, id, m).None?
    ensures var next := Step(c, w, id, m);
            var m' := if next.Stop? then next.result.machine else next.machine;
            |m'.trace| == |m.trace| + 1 && HookShown(w, m'.trace[|m.trace|], |m.trace|, m'.task.artifacts)
  {
    HandleShowsHook(c, w, id, m);
    OnlyHandlersWrite(c, w, id, m);
    hide Step, Handle, HookShown, LimitReason;
  }

  /** Every hook run so far was shown what memory then held: seeds and first usable answers. */
  ghost predicate HooksSourced(w: World, seeds: map<Kind, string>, trace: seq<CallRecord>) {
    forall k | 0 <= k < |trace| && trace[k].hook.Some? ::
      && trace[k].agent == QaAgent && VerdictOf(w, trace[k]) == Passed
      && SourcedFrom(w, seeds, trace[..k + 1], trace[k].hook.value.artifacts)
  }

  lemma HooksPrefix(w: World, seeds: map<Kind, string>, m: Machine, m': Machine)
    requires HooksSourced(w, seeds, m.trace) && Sourced(w, seeds, m')
    requires |m'.trace| == |m.trace| + 1 && m'.trace[..|m.trace|] == m.trace
    requires HookShown(w, m'.trace[|m.trace|], |m.trace|, m'.task.artifacts)
    ensures HooksSourced(w, seeds, m'.trace)
  {
    hide SourcedFrom, VerdictOf;
    forall k | 0 <= k < |m'.trace| && m'.trace[k].hook.Some?
      ensures m'.trace[k].agent == QaAgent && VerdictOf(w, m'.trace[k]) == Passed
      ensures SourcedFrom(w, seeds, m'.trace[..k + 1], m'.trace[k].hook.value.artifacts)
    {
      if k < |m.trace| {
        assert m'.trace[..k + 1] == m.trace[..k + 1];
        assert m'.trace[k] == m.trace[k];
      } else {
        assert m'.trace[..k + 1] == m'.trace;
      }
    }
  }

  lemma {:induction false} DriveFromHooks(c: Config, w: World, id: string, seeds: map<Kind, string>, m: Machine)
    requires HasHandler(m.state) || IsTerminal(m.state)
    requires Sourced(w, seeds, m) && HooksSourced(w, seeds, m.trace)
    ensures HooksSourced(w, seeds, DriveFrom(c, w, id, m).machine.trace)
    decreases FixBudget(m.task), Distance(m.state), RetriesLeft(m)
  {
    if HasHandler(m.state) {
      StepTurns(c, w, id, m);
      if LimitReason(c, id, m).None? {
        StepShowsHook(c, w, id, m);
      }
      match Step(c, w, id, m)
      case Next(m') =>
        RecordedSourced(c, w, id, seeds, m, m');
        HooksPrefix(w, seeds, m, m');
        StepDecreases(c, w, id, m);
        hide Sourced, HooksSourced, Step, Turn, HookShown;
        DriveFromHooks(c, w, id, seeds, m');
      case Stop(r) =>
        if LimitReason(c, id, m).None? {
          RecordedSourced(c, w, id, seeds, m, r.machine);
          HooksPrefix(w, seeds, m, r.machine);
        }
        hide Sourced, HooksSourced, Step, HookShown;
    }
  }

  /** Whenever the hook runs, in any run, it follows a passing QA answer, and it is shown the
      seeds and each agent's first usable answer so far. So without a seed the `fix` text it
      sees is the first fix, however often the code was fixed since. */
  lemma HookTheorem(c: Config, w: World, id: string, raw: string, seeds: map<Kind, string>,
                    ledger: seq<Obs.AgentCallRecord>)
    ensures HooksSourced(w, seeds, Drive(c, w, id, raw, seeds, ledger).machine.trace)
  {
    var m := Start(raw, seeds, ledger);
    forall a | KindOf(a) !in seeds ensures FirstUsable(w, m.trace, a) == None {}
    DriveFromHooks(c, w, id, seeds, m);
  }

  // ----- When the hook sees the code under test -------------------------------------------------

  /** The last usable answer of an agent. */
  function LastUsable(w: World, trace: seq<CallRecord>, a: Agent): Option<string> {
    if trace == [] then None
    else
      var last := trace[|trace| - 1];
      if last.agent == a && Usable(w, last) then Some(last.reply.text) else LastUsable(w, trace[..|trace| - 1], a)
  }

  /** The newest code is the last fix, or the first code of the writer if there is no fix. */
  ghost predicate CodesInOrder(w: World, trace: seq<CallRecord>) {
    NewestCode(w, trace) ==
      (if LastUsable(w, trace, Fixer).Some? then LastUsable(w, trace, Fixer) else FirstUsable(w, trace, WriterAgent))
  }

  ghost predicate NoCode(w: World, trace: seq<CallRecord>) {
    LastUsable(w, trace, Fixer) == FirstUsable(w, trace, WriterAgent) == NewestCode(w, trace) == None
  }

  ghost predicate AlwaysInOrder(w: World, trace: seq<CallRecord>) {
    forall n | 0 <= n <= |trace| :: CodesInOrder(w, trace[..n])
  }

  /** Up to WRITER there is no code; after it the writer is not asked again. */
  ghost predicate CodesSoFar(w: World, m: Machine) {
    && AlwaysInOrder(w, m.trace)
    && (IsEarly(m.state) ==> NoCode(w, m.trace))
  }

  lemma OneMoreCode(w: World, trace: seq<CallRecord>, rec: CallRecord)
    requires CodesInOrder(w, trace) && (rec.agent == WriterAgent ==> NoCode(w, trace))
    ensures CodesInOrder(w, trace + [rec])
    ensures NoCode(w, trace) && !(Usable(w, rec) && (rec.agent == WriterAgent || rec.agent == Fixer)) ==>
            NoCode(w, trace + [rec])
  {
    assert (trace + [rec])[..|trace|] == trace;
    hide Usable;
  }

  lemma RecordedCodes(c: Config, w: World, id: string, m: Machine, m': Machine)
    requires HasHandler(m.state) && CodesSoFar(w, m) && Recorded(c, w, id, m, m')
    ensures AlwaysInOrder(w, m'.trace)
  {
    var rec := m'.trace[|m.trace|];
    assert m'.trace == m.trace + [rec] && m.trace[..|m.trace|] == m.trace;
    assert rec.agent == AgentOf(m.state);
    hide Recorded, CodesInOrder, NoCode, NewestCode, LastUsable, FirstUsable, Usable;
    OneMoreCode(w, m.trace, rec);
    forall n | 0 <= n <= |m'.trace| ensures CodesInOrder(w, m'.trace[..n]) {
      if n <= |m.trace| {
        assert m'.trace[..n] == m.trace[..n];
      } else {
        assert m'.trace[..n] == m'.trace;
      }
    }
  }

  lemma TurnCodes(c: Config, w: World, id: string, m: Machine, m': Machine)
    requires HasHandler(m.state) && CodesSoFar(w, m) && Turn(c, w, id, m, m')
    ensures CodesSoFar(w, m')
  {
    RecordedCodes(c, w, id, m, m');
    EarlyTurn(c, w, id, m, m');
    hide Turn, CodesInOrder, NoCode;
  }

  predicate IsEarly(s: State) {
    s == Planning || s == Pm || s == Architect || s == Writer
  }

  /** A run that is still early has asked neither the fixer nor, with success, the writer. */
  lemma EarlyStays(c: Config, w: World, id: string, m: Machine, m': Machine)
    requires HasHandler(m.state) && Turn(c, w, id, m, m') && IsEarly(m'.state)
    ensures IsEarly(m.state) && |m'.trace| == |m.trace| + 1
    ensures var rec := m'.trace[|m.trace|];
            rec.agent != Fixer && (rec.agent == WriterAgent ==> Malformed(w, rec))
  {
    hide LimitReason, Inputs, LedgerEntry, Obs.Recorded, StoreFirst, KindOf, Usable, VerdictOf, Malformed, HookPassed,
      BumpLoop, LoopCount, RetryCount, CanTransition, AgentName;
  }

  lemma MalformedIsNoCode(w: World, rec: CallRecord)
    requires Malformed(w, rec) && rec.agent == WriterAgent
    ensures !Usable(w, rec)
  {
    hide IsBlank, IsBlocked;
  }

  lemma EarlyTurn(c: Config, w: World, id: string, m: Machine, m': Machine)
    requires HasHandler(m.state) && CodesSoFar(w, m) && Turn(c, w, id, m, m')
    ensures IsEarly(m'.state) ==> NoCode(w, m'.trace)
  {
    if IsEarly(m'.state) {
      EarlyStays(c, w, id, m, m');
      var rec := m'.trace[|m.trace|];
      assert m'.trace == m.trace + [rec] && m.trace[..|m.trace|] == m.trace by {
        hide LimitReason, AskedAgain, Moved, Malformed;
      }
      hide Turn, NoCode, CodesInOrder, Malformed, Usable;
      if rec.agent == WriterAgent {
        MalformedIsNoCode(w, rec);
      }
      OneMoreCode(w, m.trace, rec);
    }
  }

  lemma HaltedCodes(c: Config, w: World, id: string, m: Machine, r: RunResult)
    requires HasHandler(m.state) && CodesSoFar(w, m) && Halted(c, w, id, m, r)
    ensures AlwaysInOrder(w, r.machine.trace)
  {
    if LimitReason(c, id, m).None? {
      RecordedCodes(c, w, id, m, r.machine);
    }
    hide AlwaysInOrder, LimitReason, Recorded, NoCode;
  }

  lemma {:induction false} DriveFromCodes(c: Config, w: World, id: string, m: Machine)
    requires HasHandler(m.state) || IsTerminal(m.state)
    requires CodesSoFar(w, m)
    ensures AlwaysInOrder(w, DriveFrom(c, w, id, m).machine.trace)
    decreases FixBudget(m.task), Distance(m.state), RetriesLeft(m)
  {
    if HasHandler(m.state) {
      StepTurns(c, w, id, m);
      match Step(c, w, id, m)
      case Next(m') =>
        TurnCodes(c, w, id, m, m');
        StepDecreases(c, w, id, m);
        hide CodesSoFar, AlwaysInOrder, Step, Turn;
        DriveFromCodes(c, w, id, m');
      case Stop(r) =>
        HaltedCodes(c, w, id, m, r);
        hide CodesSoFar, AlwaysInOrder, Step, Halted;
    }
  }

  lemma {:induction false} FirstAndLast(w: World, trace: seq<CallRecord>, a: Agent)
    ensures FirstUsable(w, trace, a).Some? <==> LastUsable(w, trace, a).Some?
  {
    if trace != [] {
      FirstAndLast(w, trace[..|trace| - 1], a);
    }
  }

  /** The code among the hook's artifacts: the fix, or what the writer wrote. */
  function ShownCode(artifacts: map<Kind, string>): Option<string> {
    if FixCode in artifacts then Some(artifacts[FixCode])
    else if WriterCode in artifacts then Some(artifacts[WriterCode])
    else None
  }

  /** Exactly when the hook is shown the code under test, in any run without seeds for code: if
      the fixer's first and last usable answers so far are the same text, or there is none. */
  lemma HookSeesNewestCode(c: Config, w: World, id: string, raw: string, seeds: map<Kind, string>,
                           ledger: seq<Obs.AgentCallRecord>, k: nat)
    requires WriterCode !in seeds && FixCode !in seeds
    requires k < |Drive(c, w, id, raw, seeds, ledger).machine.trace|
    requires Drive(c, w, id, raw, seeds, ledger).machine.trace[k].hook.Some?
    ensures var trace := Drive(c, w, id, raw, seeds, ledger).machine.trace;
            var sofar := trace[..k + 1];
            ShownCode(trace[k].hook.value.artifacts) == NewestCode(w, sofar) <==>
            FirstUsable(w, sofar, Fixer) == LastUsable(w, sofar, Fixer)
  {
    var start := Start(raw, seeds, ledger);
    assert CodesSoFar(w, start) by { assert start.trace[..0] == []; }
    DriveFromCodes(c, w, id, start);
    HookTheorem(c, w, id, raw, seeds, ledger);
    hide DriveFrom, AlwaysInOrder, HooksSourced, CodesSoFar, NewestCode, FirstUsable, LastUsable, ShownCode;
    ShownIsNewest(w, seeds, Drive(c, w, id, raw, seeds, ledger).machine.trace, k);
  }

  lemma ShownIsNewest(w: World, seeds: map<Kind, string>, trace: seq<CallRecord>, k: nat)
    requires WriterCode !in seeds && FixCode !in seeds && k < |trace| && trace[k].hook.Some?
    requires AlwaysInOrder(w, trace) && HooksSourced(w, seeds, trace)
    ensures ShownCode(trace[k].hook.value.artifacts) == NewestCode(w, trace[..k + 1]) <==>
            FirstUsable(w, trace[..k + 1], Fixer) == LastUsable(w, trace[..k + 1], Fixer)
  {
    hide NewestCode, FirstUsable, LastUsable, SourcedFrom, ShownCode, VerdictOf;
    ShownIs(w, seeds, trace[..k + 1], trace[k].hook.value.artifacts);
    FirstAndLast(w, trace[..k + 1], Fixer);
    assert CodesInOrder(w, trace[..k + 1]);
  }

  lemma ShownIs(w: World, seeds: map<Kind, string>, trace: seq<CallRecord>, artifacts: map<Kind, string>)
    requires SourcedFrom(w, seeds, trace, artifacts) && WriterCode !in seeds && FixCode !in seeds
    ensures ShownCode(artifacts) ==
            if FirstUsable(w, trace, Fixer).Some? then FirstUsable(w, trace, Fixer)
            else FirstUsable(w, trace, WriterAgent)
  {
    assert KindOf(Fixer) == FixCode && KindOf(WriterAgent) == WriterCode;
    hide FirstUsable;
  }
}
