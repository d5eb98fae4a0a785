/** What every agent call of every run is given, in terms of the task, the seeds and the calls
    before it. */
module PipelineInputs {
  import opened Wrappers
  import opened Fsm
  import opened Memory
  import opened Pipeline
  import opened PipelineTheorems
  import opened PipelineVetting
  import opened PipelineHook
  import Obs = Observability

  /** A document: its seed, or its author's first usable answer so far, or nothing. */
  function Document(w: World, seeds: map<Kind, string>, before: seq<CallRecord>, kind: Kind, author: Agent): string {
    if kind in seeds then seeds[kind] else FirstUsable(w, before, author).GetOr("")
  }

  /** The newest review: a usable answer of the reviewer, or the one rendered from a failing
      report of the hook. */
  function NewestReview(w: World, before: seq<CallRecord>): Option<string> {
    if before == [] then None
    else
      var last := before[|before| - 1];
      if last.hook.Some? && last.hook.value.reply.ReportFailed? then Some(last.hook.value.reply.review)
      else if last.agent == Reviewer && Usable(w, last) then Some(last.reply.text)
      else NewestReview(w, before[..|before| - 1])
  }

  /** The review that QA and the fixer are given: the newest, or the document if that is empty. */
  function ReviewGiven(w: World, seeds: map<Kind, string>, before: seq<CallRecord>): string {
    var review := NewestReview(w, before).GetOr("");
    if review != "" then review else Document(w, seeds, before, ReviewDoc, Reviewer)
  }

  /** The arguments of a call with these calls before it, agent by agent. */
  ghost predicate IsGiven(w: World, raw: string, seeds: map<Kind, string>, before: seq<CallRecord>, rec: CallRecord) {
    var plan := Document(w, seeds, before, PlanningDoc, Planner);
    var pm := Document(w, seeds, before, PmDoc, PmAgent);
    var architecture := Document(w, seeds, before, ArchitectDoc, ArchitectAgent);
    var test := Document(w, seeds, before, TestDoc, Tester);
    var code := NewestCode(w, before).GetOr("");
    var review := ReviewGiven(w, seeds, before);
    match rec.agent
    case Planner => rec.args == [raw]
    case PmAgent => rec.args == [plan]
    case ArchitectAgent => rec.args == [pm]
    case WriterAgent => rec.args == [architecture]
    case Reviewer => rec.args == [code, architecture]
    case Tester => rec.args == [code, architecture]
    case QaAgent => rec.args == [pm, architecture, code, review, test]
    case Fixer =>
      && |rec.args| == 3 && rec.args[0] == code && rec.args[2] == architecture
      && var p := w.parse(review);
         rec.args[1] == if p.Some? && p.value.forFixer.Some? then p.value.forFixer.value.dumped else "[]"
  }

  ghost predicate AllGiven(w: World, raw: string, seeds: map<Kind, string>, trace: seq<CallRecord>) {
    forall k | 0 <= k < |trace| :: IsGiven(w, raw, seeds, trace[..k], trace[k])
  }

  /** What the driver holds at a loop head is what the calls so far have made of it. */
  ghost predicate Holds(w: World, raw: string, seeds: map<Kind, string>, m: Machine) {
    && m.task.rawTask == raw && Sourced(w, seeds, m)
    && m.scratch.latestCode == NewestCode(w, m.trace)
    && (ShowsCode(m.state) ==> m.scratch.latestCode.Some? && m.scratch.latestCode.value != "")
    && HoldsReview(w, m)
  }

  lemma DocumentHeld(w: World, seeds: map<Kind, string>, m: Machine, a: Agent)
    requires Sourced(w, seeds, m)
    ensures Artifact(m.task, KindOf(a)) == Document(w, seeds, m.trace, KindOf(a), a)
  {
    hide FirstUsable, KindOf;
  }

  lemma InputsAreGiven(w: World, raw: string, seeds: map<Kind, string>, m: Machine, rec: CallRecord)
    requires HasHandler(m.state) && Holds(w, raw, seeds, m)
    requires rec.agent == AgentOf(m.state) && rec.args == Inputs(w, m)
    ensures IsGiven(w, raw, seeds, m.trace, rec)
  {
    DocumentHeld(w, seeds, m, Planner);
    DocumentHeld(w, seeds, m, PmAgent);
    DocumentHeld(w, seeds, m, ArchitectAgent);
    DocumentHeld(w, seeds, m, Reviewer);
    DocumentHeld(w, seeds, m, Tester);
    if m.state == Qa || m.state == Fix {
      ReviewGivenHeld(w, seeds, m);
    }
    hide FirstUsable, NewestCode, NewestReview, Document, Artifact, Sourced, ReviewGiven, CurrentReview;
  }

  lemma ReviewGivenHeld(w: World, seeds: map<Kind, string>, m: Machine)
    requires Sourced(w, seeds, m) && HoldsReview(w, m) && (m.state == Qa || m.state == Fix)
    ensures CurrentReview(m.scratch, m.task) == ReviewGiven(w, seeds, m.trace)
  {
    DocumentHeld(w, seeds, m, Reviewer);
    hide FirstUsable, NewestReview, Document, Artifact, Sourced;
  }

  ghost predicate HoldsReview(w: World, m: Machine) {
    m.state == Test || m.state == Qa || m.state == Fix ==> m.scratch.latestReview == NewestReview(w, m.trace)
  }

  /** A malformed answer of QA was not followed by a run of the hook. */
  lemma NoHookYet(w: World, rec: CallRecord, k: nat, artifacts: map<Kind, string>)
    requires Malformed(w, rec) && HookShown(w, rec, k, artifacts)
    ensures rec.hook.None?
  {
    hide IsBlocked;
  }

  lemma AskedAgainReview(w: World, m: Machine, m': Machine, rec: CallRecord)
    requires HasHandler(m.state) && HoldsReview(w, m) && AskedAgain(m, m')
    requires m'.trace == m.trace + [rec] && rec.agent == AgentOf(m.state) && rec.hook.None?
    ensures HoldsReview(w, m')
  {
    assert m'.trace[..|m'.trace| - 1] == m.trace;
    hide Usable, RetryCount;
  }

  lemma MovedReview(w: World, m: Machine, m': Machine, rec: CallRecord, k: nat)
    requires HasHandler(m.state) && HoldsReview(w, m) && Moved(w, m, m', rec)
    requires m'.trace == m.trace + [rec] && rec.agent == AgentOf(m.state) && HookShown(w, rec, k, m'.task.artifacts)
    ensures HoldsReview(w, m')
  {
    assert m'.trace[..|m'.trace| - 1] == m.trace;
    hide Usable, HookPassed, VerdictOf, RetryCount, LoopCount, BumpLoop, CanTransition;
  }

  /** The code in the driver's hands is there from WRITER on. */
  lemma MovedCode(w: World, m: Machine, m': Machine, rec: CallRecord)
    requires HasHandler(m.state) && Moved(w, m, m', rec) && rec.agent == AgentOf(m.state)
    requires ShowsCode(m.state) ==> m.scratch.latestCode.Some? && m.scratch.latestCode.value != ""
    ensures ShowsCode(m'.state) ==> m'.scratch.latestCode.Some? && m'.scratch.latestCode.value != ""
  {
    UsableIsText(w, rec);
    hide Usable, HookPassed, VerdictOf, QaSentBack, RetryCount, LoopCount, BumpLoop, CanTransition;
  }

  lemma TurnHolds(c: Config, w: World, id: string, raw: string, seeds: map<Kind, string>, m: Machine, m': Machine)
    requires HasHandler(m.state) && Holds(w, raw, seeds, m) && Turn(c, w, id, m, m')
    requires |m'.trace| == |m.trace| + 1 && HookShown(w, m'.trace[|m.trace|], |m.trace|, m'.task.artifacts)
    ensures Holds(w, raw, seeds, m')
  {
    var rec := m'.trace[|m.trace|];
    RecordedSourced(c, w, id, seeds, m, m');
    TurnNewestCode(c, w, id, m, m');
    RecordedCall(c, w, id, m, m');
    hide LimitReason, Recorded, Moved, AskedAgain, Malformed, NewestCode, NewestReview, Sourced, HookShown;
    if Malformed(w, rec) {
      NoHookYet(w, rec, |m.trace|, m'.task.artifacts);
      AskedAgainReview(w, m, m', rec);
      SameCode(m, m');
    } else {
      MovedReview(w, m, m', rec, |m.trace|);
      MovedCode(w, m, m', rec);
    }
  }

  lemma SameCode(m: Machine, m': Machine)
    requires AskedAgain(m, m')
    ensures m'.state == m.state && m'.scratch.latestCode == m.scratch.latestCode
  {
    hide RetryCount;
  }

  lemma RecordedCall(c: Config, w: World, id: string, m: Machine, m': Machine)
    requires HasHandler(m.state) && Recorded(c, w, id, m, m')
    ensures |m'.trace| == |m.trace| + 1 && m'.trace == m.trace + [m'.trace[|m.trace|]]
    ensures m'.trace[..|m.trace|] == m.trace && m'.task.rawTask == m.task.rawTask
    ensures m'.trace[|m.trace|].agent == AgentOf(m.state) && m'.trace[|m.trace|].args == Inputs(w, m)
  {
    hide Inputs, LedgerEntry, Obs.Recorded, StoreFirst, KindOf, Usable, AgentName;
  }

  lemma RecordedGiven(c: Config, w: World, id: string, raw: string, seeds: map<Kind, string>, m: Machine, m': Machine)
    requires HasHandler(m.state) && Holds(w, raw, seeds, m) && Recorded(c, w, id, m, m')
    requires AllGiven(w, raw, seeds, m.trace)
    ensures AllGiven(w, raw, seeds, m'.trace)
  {
    RecordedCall(c, w, id, m, m');
    hide Recorded, IsGiven, Inputs, Holds;
    InputsAreGiven(w, raw, seeds, m, m'.trace[|m.trace|]);
    forall k | 0 <= k < |m'.trace| ensures IsGiven(w, raw, seeds, m'.trace[..k], m'.trace[k]) {
      if k < |m.trace| {
        assert m'.trace[..k] == m.trace[..k] && m'.trace[k] == m.trace[k];
      }
    }
  }

  lemma {:induction false} DriveFromGiven(c: Config, w: World, id: string, raw: string, seeds: map<Kind, string>,
                                          m: Machine)
    requires HasHandler(m.state) || IsTerminal(m.state)
    requires Holds(w, raw, seeds, m) && AllGiven(w, raw, seeds, m.trace)
    ensures AllGiven(w, raw, seeds, DriveFrom(c, w, id, m).machine.trace)
    decreases FixBudget(m.task), Distance(m.state), RetriesLeft(m)
  {
    if HasHandler(m.state) {
      StepTurns(c, w, id, m);
      if LimitReason(c, id, m).None? {
        StepShowsHook(c, w, id, m);
      }
      match Step(c, w, id, m)
      case Next(m') =>
        RecordedGiven(c, w, id, raw, seeds, m, m');
        TurnHolds(c, w, id, raw, seeds, m, m');
        StepDecreases(c, w, id, m);
        hide Holds, AllGiven, Step, Turn, HookShown;
        DriveFromGiven(c, w, id, raw, seeds, m');
      case Stop(r) =>
        if LimitReason(c, id, m).None? {
          RecordedGiven(c, w, id, raw, seeds, m, r.machine);
        }
        hide Holds, AllGiven, Step, HookShown, Recorded;
    }
  }

  /** In every run every call is given exactly the documents, code and review that its agent is
      to work on: the documents are seeds or first usable answers, the code is the newest, and the
      review the newest of the reviewer's and the hook's. */
  lemma InputsTheorem(c: Config, w: World, id: string, raw: string, seeds: map<Kind, string>,
                      ledger: seq<Obs.AgentCallRecord>)
    ensures AllGiven(w, raw, seeds, Drive(c, w, id, raw, seeds, ledger).machine.trace)
  {
    var m := Start(raw, seeds, ledger);
    forall a | KindOf(a) !in seeds ensures FirstUsable(w, m.trace, a) == None {}
    hide IsGiven;
    DriveFromGiven(c, w, id, raw, seeds, m);
  }
}
