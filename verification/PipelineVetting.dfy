/** What SUCCESS means, and what the fixer is told, in every pipeline run. */
module PipelineVetting {
  import opened Wrappers
  import opened Fsm
  import opened Memory
  import opened Pipeline
  import opened PipelineTheorems
  import Obs = Observability

  // ----- SUCCESS certifies one code text ----------------------------------------------------

  /** The code an agent was shown. */
  function CodeSeen(rec: CallRecord): Option<string> {
    match rec.agent
    case Reviewer => if |rec.args| == 2 then Some(rec.args[0]) else None
    case Tester => if |rec.args| == 2 then Some(rec.args[0]) else None
    case QaAgent => if |rec.args| == 5 then Some(rec.args[2]) else None
    case Fixer => if |rec.args| == 3 then Some(rec.args[0]) else None
    case _ => None
  }

  /** All calls from lo up to hi are calls of one agent, shown one code. */
  ghost predicate Only(trace: seq<CallRecord>, lo: int, hi: int, a: Agent, code: string) {
    forall k | lo <= k < hi && 0 <= k < |trace| :: trace[k].agent == a && CodeSeen(trace[k]) == Some(code)
  }

  /** Call i is a reviewer's approval of the code, in the words of `review`. */
  ghost predicate ApprovedAt(w: World, trace: seq<CallRecord>, i: int, code: string, review: string) {
    && 0 <= i < |trace|
    && trace[i].agent == Reviewer && CodeSeen(trace[i]) == Some(code)
    && trace[i].reply == Text(review) && VerdictOf(w, trace[i]) == Approved
  }

  /** The newest calls are an approval of the code and then tester calls on it. */
  ghost predicate ReadyToTest(w: World, trace: seq<CallRecord>, code: string, review: string) {
    exists i :: ApprovedAt(w, trace, i, code, review) && Only(trace, i + 1, |trace|, Tester, code)
  }

  /** ... an approval, tester calls of which the last is usable, and then QA calls. */
  ghost predicate ReadyForQa(w: World, trace: seq<CallRecord>, code: string, review: string) {
    exists i, j ::
      && ApprovedAt(w, trace, i, code, review)
      && i < j < |trace| && Only(trace, i + 1, j + 1, Tester, code) && Usable(w, trace[j])
      && Only(trace, j + 1, |trace|, QaAgent, code)
  }

  /** The newest call is a QA pass of the approved and tested code, with the approving
      review in hand, and the hook run on it did not object. */
  ghost predicate Certified(w: World, trace: seq<CallRecord>, code: string, review: string) {
    && trace != []
    && ReadyForQa(w, trace[..|trace| - 1], code, review)
    && var last := trace[|trace| - 1];
       && last.agent == QaAgent && CodeSeen(last) == Some(code) && last.args[3] == review
       && VerdictOf(w, last) == Passed && HookPassed(w, last)
  }

  function Code(m: Machine): string { m.scratch.latestCode.GetOr("") }

  function ReviewText(m: Machine): string { m.scratch.latestReview.GetOr("") }

  /** The states whose agent is shown the current code. */
  predicate ShowsCode(s: State) {
    s == Review || s == Test || s == Qa || s == Fix
  }

  /** How far the current code has come, at a loop head. */
  ghost predicate Vetted(w: World, m: Machine) {
    && (ShowsCode(m.state) || m.state == Success ==> m.scratch.latestCode.Some? && Code(m) != "")
    && (m.state == Test || m.state == Qa ==> m.scratch.latestReview.Some? && ReviewText(m) != "")
    && (m.state == Test ==> ReadyToTest(w, m.trace, Code(m), ReviewText(m)))
    && (m.state == Qa ==> ReadyForQa(w, m.trace, Code(m), ReviewText(m)))
    && (m.state == Success ==> exists review :: Certified(w, m.trace, Code(m), review))
  }

  lemma UsableIsText(w: World, rec: CallRecord)
    requires Usable(w, rec)
    ensures rec.reply.Text? && rec.reply.text != ""
  {
  }

  /** The calls a state makes show its agent the current code. */
  lemma InputsShowCode(w: World, m: Machine, rec: CallRecord)
    requires ShowsCode(m.state) && Code(m) != ""
    requires rec.agent == AgentOf(m.state) && rec.args == Inputs(w, m)
    ensures CodeSeen(rec) == Some(Code(m))
    ensures m.state == Qa && ReviewText(m) != "" ==> |rec.args| == 5 && rec.args[3] == ReviewText(m)
  {
  }

  lemma TestCallAdded(w: World, trace: seq<CallRecord>, rec: CallRecord, code: string, review: string)
    requires ReadyToTest(w, trace, code, review)
    requires rec.agent == Tester && CodeSeen(rec) == Some(code)
    ensures ReadyToTest(w, trace + [rec], code, review)
    ensures Usable(w, rec) ==> ReadyForQa(w, trace + [rec], code, review)
  {
    hide VerdictOf, Usable, CodeSeen;
    var i :| ApprovedAt(w, trace, i, code, review) && Only(trace, i + 1, |trace|, Tester, code);
    var trace' := trace + [rec];
    assert ApprovedAt(w, trace', i, code, review);
    assert Only(trace', i + 1, |trace'|, Tester, code);
    if Usable(w, rec) {
      assert i < |trace| < |trace'| && trace'[|trace|] == rec;
      assert Only(trace', i + 1, |trace| + 1, Tester, code) && Only(trace', |trace| + 1, |trace'|, QaAgent, code);
    }
  }

  lemma QaCallAdded(w: World, trace: seq<CallRecord>, rec: CallRecord, code: string, review: string)
    requires ReadyForQa(w, trace, code, review)
    requires rec.agent == QaAgent && CodeSeen(rec) == Some(code)
    ensures ReadyForQa(w, trace + [rec], code, review)
  {
    hide VerdictOf, Usable, CodeSeen;
    var i, j :|
      && ApprovedAt(w, trace, i, code, review)
      && i < j < |trace| && Only(trace, i + 1, j + 1, Tester, code) && Usable(w, trace[j])
      && Only(trace, j + 1, |trace|, QaAgent, code);
    var trace' := trace + [rec];
    assert ApprovedAt(w, trace', i, code, review);
    assert Only(trace', i + 1, j + 1, Tester, code) && trace'[j] == trace[j];
    assert Only(trace', j + 1, |trace'|, QaAgent, code);
  }

  lemma ApprovalAdded(w: World, trace: seq<CallRecord>, rec: CallRecord, code: string, review: string)
    requires rec.agent == Reviewer && CodeSeen(rec) == Some(code)
    requires rec.reply == Text(review) && VerdictOf(w, rec) == Approved
    ensures ReadyToTest(w, trace + [rec], code, review)
  {
    hide VerdictOf, CodeSeen;
    var trace' := trace + [rec];
    assert ApprovedAt(w, trace', |trace|, code, review);
    assert Only(trace', |trace| + 1, |trace'|, Tester, code);
  }

  /** What the newest call adds to the vetting of the code it showed. */
  ghost predicate CallAdds(w: World, m: Machine, rec: CallRecord, trace: seq<CallRecord>) {
    && (m.state == Review && rec.reply.Text? && VerdictOf(w, rec) == Approved ==>
          ReadyToTest(w, trace, Code(m), rec.reply.text))
    && (m.state == Test ==> ReadyToTest(w, trace, Code(m), ReviewText(m)))
    && (m.state == Test && Usable(w, rec) ==> ReadyForQa(w, trace, Code(m), ReviewText(m)))
    && (m.state == Qa ==> ReadyForQa(w, trace, Code(m), ReviewText(m)))
    && (m.state == Qa && VerdictOf(w, rec) == Passed && HookPassed(w, rec) ==>
        Certified(w, trace, Code(m), ReviewText(m)))
  }

  lemma CallVetted(c: Config, w: World, id: string, m: Machine, m': Machine)
    requires HasHandler(m.state) && Vetted(w, m) && Recorded(c, w, id, m, m')
    ensures CallAdds(w, m, m'.trace[|m.trace|], m'.trace)
  {
    var rec := m'.trace[|m.trace|];
    assert m'.trace == m.trace + [rec] && m'.trace[..|m.trace|] == m.trace;
    assert rec.agent == AgentOf(m.state) && rec.args == Inputs(w, m);
    hide Recorded, Usable, VerdictOf, HookPassed, CodeSeen, ReadyToTest, ReadyForQa, Certified, Inputs, CallAdds,
      AgentOf;
    if ShowsCode(m.state) {
      InputsShowCode(w, m, rec);
    }
    ShownCallAdds(w, m, rec);
  }

  lemma ShownCallAdds(w: World, m: Machine, rec: CallRecord)
    requires HasHandler(m.state) && Vetted(w, m) && rec.agent == AgentOf(m.state)
    requires ShowsCode(m.state) ==> CodeSeen(rec) == Some(Code(m))
    requires m.state == Qa ==> |rec.args| == 5 && rec.args[3] == ReviewText(m)
    ensures CallAdds(w, m, rec, m.trace + [rec])
  {
    assert (m.trace + [rec])[..|m.trace|] == m.trace;
    hide Usable, VerdictOf, HookPassed, CodeSeen, ReadyToTest, ReadyForQa;
    match m.state
    case Review =>
      if rec.reply.Text? && VerdictOf(w, rec) == Approved {
        ApprovalAdded(w, m.trace, rec, Code(m), rec.reply.text);
      }
    case Test => TestCallAdded(w, m.trace, rec, Code(m), ReviewText(m));
    case Qa => QaCallAdded(w, m.trace, rec, Code(m), ReviewText(m));
    case _ =>
  }

  lemma AskedAgainVetted(w: World, m: Machine, m': Machine, rec: CallRecord)
    requires HasHandler(m.state) && Vetted(w, m) && AskedAgain(m, m') && CallAdds(w, m, rec, m'.trace)
    ensures Vetted(w, m')
  {
    hide Usable, VerdictOf, HookPassed, ReadyToTest, ReadyForQa, Certified, RetryCount, LoopCount;
  }

  lemma MovedVetted(w: World, m: Machine, m': Machine, rec: CallRecord)
    requires HasHandler(m.state) && Vetted(w, m) && Moved(w, m, m', rec) && CallAdds(w, m, rec, m'.trace)
    requires rec.agent == AgentOf(m.state)
    ensures Vetted(w, m')
  {
    UsableIsText(w, rec);
    hide Usable, VerdictOf, HookPassed, QaSentBack, ReadyToTest, ReadyForQa, Certified, RetryCount, LoopCount,
      BumpLoop, LoopOf, LoopLimit, CanTransition;
    if m'.state == Success {
      assert Certified(w, m'.trace, Code(m'), ReviewText(m));
    }
  }

  lemma TurnVetted(c: Config, w: World, id: string, m: Machine, m': Machine)
    requires HasHandler(m.state) && Vetted(w, m) && Turn(c, w, id, m, m')
    ensures Vetted(w, m')
  {
    var rec := m'.trace[|m.trace|];
    CallVetted(c, w, id, m, m');
    assert rec.agent == AgentOf(m.state) by { hide LimitReason, Moved, AskedAgain, Malformed, Usable; }
    hide Vetted, CallAdds, Recorded, LimitReason, Moved, AskedAgain, Malformed;
    if Malformed(w, rec) {
      AskedAgainVetted(w, m, m', rec);
    } else {
      MovedVetted(w, m, m', rec);
    }
  }

  lemma {:induction false} DriveFromVetted(c: Config, w: World, id: string, m: Machine)
    requires HasHandler(m.state) || m.state == Success
    requires Vetted(w, m) && m.scratch.latestCode == NewestCode(w, m.trace)
    ensures var r := DriveFrom(c, w, id, m);
            r.finalState == Success ==>
              exists code, review :: Certified(w, r.machine.trace, code, review)
                  && NewestCode(w, r.machine.trace) == Some(code)
    decreases FixBudget(m.task), Distance(m.state), RetriesLeft(m)
  {
    if HasHandler(m.state) {
      hide Vetted, Step, NewestCode, Recorded, Moved, AskedAgain, Certified;
      StepTurns(c, w, id, m);
      match Step(c, w, id, m)
      case Next(m') =>
        TurnVetted(c, w, id, m, m');
        TurnNewestCode(c, w, id, m, m');
        StepDecreases(c, w, id, m);
        DriveFromVetted(c, w, id, m');
      case Stop(r) =>
    } else {
      var review :| Certified(w, m.trace, Code(m), review);
      assert NewestCode(w, m.trace) == Some(Code(m));
    }
  }

  /** A walk to SUCCESS can only have come through REVIEW, TEST and QA. */
  lemma SuccessTail(trail: seq<TransitionRecord>)
    requires IsWalk(trail, Success)
    ensures var n := |trail|;
            && n >= 3
            && trail[n - 3..] ==
               [TransitionRecord(Review, Test), TransitionRecord(Test, Qa), TransitionRecord(Qa, Success)]
  {
    var n := |trail|;
    assert trail[n - 1].fromState == Qa;
    assert n >= 2 && trail[n - 2].toState == Qa && trail[n - 2].fromState == Test;
    assert n >= 3 && trail[n - 3].toState == Test && trail[n - 3].fromState == Review;
  }

  /** SUCCESS means that one code text passed everything: the newest code any agent wrote
      was approved by the last reviewer call, shown to every tester call after that, then
      to every QA call, and passed the last of them - which saw that very approval - and
      the hook, if there is one. The trail ends REVIEW, TEST, QA, SUCCESS. */
  lemma SuccessTheorem(c: Config, w: World, id: string, raw: string, seeds: map<Kind, string>,
                       ledger: seq<Obs.AgentCallRecord>)
    ensures var r := Drive(c, w, id, raw, seeds, ledger);
            var trail := r.machine.task.transitions;
            r.finalState == Success ==>
              && |trail| >= 3
              && trail[|trail| - 3..] ==
                 [TransitionRecord(Review, Test), TransitionRecord(Test, Qa), TransitionRecord(Qa, Success)]
              && exists code, review ::
                   Certified(w, r.machine.trace, code, review) && NewestCode(w, r.machine.trace) == Some(code)
  {
    hide DriveFrom;
    TrailTheorem(c, w, id, raw, seeds, ledger);
    if Drive(c, w, id, raw, seeds, ledger).finalState == Success {
      SuccessTail(Drive(c, w, id, raw, seeds, ledger).machine.task.transitions);
    }
    DriveFromVetted(c, w, id, Start(raw, seeds, ledger));
  }

  // ----- What the fixer is told ---------------------------------------------------------------

  /** Call j sent the run to FIX, and `review` is where the fixer's items are then taken
      from: a rejecting reviewer's answer; or the hook's report; but after a QA FAIL the
      answer of the reviewer who had approved that code, not QA's own. */
  ghost predicate SentToFix(w: World, trace: seq<CallRecord>, j: int, review: Option<string>) {
    && 0 <= j < |trace|
    && match trace[j].agent
       case Reviewer => VerdictOf(w, trace[j]) == Rejected && review == Some(trace[j].reply.text)
       case QaAgent =>
         if trace[j].hook.Some? then
           && trace[j].hook.value.reply.ReportFailed?
           && review == Some(trace[j].hook.value.reply.review)
         else
           && VerdictOf(w, trace[j]) == Failed
           && exists code, text :: ReadyForQa(w, trace[..j], code, text) && review == Some(text)
       case _ => false
  }

  ghost predicate FixerWaiting(w: World, trace: seq<CallRecord>, review: Option<string>) {
    exists j :: SentToFix(w, trace, j, review) && forall k | j < k < |trace| :: trace[k].agent == Fixer
  }

  /** Every fixer call follows, after fixer calls only, the call that sent the run to FIX,
      and is given the items of that call's review. */
  ghost predicate FixerBriefed(w: World, trace: seq<CallRecord>) {
    forall k | 0 <= k < |trace| && trace[k].agent == Fixer :: BriefedAt(w, trace, k)
  }

  ghost predicate BriefedAt(w: World, trace: seq<CallRecord>, k: int)
    requires 0 <= k < |trace|
  {
    exists review: string ::
      && FixerWaiting(w, trace[..k], Some(review))
      && |trace[k].args| == 3
      && (review != "" ==> trace[k].args[1] == ExtractForFixer(w, review))
  }

  ghost predicate Briefed(w: World, m: Machine) {
    && FixerBriefed(w, m.trace)
    && (m.state == Fix ==> m.scratch.latestReview.Some? && FixerWaiting(w, m.trace, m.scratch.latestReview))
  }

  lemma FixerCallAdded(w: World, trace: seq<CallRecord>, rec: CallRecord, review: Option<string>)
    requires FixerWaiting(w, trace, review) && rec.agent == Fixer
    ensures FixerWaiting(w, trace + [rec], review)
  {
    var j :| SentToFix(w, trace, j, review) && forall k | j < k < |trace| :: trace[k].agent == Fixer;
    var trace' := trace + [rec];
    assert trace'[..j] == trace[..j];
    assert SentToFix(w, trace', j, review);
  }

  lemma BriefedPrefix(w: World, trace: seq<CallRecord>, rec: CallRecord)
    requires FixerBriefed(w, trace)
    requires rec.agent == Fixer ==> BriefedAt(w, trace + [rec], |trace|)
    ensures FixerBriefed(w, trace + [rec])
  {
    hide FixerWaiting, ExtractForFixer;
    var trace' := trace + [rec];
    forall k | 0 <= k < |trace'| && trace'[k].agent == Fixer ensures BriefedAt(w, trace', k) {
      if k < |trace| {
        assert trace'[..k] == trace[..k];
        assert BriefedAt(w, trace, k);
      }
    }
  }

  /** What a call in FIX is given. */
  lemma FixerInputs(w: World, m: Machine, args: seq<string>)
    requires m.state == Fix && m.scratch.latestReview.Some? && args == Inputs(w, m)
    ensures |args| == 3
    ensures m.scratch.latestReview.value != "" ==> args[1] == ExtractForFixer(w, m.scratch.latestReview.value)
  {
    hide ExtractForFixer;
  }

  lemma RecordedBriefed(c: Config, w: World, id: string, m: Machine, m': Machine)
    requires HasHandler(m.state) && Briefed(w, m) && Recorded(c, w, id, m, m')
    ensures FixerBriefed(w, m'.trace)
  {
    var rec := m'.trace[|m.trace|];
    assert m'.trace == m.trace + [rec] && m'.trace[..|m.trace|] == m.trace;
    assert rec.agent == AgentOf(m.state) && rec.args == Inputs(w, m);
    hide Recorded, FixerWaiting, ExtractForFixer, Inputs, FixerBriefed;
    if m.state == Fix {
      FixerInputs(w, m, rec.args);
      assert BriefedAt(w, m'.trace, |m.trace|);
    }
    BriefedPrefix(w, m.trace, rec);
  }

  /** A run that comes to FIX has just been sent there. */
  lemma SentByMove(w: World, m: Machine, m': Machine, rec: CallRecord)
    requires HasHandler(m.state) && Vetted(w, m) && Moved(w, m, m', rec)
    requires m'.state == Fix && rec.agent == AgentOf(m.state)
    requires m'.trace == m.trace + [rec] && m'.trace[..|m.trace|] == m.trace
    ensures SentToFix(w, m'.trace, |m.trace|, m'.scratch.latestReview) && m'.scratch.latestReview.Some?
  {
    UsableIsText(w, rec);
    hide Usable, HookPassed, VerdictOf, ReadyForQa, ReadyToTest, Certified, RetryCount, LoopCount, BumpLoop,
      CanTransition;
  }

  lemma TurnBriefed(c: Config, w: World, id: string, m: Machine, m': Machine)
    requires HasHandler(m.state) && Vetted(w, m) && Briefed(w, m) && Turn(c, w, id, m, m')
    ensures Briefed(w, m')
  {
    RecordedBriefed(c, w, id, m, m');
    var rec := m'.trace[|m.trace|];
    assert m'.trace == m.trace + [rec] && m'.trace[..|m.trace|] == m.trace && rec.agent == AgentOf(m.state);
    hide Recorded, LimitReason, Malformed, Vetted, FixerBriefed, SentToFix;
    if m'.state == Fix {
      if m.state == Fix {
        StaysInFix(w, m, m', rec);
        FixerCallAdded(w, m.trace, rec, m.scratch.latestReview);
      } else {
        hide Moved, AskedAgain, FixerWaiting;
        assert !Malformed(w, rec) by { hide FixerWaiting; StaysOrMoves(w, m, m', rec); }
        SentByMove(w, m, m', rec);
        NewlyWaiting(w, m'.trace, m'.scratch.latestReview);
      }
    }
  }

  lemma StaysInFix(w: World, m: Machine, m': Machine, rec: CallRecord)
    requires m.state == m'.state == Fix && (if Malformed(w, rec) then AskedAgain(m, m') else Moved(w, m, m', rec))
    ensures m'.scratch.latestReview == m.scratch.latestReview
  {
    hide Malformed, Usable, VerdictOf, HookPassed;
  }

  lemma StaysOrMoves(w: World, m: Machine, m': Machine, rec: CallRecord)
    requires m.state != m'.state && (if Malformed(w, rec) then AskedAgain(m, m') else Moved(w, m, m', rec))
    ensures !Malformed(w, rec)
  {
    hide Malformed, Moved;
  }

  lemma NewlyWaiting(w: World, trace: seq<CallRecord>, review: Option<string>)
    requires trace != [] && SentToFix(w, trace, |trace| - 1, review)
    ensures FixerWaiting(w, trace, review)
  {
    hide SentToFix;
  }

  lemma {:induction false} DriveFromBriefed(c: Config, w: World, id: string, m: Machine)
    requires HasHandler(m.state) || m.state == Success
    requires Vetted(w, m) && Briefed(w, m)
    ensures FixerBriefed(w, DriveFrom(c, w, id, m).machine.trace)
    decreases FixBudget(m.task), Distance(m.state), RetriesLeft(m)
  {
    if HasHandler(m.state) {
      StepTurns(c, w, id, m);
      match Step(c, w, id, m)
      case Next(m') =>
        hide Vetted, Step, FixerBriefed, FixerWaiting, Recorded, Moved, AskedAgain;
        TurnVetted(c, w, id, m, m');
        TurnBriefed(c, w, id, m, m');
        StepDecreases(c, w, id, m);
        DriveFromBriefed(c, w, id, m');
      case Stop(r) =>
        hide Vetted, Step, FixerBriefed, FixerWaiting, Recorded;
        if LimitReason(c, id, m).None? {
          RecordedBriefed(c, w, id, m, r.machine);
        }
    }
  }

  /** In every run, every fixer call works on the items described by `SentToFix`. */
  lemma FixerTheorem(c: Config, w: World, id: string, raw: string, seeds: map<Kind, string>,
                     ledger: seq<Obs.AgentCallRecord>)
    ensures FixerBriefed(w, Drive(c, w, id, raw, seeds, ledger).machine.trace)
  {
    hide DriveFrom;
    DriveFromBriefed(c, w, id, Start(raw, seeds, ledger));
  }
}
