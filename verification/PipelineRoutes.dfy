/** Which ways through the states are really taken: every sequence of places that respects the
    table and the limits is the way of some run. */
module PipelineRoutes {
  import opened Wrappers
  import opened Strings
  import opened Fsm
  import opened Memory
  import opened Pipeline
  import opened PipelineTheorems
  import opened PipelineVetting
  import opened PipelineOutcomes
  import Obs = Observability

  /** Where a run stands at a loop head: its state, how often each fix loop has been taken,
      and how many malformed answers this visit has had. */
  datatype Place = Place(state: State, review: int, qa: int, retry: nat)

  const ENTRANCE := Place(Planning, 0, 0, 0)

  function PlaceOf(m: Machine): Place {
    Place(m.state, LoopCount(m.task, ReviewFix), LoopCount(m.task, QaFix), RetryCount(m))
  }

  /** The next state of the straight way. */
  function Forward(s: State): State {
    match s
    case Planning => Pm case Pm => Architect case Architect => Writer case Writer => Review
    case Review => Test case Test => Qa case Qa => Success case Fix => Review
    case _ => s
  }

  /** What one answer can do: nothing, lead forward, or send the run back to FIX. */
  predicate IsMove(p: Place, q: Place) {
    && HasHandler(p.state)
    && (|| (p.retry < STATE_MAX_RETRY && q == p.(retry := p.retry + 1))
        || q == p.(state := Forward(p.state), retry := 0)
        || (p.state == Review && p.review < MAX_REVIEW_FIX_LOOPS && q == Place(Fix, p.review + 1, p.qa, 0))
        || (p.state == Qa && p.qa < MAX_QA_FIX_LOOPS && q == Place(Fix, p.review, p.qa + 1, 0)))
  }

  /** The call as far as the driver's judgement depends on it. */
  function Asks(w: World, k: nat, s: State): CallRecord
    requires HasHandler(s)
  {
    CallRecord(AgentOf(s), [], w.agent(k), None, 0)
  }

  /** The k-th answer makes this move; a hook, if there is one, is content. */
  ghost predicate Leads(w: World, k: nat, p: Place, q: Place) {
    && IsMove(p, q)
    && var rec := Asks(w, k, p.state);
       if q.retry > 0 then Malformed(w, rec)
       else
         && Usable(w, rec) && !Malformed(w, rec)
         && (p.state == Review ==>
               if q.state == Test then Judges(w, rec, Approved, false) || Judges(w, rec, Approved, true)
               else Judges(w, rec, Rejected, true))
         && (p.state == Qa ==>
               if q.state == Success then
                 && (Judges(w, rec, Passed, false) || Judges(w, rec, Passed, true))
                 && (w.hook.None? || w.hook.value(k).NoReport? || w.hook.value(k).ReportOk?)
               else Judges(w, rec, Failed, true))
  }

  // ----- One move ---------------------------------------------------------------------------

  /** The handler's decision makes the move. */
  ghost predicate Makes(m1: Machine, d: Decision, p: Place, q: Place) {
    && m1.state == p.state
    && LoopCount(m1.task, ReviewFix) == q.review && LoopCount(m1.task, QaFix) == q.qa
    && (if q.retry > 0 then d.Retry? else d.Goto? && d.next == q.state)
  }

  lemma ReviewMoves(w: World, m: Machine, out: string, q: Place)
    requires JustAnswered(m, out) && m.state == Review && m.trace != []
    requires w.agent(|m.trace| - 1) == Text(out) && Leads(w, |m.trace| - 1, PlaceOf(m), q)
    ensures var (m1, d) := JudgeReview(w, m, out); Makes(m1, d, PlaceOf(m), q)
  {
    hide IsBlank, IsBlocked, RetryCount;
  }

  lemma QaMoves(w: World, m: Machine, out: string, q: Place)
    requires JustAnswered(m, out) && m.state == Qa && m.trace != []
    requires w.agent(|m.trace| - 1) == Text(out) && Leads(w, |m.trace| - 1, PlaceOf(m), q)
    ensures var (m1, d) := JudgeQa(w, m, out); Makes(m1, d, PlaceOf(m), q)
  {
    hide IsBlank, IsBlocked, RetryCount;
  }

  lemma OtherMoves(w: World, m: Machine, out: string, q: Place)
    requires JustAnswered(m, out) && m.state != Review && m.state != Qa && m.trace != []
    requires w.agent(|m.trace| - 1) == Text(out) && Leads(w, |m.trace| - 1, PlaceOf(m), q)
    ensures var (m1, d) := Judge(w, m, out); Makes(m1, d, PlaceOf(m), q)
  {
    hide IsBlank, IsBlocked, RetryCount, JudgeReview, JudgeQa;
  }

  lemma JudgeMoves(w: World, m: Machine, out: string, q: Place)
    requires JustAnswered(m, out) && m.trace != []
    requires w.agent(|m.trace| - 1) == Text(out) && Leads(w, |m.trace| - 1, PlaceOf(m), q)
    ensures var (m1, d) := Judge(w, m, out); Makes(m1, d, PlaceOf(m), q)
  {
    hide IsBlank, IsBlocked, Leads, Makes, PlaceOf, JudgeReview, JudgeQa, JudgeFix, JudgeJson, JudgeTest, JudgeWriter;
    if m.state == Review {
      ReviewMoves(w, m, out, q);
    } else if m.state == Qa {
      QaMoves(w, m, out, q);
    } else {
      OtherMoves(w, m, out, q);
    }
  }

  /** An answer that leads nowhere is malformed; one that leads on is text. */
  lemma LeadsByText(w: World, k: nat, p: Place, q: Place)
    requires Leads(w, k, p, q)
    ensures q.retry == 0 ==> w.agent(k).Text? && !IsBlank(w.agent(k).text)
    ensures w.agent(k).NoneReply? || w.agent(k).Text?
  {
    hide IsBlank, IsBlocked;
  }

  lemma HandleMoves(c: Config, w: World, id: string, m: Machine, q: Place)
    requires HasHandler(m.state) && Leads(w, |m.trace|, PlaceOf(m), q)
    ensures var (m1, outcome) := Handle(c, w, id, m);
            outcome.Decided? && Makes(m1, outcome.decision, PlaceOf(m), q) && m1.scratch == m.scratch
  {
    HandleShape(c, w, id, m);
    LeadsByText(w, |m.trace|, PlaceOf(m), q);
    var m0 := Invoke(c, w, id, m, AgentOf(m.state), Inputs(w, m));
    var reply := w.agent(|m.trace|);
    if reply.Text? && !IsBlank(reply.text) {
      assert PlaceOf(m0) == PlaceOf(m);
      JudgeMoves(w, m0, reply.text, q);
      hide Judge, Leads, Makes, Inputs, IsBlank, LedgerEntry, Decides, PlaceOf;
    } else {
      hide Judge, Inputs, IsBlank, LedgerEntry, Decides, Malformed, Usable;
    }
  }

  lemma StepMoves(c: Config, w: World, id: string, m: Machine, q: Place)
    requires HasHandler(m.state) && LimitReason(c, id, m).None? && Leads(w, |m.trace|, PlaceOf(m), q)
    ensures Step(c, w, id, m).Next? && PlaceOf(Step(c, w, id, m).machine) == q
  {
    HandleMoves(c, w, id, m, q);
    MoveAllowed(PlaceOf(m), q);
    hide Handle, LimitReason, Leads, CanTransition;
  }

  lemma MoveAllowed(p: Place, q: Place)
    requires IsMove(p, q)
    ensures q.retry == 0 ==> CanTransition(p.state, q.state)
    ensures q.retry > 0 ==> q == p.(retry := p.retry + 1) && q.retry <= STATE_MAX_RETRY
  {
  }

  // ----- A whole way ------------------------------------------------------------------------

  /** Every answer makes the next move. */
  ghost predicate IsRoute(w: World, route: seq<Place>) {
    && route != [] && route[0] == ENTRANCE
    && forall k | 0 <= k < |route| - 1 :: Leads(w, k, route[k], route[k + 1])
  }

  /** The edges of a route: moves that stay where they are leave none. */
  function TrailOf(route: seq<Place>): seq<TransitionRecord>
    requires route != []
  {
    var n := |route| - 1;
    if n == 0 then [TransitionRecord(Idle, route[0].state)]
    else if route[n].retry > 0 then TrailOf(route[..n])
    else TrailOf(route[..n]) + [TransitionRecord(route[n - 1].state, route[n].state)]
  }

  /** The run stands at the n-th place, and its trail and its calls so far were
      those of the places passed. */
  ghost predicate OnRoute(w: World, route: seq<Place>, n: nat, m: Machine) {
    && n < |route| && PlaceOf(m) == route[n]
    && m.task.transitions == TrailOf(route[..n + 1])
    && CallsListed(m) && |m.trace| == n
    && (forall k | 0 <= k < n ::
          HasHandler(route[k].state) && m.trace[k].agent == AgentOf(route[k].state) && m.trace[k].reply == w.agent(k))
    && (m.state == Success ==> n > 0 && HookPassed(w, m.trace[n - 1]))
  }

  /** No limit of the driver can end the run before n calls. */
  predicate RoomFor(c: Config, n: nat) {
    c.budget.None? && (c.maxSteps.Some? ==> c.maxSteps.value >= 21) && (c.maxCalls.Some? ==> n <= c.maxCalls.value + 1)
  }

  lemma WithinLimits(c: Config, id: string, m: Machine, n: nat)
    requires Audited(m) && HasHandler(m.state) && RoomFor(c, n) && |m.task.agentCalls| < n
    ensures LimitReason(c, id, m).None?
  {
    hide IsWalk, Edges;
  }

  /** Only agent and reply matter to whether an answer is malformed. */
  lemma SameJudgement(w: World, k: nat, s: State, rec: CallRecord)
    requires HasHandler(s) && rec.agent == AgentOf(s) && rec.reply == w.agent(k)
    ensures Malformed(w, rec) <==> Malformed(w, Asks(w, k, s))
  {
  }

  lemma TrailOfMore(route: seq<Place>, n: nat)
    requires n + 1 < |route|
    ensures TrailOf(route[..n + 2]) ==
            TrailOf(route[..n + 1]) +
            (if route[n + 1].retry > 0 then [] else [TransitionRecord(route[n].state, route[n + 1].state)])
  {
    assert route[..n + 2][..n + 1] == route[..n + 1];
  }

  /** A turn adds its edge to the trail unless the answer was malformed. */
  lemma TurnTrail(c: Config, w: World, id: string, m: Machine, m': Machine)
    requires HasHandler(m.state) && Turn(c, w, id, m, m')
    ensures |m'.trace| == |m.trace| + 1
    ensures m'.task.transitions ==
            m.task.transitions +
            (if Malformed(w, m'.trace[|m.trace|]) then [] else [TransitionRecord(m.state, m'.state)])
  {
    hide LimitReason, Recorded, StoreFirst, KindOf, Usable, VerdictOf, Malformed, HookPassed, BumpLoop, LoopCount,
      RetryCount, CanTransition;
    assert |m'.trace| == |m.trace| + 1 by { TurnCalls(c, w, id, m, m'); }
  }

  lemma TurnCalls(c: Config, w: World, id: string, m: Machine, m': Machine)
    requires HasHandler(m.state) && Turn(c, w, id, m, m')
    ensures |m'.trace| == |m.trace| + 1
    ensures m'.trace[|m.trace|].agent == AgentOf(m.state) && m'.trace[|m.trace|].reply == w.agent(|m.trace|)
  {
    hide LimitReason, Moved, AskedAgain, Inputs, LedgerEntry, Obs.Recorded, StoreFirst, KindOf, Usable, Malformed,
      AgentName;
  }

  lemma TrailGrows(c: Config, w: World, id: string, route: seq<Place>, n: nat, m: Machine, m': Machine)
    requires HasHandler(m.state) && n + 1 < |route| && m.state == route[n].state && m'.state == route[n + 1].state
    requires m.task.transitions == TrailOf(route[..n + 1]) && |m.trace| == n && Turn(c, w, id, m, m')
    requires Leads(w, n, route[n], route[n + 1])
    ensures m'.task.transitions == TrailOf(route[..n + 2])
  {
    TurnTrail(c, w, id, m, m');
    TurnCalls(c, w, id, m, m');
    TrailOfMore(route, n);
    assert Malformed(w, m'.trace[n]) <==> route[n + 1].retry > 0 by {
      hide Malformed, Usable, Judges, IsMove, Turn;
      SameJudgement(w, n, m.state, m'.trace[n]);
    }
    hide Turn, Malformed, TrailOf, Leads;
  }

  lemma CallsGrow(c: Config, w: World, id: string, route: seq<Place>, n: nat, m: Machine, m': Machine)
    requires OnRoute(w, route, n, m) && HasHandler(m.state) && n + 1 < |route| && Turn(c, w, id, m, m')
    ensures CallsListed(m') && |m'.trace| == n + 1
    ensures forall k | 0 <= k < n + 1 ::
              && HasHandler(route[k].state)
              && m'.trace[k].agent == AgentOf(route[k].state) && m'.trace[k].reply == w.agent(k)
  {
    hide LimitReason, Inputs, LedgerEntry, Obs.Recorded, StoreFirst, KindOf, Usable, VerdictOf, Malformed, HookPassed,
      BumpLoop, LoopCount, RetryCount, CanTransition, AgentName, TrailOf, Moved, AskedAgain;
    forall k | 0 <= k < n + 1
      ensures HasHandler(route[k].state)
      ensures m'.trace[k].agent == AgentOf(route[k].state) && m'.trace[k].reply == w.agent(k)
    {
      assert k < n ==> m'.trace[k] == m'.trace[..n][k] == m.trace[k];
    }
  }

  lemma TurnOnRoute(c: Config, w: World, id: string, route: seq<Place>, n: nat, m: Machine, m': Machine)
    requires OnRoute(w, route, n, m) && HasHandler(m.state) && n + 1 < |route|
    requires Turn(c, w, id, m, m') && PlaceOf(m') == route[n + 1] && Leads(w, n, route[n], route[n + 1])
    ensures OnRoute(w, route, n + 1, m')
  {
    TrailGrows(c, w, id, route, n, m, m');
    CallsGrow(c, w, id, route, n, m, m');
    hide LimitReason, Inputs, LedgerEntry, Obs.Recorded, StoreFirst, KindOf, Usable, VerdictOf, Malformed, HookPassed,
      BumpLoop, LoopCount, RetryCount, CanTransition, AgentName, Recorded, CallsListed, TrailOf, Leads;
  }

  /** The run passes through all places of the route. */
  lemma {:induction false} Travels(c: Config, w: World, id: string, route: seq<Place>, start: Machine, n: nat)
    returns (m: Machine)
    requires IsRoute(w, route) && OnRoute(w, route, 0, start) && Audited(start)
    requires n < |route| && RoomFor(c, n)
    ensures OnRoute(w, route, n, m) && Audited(m) && (HasHandler(m.state) || m.state == Success)
    ensures HasHandler(start.state) && DriveFrom(c, w, id, start) == DriveFrom(c, w, id, m)
  {
    if n == 0 {
      m := start;
    } else {
      var before := Travels(c, w, id, route, start, n - 1);
      assert Leads(w, n - 1, route[n - 1], route[n]);
      WithinLimits(c, id, before, n);
      StepMoves(c, w, id, before, route[n]);
      StepTurns(c, w, id, before);
      StepDecreases(c, w, id, before);
      m := Step(c, w, id, before).machine;
      hide Audited, Leads, Step, Turn, LimitReason, PlaceOf;
      TurnAudited(c, w, id, before, m);
      TurnOnRoute(c, w, id, route, n - 1, before, m);
    }
  }

  lemma StartOnRoute(w: World, route: seq<Place>, raw: string, seeds: map<Kind, string>,
                     ledger: seq<Obs.AgentCallRecord>)
    requires IsRoute(w, route)
    ensures OnRoute(w, route, 0, Start(raw, seeds, ledger))
  {
    hide Leads;
    assert route[..1] == [route[0]];
  }

  /** A run whose answers lead along a route to SUCCESS takes that way to its end, one call for
      each place. */
  lemma {:induction false} RouteTheorem(c: Config, w: World, id: string, raw: string, seeds: map<Kind, string>,
                                        ledger: seq<Obs.AgentCallRecord>, route: seq<Place>)
    requires IsRoute(w, route) && route[|route| - 1].state == Success && RoomFor(c, |route| - 1)
    ensures var r, last := Drive(c, w, id, raw, seeds, ledger), route[|route| - 1];
            && r.finalState == Success && OnRoute(w, route, |route| - 1, r.machine)
            && r.machine.task.transitions == TrailOf(route)
            && |r.machine.task.transitions| == Position(Success) + 2 * last.review + 4 * last.qa
  {
    StartAudited(raw, seeds, ledger);
    StartOnRoute(w, route, raw, seeds, ledger);
    hide IsRoute;
    var m := Travels(c, w, id, route, Start(raw, seeds, ledger), |route| - 1);
    assert route[..|route|] == route;
    hide IsWalk, Edges, CallsListed, RoomFor, LoopCount, TrailOf;
  }

  // ----- Answers for a given way -------------------------------------------------------------

  /** A JSON reader, texts that it reads as the four verdicts, and what writer, tester and
      fixer say at the k-th call. */
  datatype Cast = Cast(
    parse: string -> Option<Parsed>,
    approval: string,
    rejection: string,
    pass: string,
    failure: string,
    code: nat -> string
  )

  predicate Reads(parse: string -> Option<Parsed>, text: string, verdict: Verdict) {
    !IsBlank(text) && parse(text).Some? && parse(text).value.verdict == verdict
  }

  /** The cast has a text for the move that the k-th call makes. */
  predicate CanSay(cast: Cast, k: nat, p: Place, q: Place) {
    q.retry > 0 ||
    match p.state
    case Review =>
      if q.state == Test then Reads(cast.parse, cast.approval, Approved)
      else Reads(cast.parse, cast.rejection, Rejected) && HasFixItems(cast.parse(cast.rejection).value)
    case Qa =>
      if q.state == Success then Reads(cast.parse, cast.pass, Passed)
      else Reads(cast.parse, cast.failure, Failed) && HasFixItems(cast.parse(cast.failure).value)
    case Writer => !IsBlank(cast.code(k)) && !IsBlocked(cast.code(k))
    case Test => !IsBlank(cast.code(k)) && !IsBlocked(cast.code(k))
    case Fix => !IsBlank(cast.code(k)) && !IsBlocked(cast.code(k))
    case _ => Reads(cast.parse, cast.approval, Approved)
  }

  function Line(cast: Cast, k: nat, p: Place, q: Place): AgentReply {
    if q.retry > 0 then NoneReply
    else
      match p.state
      case Review => Text(if q.state == Test then cast.approval else cast.rejection)
      case Qa => Text(if q.state == Success then cast.pass else cast.failure)
      case Writer => Text(cast.code(k))
      case Test => Text(cast.code(k))
      case Fix => Text(cast.code(k))
      case _ => Text(cast.approval)
  }

  /** The world in which the cast plays a route. */
  function Stage(cast: Cast, route: seq<Place>, hook: Option<nat -> HookReply>): World {
    World((k: nat) => if k + 1 < |route| then Line(cast, k, route[k], route[k + 1]) else NoneReply,
          hook, None, _ => 0, cast.parse)
  }

  /** A sequence of moves that the cast has the texts for. */
  ghost predicate IsPlay(cast: Cast, route: seq<Place>) {
    && route != [] && route[0] == ENTRANCE
    && forall k | 0 <= k < |route| - 1 :: IsMove(route[k], route[k + 1]) && CanSay(cast, k, route[k], route[k + 1])
  }

  ghost predicate IsContent(hook: Option<nat -> HookReply>) {
    hook.None? || forall k: nat :: hook.value(k) == NoReport
  }

  lemma LineLeads(w: World, cast: Cast, k: nat, p: Place, q: Place)
    requires IsMove(p, q) && CanSay(cast, k, p, q)
    requires w.agent(k) == Line(cast, k, p, q) && w.parse == cast.parse && IsContent(w.hook)
    ensures Leads(w, k, p, q)
  {
    hide IsBlank, IsBlocked;
  }

  lemma {:induction false} StageIsRoute(cast: Cast, route: seq<Place>, hook: Option<nat -> HookReply>)
    requires IsPlay(cast, route) && IsContent(hook)
    ensures IsRoute(Stage(cast, route, hook), route)
  {
    var w := Stage(cast, route, hook);
    hide IsMove, CanSay, Leads, Line, IsContent;
    forall k | 0 <= k < |route| - 1 ensures Leads(w, k, route[k], route[k + 1]) {
      LineLeads(w, cast, k, route[k], route[k + 1]);
    }
  }

  const DEFAULT_LIMITS := Config(NoObservability, None, Some(MAX_TOTAL_STEPS), Some(MAX_TOTAL_AGENT_CALLS))

  /** A play that ends in SUCCESS is a run to SUCCESS along its route. */
  lemma {:induction false} PlayedToTheEnd(cast: Cast, route: seq<Place>, id: string, raw: string,
                                          seeds: map<Kind, string>, ledger: seq<Obs.AgentCallRecord>)
    requires IsPlay(cast, route) && |route| <= 42 && route[|route| - 1].state == Success
    ensures var r, last := Drive(DEFAULT_LIMITS, Stage(cast, route, None), id, raw, seeds, ledger), route[|route| - 1];
            && r.finalState == Success && r.machine.task.transitions == TrailOf(route)
            && |r.machine.task.transitions| == Position(Success) + 2 * last.review + 4 * last.qa
  {
    StageIsRoute(cast, route, None);
    hide IsRoute, OnRoute, Stage, IsPlay, TrailOf, Drive;
    RouteTheorem(DEFAULT_LIMITS, Stage(cast, route, None), id, raw, seeds, ledger, route);
  }

  /** A play of 41 calls that is not over then is stopped by the call limit. */
  lemma {:induction false} PlayedTooLong(cast: Cast, route: seq<Place>, id: string, raw: string,
                                         seeds: map<Kind, string>, ledger: seq<Obs.AgentCallRecord>)
    requires IsPlay(cast, route) && |route| == 42 && HasHandler(route[41].state)
    ensures var r := Drive(DEFAULT_LIMITS, Stage(cast, route, None), id, raw, seeds, ledger);
            r.failureReason == Some(MaxTotalAgentCallsExceeded(41)) && |r.machine.task.agentCalls| == 41
  {
    StageIsRoute(cast, route, None);
    hide IsRoute, Stage, IsPlay, Drive;
    RouteStops(Stage(cast, route, None), id, raw, seeds, ledger, route);
  }

  lemma {:induction false} RouteStops(w: World, id: string, raw: string, seeds: map<Kind, string>,
                                      ledger: seq<Obs.AgentCallRecord>, route: seq<Place>)
    requires IsRoute(w, route) && |route| == 42 && HasHandler(route[41].state)
    ensures var r := Drive(DEFAULT_LIMITS, w, id, raw, seeds, ledger);
            r.failureReason == Some(MaxTotalAgentCallsExceeded(41)) && |r.machine.task.agentCalls| == 41
  {
    StartAudited(raw, seeds, ledger);
    StartOnRoute(w, route, raw, seeds, ledger);
    hide IsRoute, Audited, TrailOf, AgentName, LoopCount, RetryCount, DriveFrom, HookPassed;
    var m := Travels(DEFAULT_LIMITS, w, id, route, Start(raw, seeds, ledger), 41);
    LimitEnds(DEFAULT_LIMITS, w, id, m);
  }

  lemma LimitEnds(c: Config, w: World, id: string, m: Machine)
    requires HasHandler(m.state) && Audited(m) && c == DEFAULT_LIMITS && |m.task.agentCalls| == 41
    ensures var r := DriveFrom(c, w, id, m);
            r.failureReason == Some(MaxTotalAgentCallsExceeded(41)) && r.machine.task.agentCalls == m.task.agentCalls
  {
    assert LimitReason(c, id, m) == Some(MaxTotalAgentCallsExceeded(41)) by { hide IsWalk, Edges; }
    hide LimitReason, Handle, CanTransition, TerminalFor, Audited;
  }
}
