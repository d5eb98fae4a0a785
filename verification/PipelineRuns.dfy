/** Which runs there are: the trails of successful ones, the longest ones, and runs through
    FIX. */
module PipelineRuns {
  import opened Wrappers
  import opened Strings
  import opened Fsm
  import opened Memory
  import opened Pipeline
  import opened PipelineTheorems
  import opened PipelineVetting
  import opened PipelineHook
  import opened PipelineRoutes
  import Obs = Observability

  // ----- The trails of successful runs ---------------------------------------------------------

  /** What TrailTheorem says of the trail of a successful run. */
  ghost predicate IsSuccessTrail(trail: seq<TransitionRecord>) {
    && IsWalk(trail, Success)
    && Edges(trail, Review, Fix) <= MAX_REVIEW_FIX_LOOPS
    && Edges(trail, Qa, Fix) <= MAX_QA_FIX_LOOPS
    && Edges(trail, Test, Fix) == 0
  }

  /** The places of a walk without malformed answers. */
  function RouteOf(trail: seq<TransitionRecord>): seq<Place> {
    seq(|trail|, k requires 0 <= k < |trail| =>
      Place(trail[k].toState, Edges(trail[..k + 1], Review, Fix), Edges(trail[..k + 1], Qa, Fix), 0))
  }

  lemma {:induction false} EdgesOfPrefix(trail: seq<TransitionRecord>, n: nat, f: State, t: State)
    requires n <= |trail|
    ensures Edges(trail[..n], f, t) <= Edges(trail, f, t)
  {
    if n == |trail| {
      assert trail[..n] == trail;
    } else {
      assert trail[..|trail| - 1][..n] == trail[..n];
      EdgesOfPrefix(trail[..|trail| - 1], n, f, t);
    }
  }

  lemma {:induction false} NoSuchEdge(trail: seq<TransitionRecord>, k: nat, f: State, t: State)
    requires k < |trail| && Edges(trail, f, t) == 0
    ensures trail[k] != TransitionRecord(f, t)
  {
    EdgesOfPrefix(trail, k + 1, f, t);
    assert trail[..k + 1][..k] == trail[..k];
  }

  /** Where a walk to SUCCESS can be on its way. */
  lemma {:induction false} OnItsWay(trail: seq<TransitionRecord>, k: nat)
    requires IsWalk(trail, Success) && k < |trail| && Edges(trail, Test, Fix) == 0
    ensures trail[k].fromState != Idle || k == 0
    ensures k < |trail| - 1 ==> HasHandler(trail[k].toState)
    ensures !IsTerminal(trail[k].toState) || trail[k].toState == Success
    ensures k > 0 ==> trail[k].toState == Forward(trail[k].fromState) ||
                      (trail[k].toState == Fix && (trail[k].fromState == Review || trail[k].fromState == Qa))
  {
    NoSuchEdge(trail, k, Test, Fix);
    assert CanTransition(trail[k].fromState, trail[k].toState);
    if k < |trail| - 1 {
      assert CanTransition(trail[k + 1].fromState, trail[k + 1].toState) && trail[k].toState == trail[k + 1].fromState;
    }
    if k > 0 {
      assert CanTransition(trail[k - 1].fromState, trail[k - 1].toState) && trail[k - 1].toState == trail[k].fromState;
    }
    hide Edges;
  }

  lemma {:induction false} WalkMoves(trail: seq<TransitionRecord>, k: nat)
    requires IsSuccessTrail(trail) && k < |trail| - 1
    ensures IsMove(RouteOf(trail)[k], RouteOf(trail)[k + 1])
  {
    OnItsWay(trail, k);
    OnItsWay(trail, k + 1);
    assert trail[k].toState == trail[k + 1].fromState;
    assert trail[..k + 2] == trail[..k + 1] + [trail[k + 1]];
    EdgesAppend(trail[..k + 1], trail[k + 1], Review, Fix);
    EdgesAppend(trail[..k + 1], trail[k + 1], Qa, Fix);
    EdgesOfPrefix(trail, k + 2, Review, Fix);
    EdgesOfPrefix(trail, k + 2, Qa, Fix);
    hide Edges, IsWalk, CanTransition;
  }

  lemma {:induction false} WalkRoute(trail: seq<TransitionRecord>, n: nat)
    requires IsWalk(trail, Success) && n < |trail|
    ensures TrailOf(RouteOf(trail)[..n + 1]) == trail[..n + 1]
  {
    var route := RouteOf(trail);
    hide Edges, CanTransition;
    if n > 0 {
      WalkRoute(trail, n - 1);
      assert route[..n + 1][..n] == route[..n];
      assert trail[n - 1].toState == trail[n].fromState;
      assert trail[..n + 1] == trail[..n] + [trail[n]];
    } else {
      StartsAtPlanning(trail);
    }
  }

  lemma {:induction false} StartsAtPlanning(trail: seq<TransitionRecord>)
    requires IsWalk(trail, Success)
    ensures trail[0] == TransitionRecord(Idle, Planning)
  {
    assert CanTransition(trail[0].fromState, trail[0].toState);
  }

  /** Without malformed answers the number of places passed is fixed by the last one. */
  lemma {:induction false} RouteLength(route: seq<Place>, n: nat)
    requires n < |route| && route[0] == ENTRANCE
    requires forall k | 0 <= k < |route| :: route[k].retry == 0
    requires forall k | 0 <= k < |route| - 1 :: IsMove(route[k], route[k + 1])
    ensures n + 1 == Position(route[n].state) + 2 * route[n].review + 4 * route[n].qa
  {
    if n > 0 {
      RouteLength(route, n - 1);
      assert IsMove(route[n - 1], route[n]);
    }
  }

  lemma {:induction false} NoLoopsYet(trail: seq<TransitionRecord>)
    requires trail != [] && trail[0] == TransitionRecord(Idle, Planning)
    ensures RouteOf(trail)[0] == ENTRANCE
  {
    assert trail[..1] == [] + [trail[0]];
    EdgesAppend([], trail[0], Review, Fix);
    EdgesAppend([], trail[0], Qa, Fix);
  }

  lemma {:induction false} WalkIsPlay(cast: Cast, trail: seq<TransitionRecord>)
    requires IsSuccessTrail(trail) && IsFullCast(cast)
    ensures IsPlay(cast, RouteOf(trail))
  {
    var route := RouteOf(trail);
    StartsAtPlanning(trail);
    NoLoopsYet(trail);
    hide IsMove, CanSay, IsSuccessTrail, IsWalk, Edges, IsFullCast;
    forall k | 0 <= k < |route| - 1
      ensures IsMove(route[k], route[k + 1]) && CanSay(cast, k, route[k], route[k + 1])
    {
      WalkMoves(trail, k);
      FullCastCanSay(cast, k, route[k], route[k + 1]);
    }
  }

  lemma {:induction false} WalkEnds(trail: seq<TransitionRecord>)
    requires IsSuccessTrail(trail)
    ensures |trail| <= 22 && TrailOf(RouteOf(trail)) == trail && RouteOf(trail)[|trail| - 1].state == Success
  {
    var route := RouteOf(trail);
    StartsAtPlanning(trail);
    NoLoopsYet(trail);
    forall k | 0 <= k < |route| - 1 ensures IsMove(route[k], route[k + 1]) {
      WalkMoves(trail, k);
    }
    hide IsMove, TrailOf, Edges, CanTransition;
    RouteLength(route, |trail| - 1);
    WalkRoute(trail, |trail| - 1);
    assert route[..|trail|] == route && trail[..|trail|] == trail;
  }

  /** The cast has all texts. */
  ghost predicate IsFullCast(cast: Cast) {
    && Reads(cast.parse, cast.approval, Approved) && Reads(cast.parse, cast.pass, Passed)
    && Reads(cast.parse, cast.rejection, Rejected) && HasFixItems(cast.parse(cast.rejection).value)
    && Reads(cast.parse, cast.failure, Failed) && HasFixItems(cast.parse(cast.failure).value)
    && forall k: nat :: !IsBlank(cast.code(k)) && !IsBlocked(cast.code(k))
  }

  lemma FullCastCanSay(cast: Cast, k: nat, p: Place, q: Place)
    requires IsFullCast(cast)
    ensures CanSay(cast, k, p, q)
  {
    hide IsBlank, IsBlocked;
  }

  predicate SucceedsBy(w: World, id: string, raw: string, seeds: map<Kind, string>, ledger: seq<Obs.AgentCallRecord>,
                       trail: seq<TransitionRecord>) {
    var r := Drive(DEFAULT_LIMITS, w, id, raw, seeds, ledger);
    r.finalState == Success && r.machine.task.transitions == trail
  }

  lemma WalkSucceeds(cast: Cast, id: string, raw: string, seeds: map<Kind, string>, ledger: seq<Obs.AgentCallRecord>,
                     trail: seq<TransitionRecord>)
    requires IsFullCast(cast) && IsSuccessTrail(trail)
    ensures SucceedsBy(Stage(cast, RouteOf(trail), None), id, raw, seeds, ledger, trail)
  {
    var route := RouteOf(trail);
    WalkIsPlay(cast, trail);
    WalkEnds(trail);
    hide Stage, IsPlay, IsFullCast, IsSuccessTrail, TrailOf, Drive;
    PlayedToTheEnd(cast, route, id, raw, seeds, ledger);
  }

  /** Exactly which trails successful runs leave, for a reader that knows the four verdicts:
      the walks along the table from IDLE to SUCCESS that never go from TEST to FIX and take
      REVIEW to FIX three times and QA to FIX twice at most. */
  lemma SuccessTrails(cast: Cast, id: string, raw: string, seeds: map<Kind, string>, ledger: seq<Obs.AgentCallRecord>,
                      trail: seq<TransitionRecord>)
    requires IsFullCast(cast)
    ensures (exists w: World :: w.parse == cast.parse && SucceedsBy(w, id, raw, seeds, ledger, trail)) <==>
            IsSuccessTrail(trail)
  {
    hide Drive, IsFullCast, IsWalk, Edges;
    if IsSuccessTrail(trail) {
      WalkSucceeds(cast, id, raw, seeds, ledger, trail);
      assert Stage(cast, RouteOf(trail), None).parse == cast.parse;
    } else if w: World :| w.parse == cast.parse && SucceedsBy(w, id, raw, seeds, ledger, trail) {
      TrailTheorem(DEFAULT_LIMITS, w, id, raw, seeds, ledger);
    }
  }

  // ----- Success needs an approving and a passing text, and no more -------------------------------

  const STRAIGHT: seq<Place> :=
    [Place(Planning, 0, 0, 0), Place(Pm, 0, 0, 0), Place(Architect, 0, 0, 0), Place(Writer, 0, 0, 0),
     Place(Review, 0, 0, 0), Place(Test, 0, 0, 0), Place(Qa, 0, 0, 0), Place(Success, 0, 0, 0)]

  lemma StraightMoves(k: nat)
    requires k < |STRAIGHT| - 1
    ensures IsMove(STRAIGHT[k], STRAIGHT[k + 1]) && STRAIGHT[k + 1].retry == 0
    ensures STRAIGHT[k].state != Fix && STRAIGHT[k + 1].state != Fix
    ensures STRAIGHT[k].state == Review ==> STRAIGHT[k + 1].state == Test
    ensures STRAIGHT[k].state == Qa ==> STRAIGHT[k + 1].state == Success
  {
  }

  lemma StraightIsPlay(cast: Cast)
    requires Reads(cast.parse, cast.approval, Approved) && Reads(cast.parse, cast.pass, Passed)
    requires forall k: nat :: !IsBlank(cast.code(k)) && !IsBlocked(cast.code(k))
    ensures IsPlay(cast, STRAIGHT)
  {
    hide Reads, IsMove, IsBlank, IsBlocked;
    forall k | 0 <= k < |STRAIGHT| - 1
      ensures IsMove(STRAIGHT[k], STRAIGHT[k + 1]) && CanSay(cast, k, STRAIGHT[k], STRAIGHT[k + 1])
    {
      StraightMoves(k);
      StraightText(cast, k, STRAIGHT[k], STRAIGHT[k + 1]);
    }
  }

  lemma StraightText(cast: Cast, k: nat, p: Place, q: Place)
    requires Reads(cast.parse, cast.approval, Approved) && Reads(cast.parse, cast.pass, Passed)
    requires !IsBlank(cast.code(k)) && !IsBlocked(cast.code(k))
    requires p.state == Review ==> q.state == Test
    requires p.state == Qa ==> q.state == Success
    ensures CanSay(cast, k, p, q)
  {
    hide Reads, IsBlank, IsBlocked;
  }

  lemma OkIsCode()
    ensures !IsBlank("ok") && !IsBlocked("ok")
  {
    assert LStrip("ok") == RStrip("ok") == "ok";
  }

  /** Whatever JSON reader the driver uses, as long as it finds nothing in a blank text: a task
      can be brought to SUCCESS, within the limits and whatever its seeds, exactly if there is a
      text that the reader takes for an approval and one that it takes for a pass. */
  lemma SuccessIsPossible(parse: string -> Option<Parsed>, id: string, raw: string, seeds: map<Kind, string>,
                          ledger: seq<Obs.AgentCallRecord>)
    requires forall text | IsBlank(text) :: parse(text).None?
    ensures (exists w: World ::
               w.parse == parse && Drive(DEFAULT_LIMITS, w, id, raw, seeds, ledger).finalState == Success) <==>
            (exists a, p :: Reads(parse, a, Approved) && Reads(parse, p, Passed))
  {
    hide Drive, Certified, IsBlank;
    if a, p :| Reads(parse, a, Approved) && Reads(parse, p, Passed) {
      OkIsCode();
      var w := Stage(Cast(parse, a, "", p, "", _ => "ok"), STRAIGHT, None);
      StraightRun(Cast(parse, a, "", p, "", _ => "ok"), id, raw, seeds, ledger);
      assert w.parse == parse;
    }
    if w: World :| w.parse == parse && Drive(DEFAULT_LIMITS, w, id, raw, seeds, ledger).finalState == Success {
      SuccessTheorem(DEFAULT_LIMITS, w, id, raw, seeds, ledger);
      var trace := Drive(DEFAULT_LIMITS, w, id, raw, seeds, ledger).machine.trace;
      var code, review :| Certified(w, trace, code, review);
      CertifiedReads(w, trace, code, review);
    }
  }

  lemma StraightRun(cast: Cast, id: string, raw: string, seeds: map<Kind, string>, ledger: seq<Obs.AgentCallRecord>)
    requires Reads(cast.parse, cast.approval, Approved) && Reads(cast.parse, cast.pass, Passed)
    requires forall k: nat :: !IsBlank(cast.code(k)) && !IsBlocked(cast.code(k))
    ensures Drive(DEFAULT_LIMITS, Stage(cast, STRAIGHT, None), id, raw, seeds, ledger).finalState == Success
  {
    StraightIsPlay(cast);
    hide Stage, IsPlay, TrailOf, Drive, Reads, IsBlank, IsBlocked;
    PlayedToTheEnd(cast, STRAIGHT, id, raw, seeds, ledger);
  }

  lemma CertifiedReads(w: World, trace: seq<CallRecord>, code: string, review: string)
    requires Certified(w, trace, code, review)
    requires forall text | IsBlank(text) :: w.parse(text).None?
    ensures exists a, p :: Reads(w.parse, a, Approved) && Reads(w.parse, p, Passed)
  {
    var before, last := trace[..|trace| - 1], trace[|trace| - 1];
    var i, j :| ApprovedAt(w, before, i, code, review) && i < j < |before|;
    hide HookPassed, Only, Usable, CodeSeen, IsBlank;
    assert Reads(w.parse, review, Approved);
    assert Reads(w.parse, last.reply.text, Passed);
  }

  // ----- The bounds are reached -----------------------------------------------------------------

  /** Three reviews and two QA verdicts send the run back. */
  function Longest(): seq<Place> {
    [Place(Planning, 0, 0, 0), Place(Pm, 0, 0, 0), Place(Architect, 0, 0, 0), Place(Writer, 0, 0, 0),
     Place(Review, 0, 0, 0), Place(Fix, 1, 0, 0), Place(Review, 1, 0, 0), Place(Fix, 2, 0, 0),
     Place(Review, 2, 0, 0), Place(Fix, 3, 0, 0), Place(Review, 3, 0, 0), Place(Test, 3, 0, 0),
     Place(Qa, 3, 0, 0), Place(Fix, 3, 1, 0), Place(Review, 3, 1, 0), Place(Test, 3, 1, 0),
     Place(Qa, 3, 1, 0), Place(Fix, 3, 2, 0), Place(Review, 3, 2, 0), Place(Test, 3, 2, 0),
     Place(Qa, 3, 2, 0), Place(Success, 3, 2, 0)]
  }

  lemma LongestMoves(k: nat)
    requires k < |Longest()| - 1
    ensures IsMove(Longest()[k], Longest()[k + 1]) && Longest()[k].retry == Longest()[k + 1].retry == 0
  {
  }

  lemma LongestIsPlay(cast: Cast)
    requires IsFullCast(cast)
    ensures IsPlay(cast, Longest())
  {
    forall k | 0 <= k < |Longest()| - 1
      ensures IsMove(Longest()[k], Longest()[k + 1]) && CanSay(cast, k, Longest()[k], Longest()[k + 1])
    {
      LongestMoves(k);
      FullCastCanSay(cast, k, Longest()[k], Longest()[k + 1]);
    }
    hide IsMove, CanSay, IsFullCast;
  }

  lemma LongestEnds()
    ensures |Longest()| == 22 && Longest()[21] == Place(Success, 3, 2, 0)
  {
  }

  /** The bound of 22 edges is exact: there is a run with that many. */
  lemma LongestRun(cast: Cast, id: string, raw: string, seeds: map<Kind, string>, ledger: seq<Obs.AgentCallRecord>)
    requires IsFullCast(cast)
    ensures var r := Drive(DEFAULT_LIMITS, Stage(cast, Longest(), None), id, raw, seeds, ledger);
            r.finalState == Success && |r.machine.task.transitions| == 22
  {
    hide Longest, IsFullCast, IsPlay, Drive, Stage, TrailOf;
    LongestIsPlay(cast);
    LongestEnds();
    PlayedToTheEnd(cast, Longest(), id, raw, seeds, ledger);
  }

  /** The same way with two malformed answers at every place, as far as 41 calls lead. */
  function Stumbling(): seq<Place> {
    seq(42, k requires 0 <= k < 42 => Longest()[k / 3].(retry := k % 3))
  }

  lemma StumblingMoves(k: nat)
    requires k < 41
    ensures IsMove(Stumbling()[k], Stumbling()[k + 1])
  {
    LongestMoves(k / 3);
    var p := Longest()[k / 3];
    if k % 3 < 2 {
      assert (k + 1) / 3 == k / 3 && (k + 1) % 3 == k % 3 + 1;
      HasHandlerAt(k / 3);
    } else {
      assert (k + 1) / 3 == k / 3 + 1 && (k + 1) % 3 == 0;
    }
    hide HasHandler;
  }

  lemma HasHandlerAt(j: nat)
    requires j < |Longest()| - 1
    ensures HasHandler(Longest()[j].state)
  {
    LongestMoves(j);
  }

  /** The bound of 41 calls is exact: there is a run that is stopped for that reason. */
  lemma CallLimitIsReached(cast: Cast, id: string, raw: string, seeds: map<Kind, string>,
                           ledger: seq<Obs.AgentCallRecord>)
    requires IsFullCast(cast)
    ensures var r := Drive(DEFAULT_LIMITS, Stage(cast, Stumbling(), None), id, raw, seeds, ledger);
            r.failureReason == Some(MaxTotalAgentCallsExceeded(41)) && |r.machine.task.agentCalls| == 41
  {
    StumblingIsPlay(cast);
    StumblingEnds();
    hide IsFullCast, IsPlay, Drive, Stage, Stumbling;
    PlayedTooLong(cast, Stumbling(), id, raw, seeds, ledger);
  }

  lemma StumblingIsPlay(cast: Cast)
    requires IsFullCast(cast)
    ensures IsPlay(cast, Stumbling())
  {
    StumblingEnds();
    var route := Stumbling();
    hide IsMove, CanSay, IsFullCast, Stumbling;
    forall k | 0 <= k < |route| - 1
      ensures IsMove(route[k], route[k + 1]) && CanSay(cast, k, route[k], route[k + 1])
    {
      StumblingMoves(k);
      FullCastCanSay(cast, k, route[k], route[k + 1]);
    }
  }

  lemma StumblingEnds()
    ensures |Stumbling()| == 42 && Stumbling()[0] == ENTRANCE && HasHandler(Stumbling()[41].state)
  {
    HasHandlerAt(13);
  }

  // ----- Runs through FIX -----------------------------------------------------------------------

  /** QA fails the code once. */
  function QaFailsOnce(): seq<Place> {
    [Place(Planning, 0, 0, 0), Place(Pm, 0, 0, 0), Place(Architect, 0, 0, 0), Place(Writer, 0, 0, 0),
     Place(Review, 0, 0, 0), Place(Test, 0, 0, 0), Place(Qa, 0, 0, 0), Place(Fix, 0, 1, 0),
     Place(Review, 0, 1, 0), Place(Test, 0, 1, 0), Place(Qa, 0, 1, 0), Place(Success, 0, 1, 0)]
  }

  /** QA fails the code twice. */
  function QaFailsTwice(): seq<Place> {
    QaFailsOnce()[..11] +
    [Place(Fix, 0, 2, 0), Place(Review, 0, 2, 0), Place(Test, 0, 2, 0), Place(Qa, 0, 2, 0), Place(Success, 0, 2, 0)]
  }

  lemma OnceMoves(k: nat)
    requires k < |QaFailsOnce()| - 1
    ensures IsMove(QaFailsOnce()[k], QaFailsOnce()[k + 1])
  {
  }

  lemma TwiceMoves(k: nat)
    requires k < |QaFailsTwice()| - 1
    ensures IsMove(QaFailsTwice()[k], QaFailsTwice()[k + 1])
  {
    if k < 10 {
      OnceMoves(k);
    }
  }

  /** A full cast can play every sequence of moves. */
  lemma {:induction false} FullCastPlays(cast: Cast, route: seq<Place>)
    requires IsFullCast(cast) && route != [] && route[0] == ENTRANCE
    requires forall k | 0 <= k < |route| - 1 :: IsMove(route[k], route[k + 1])
    ensures IsPlay(cast, route)
  {
    hide IsMove, CanSay, IsFullCast;
    forall k | 0 <= k < |route| - 1 ensures CanSay(cast, k, route[k], route[k + 1]) {
      FullCastCanSay(cast, k, route[k], route[k + 1]);
    }
  }

  /** A run on this route: agents and answers call by call, and a content hook at the end. */
  lemma {:induction false} Played(cast: Cast, route: seq<Place>, hook: Option<nat -> HookReply>, id: string,
                                  raw: string, seeds: map<Kind, string>, ledger: seq<Obs.AgentCallRecord>)
    requires IsPlay(cast, route) && IsContent(hook) && |route| <= 42 && route[|route| - 1].state == Success
    ensures var w := Stage(cast, route, hook);
            var trace := Drive(DEFAULT_LIMITS, w, id, raw, seeds, ledger).machine.trace;
            && |trace| == |route| - 1 > 0 && HookPassed(w, trace[|trace| - 1])
            && forall k: nat | k < |trace| :: CallIs(cast, route, k, trace[k])
  {
    var w := Stage(cast, route, hook);
    StageIsRoute(cast, route, hook);
    hide IsRoute, IsPlay, TrailOf, Drive, Line, IsContent, HookPassed, CallsListed;
    RouteTheorem(DEFAULT_LIMITS, w, id, raw, seeds, ledger, route);
  }

  /** The k-th call asks the agent of the k-th place and gets the cast's line. */
  ghost predicate CallIs(cast: Cast, route: seq<Place>, k: nat, rec: CallRecord) {
    && k + 1 < |route| && HasHandler(route[k].state) && rec.agent == AgentOf(route[k].state)
    && rec.reply == Line(cast, k, route[k], route[k + 1])
  }

  /** A QA FAIL whose fixer is told the approving review's items, in every world with the four
      texts: the fixer call comes right after the QA call that failed the code. */
  lemma FixerIsToldApproval(cast: Cast, id: string, raw: string, seeds: map<Kind, string>,
                            ledger: seq<Obs.AgentCallRecord>)
    requires IsFullCast(cast)
    ensures var w := Stage(cast, QaFailsOnce(), None);
            var r := Drive(DEFAULT_LIMITS, w, id, raw, seeds, ledger);
            var trace := r.machine.trace;
            && r.finalState == Success && |trace| == 11
            && trace[6].agent == QaAgent && trace[6].reply == Text(cast.failure) && VerdictOf(w, trace[6]) == Failed
            && trace[7].agent == Fixer && |trace[7].args| == 3
            && trace[7].args[1] == ExtractForFixer(w, cast.approval)
  {
    var route := QaFailsOnce();
    forall k | 0 <= k < |route| - 1 ensures IsMove(route[k], route[k + 1]) { OnceMoves(k); }
    assert |route| == 12 && route[0] == ENTRANCE && route[11].state == Success;
    FullCastPlays(cast, route);
    Played(cast, route, None, id, raw, seeds, ledger);
    PlayedToTheEnd(cast, route, id, raw, seeds, ledger);
    var w := Stage(cast, route, None);
    var trace := Drive(DEFAULT_LIMITS, w, id, raw, seeds, ledger).machine.trace;
    OnceCalls(cast, w, trace);
    FixerTheorem(DEFAULT_LIMITS, w, id, raw, seeds, ledger);
    HookTheorem(DEFAULT_LIMITS, w, id, raw, seeds, ledger);
    hide Drive, QaFailsOnce, IsPlay, TrailOf, Stage, IsFullCast;
    BriefedByApproval(w, seeds, trace, cast);
  }

  /** The agents of these eleven calls. */
  function FirstAgents(): (r: seq<Agent>)
    ensures |r| == 11
  {
    [Planner, PmAgent, ArchitectAgent, WriterAgent, Reviewer, Tester, QaAgent, Fixer, Reviewer, Tester, QaAgent]
  }

  lemma OnceAgents(k: nat)
    requires k < 11
    ensures HasHandler(QaFailsOnce()[k].state)
    ensures AgentOf(QaFailsOnce()[k].state) == FirstAgents()[k]
  {
  }

  lemma OnceCalls(cast: Cast, w: World, trace: seq<CallRecord>)
    requires IsFullCast(cast) && w.parse == cast.parse && |trace| == 11
    requires forall k: nat | k < 11 :: CallIs(cast, QaFailsOnce(), k, trace[k])
    ensures StraightToQa(trace, cast.approval)
    ensures trace[6].reply == Text(cast.failure) && VerdictOf(w, trace[6]) == Failed
    ensures trace[7].agent == Fixer && cast.approval != ""
  {
    hide AgentOf;
    OnceLines(cast, w, trace);
    hide IsFullCast, VerdictOf, Line;
    forall k: nat | k < 8
      ensures trace[k].agent == FirstAgents()[k]
    {
      OnceAgents(k);
      assert CallIs(cast, QaFailsOnce(), k, trace[k]);
    }
  }

  lemma OnceLines(cast: Cast, w: World, trace: seq<CallRecord>)
    requires IsFullCast(cast) && w.parse == cast.parse && |trace| == 11
    requires CallIs(cast, QaFailsOnce(), 4, trace[4]) && CallIs(cast, QaFailsOnce(), 6, trace[6])
    ensures trace[4].reply == Text(cast.approval) && cast.approval != ""
    ensures trace[6].reply == Text(cast.failure) && VerdictOf(w, trace[6]) == Failed
  {
    assert IsBlank("");
    hide IsBlocked, IsBlank, AgentOf;
    assert trace[4].reply == Line(cast, 4, Place(Review, 0, 0, 0), Place(Test, 0, 0, 0));
    assert trace[6].reply == Line(cast, 6, Place(Qa, 0, 0, 0), Place(Fix, 0, 1, 0));
  }

  /** The first seven calls are one each, up to QA, and the review is this text. */
  predicate StraightToQa(trace: seq<CallRecord>, review: string) {
    && |trace| >= 7
    && trace[0].agent == Planner && trace[1].agent == PmAgent && trace[2].agent == ArchitectAgent
    && trace[3].agent == WriterAgent && trace[4].agent == Reviewer && trace[4].reply == Text(review)
    && trace[5].agent == Tester && trace[6].agent == QaAgent
  }

  /** With QA as the newest call it is QA that sent the run to FIX. */
  lemma SenderIsNewest(w: World, trace: seq<CallRecord>, review: Option<string>)
    requires FixerWaiting(w, trace, review) && trace != [] && trace[|trace| - 1].agent == QaAgent
    ensures SentToFix(w, trace, |trace| - 1, review)
  {
    hide ReadyForQa, VerdictOf;
    var j :| SentToFix(w, trace, j, review) && forall k | j < k < |trace| :: trace[k].agent == Fixer;
  }

  /** There is only one review that QA can have had in hand. */
  lemma OnlyReview(w: World, trace: seq<CallRecord>, code: string, text: string, review: string)
    requires |trace| >= 6 && StraightToQa(trace, review) && ReadyForQa(w, trace[..6], code, text)
    ensures text == review
  {
    var before := trace[..6];
    hide Only, VerdictOf, Usable, CodeSeen;
    var i, l :| ApprovedAt(w, before, i, code, text) && i < l < |before|;
    assert before[i] == trace[i] && i == 4;
  }

  lemma BriefedByApproval(w: World, seeds: map<Kind, string>, trace: seq<CallRecord>, cast: Cast)
    requires FixerBriefed(w, trace) && HooksSourced(w, seeds, trace) && |trace| >= 8
    requires StraightToQa(trace, cast.approval) && VerdictOf(w, trace[6]) == Failed
    requires trace[7].agent == Fixer && cast.approval != ""
    ensures |trace[7].args| == 3 && trace[7].args[1] == ExtractForFixer(w, cast.approval)
  {
    hide ExtractForFixer, SourcedFrom, VerdictOf, FixerWaiting, ReadyForQa;
    assert trace[6].hook.None?;
    assert BriefedAt(w, trace, 7);
    var before := trace[..7];
    assert before[6] == trace[6] && before[..6] == trace[..6];
    var review: string :| FixerWaiting(w, before, Some(review))
        && (review != "" ==> trace[7].args[1] == ExtractForFixer(w, review));
    SenderIsNewest(w, before, Some(review));
    var code, text :| ReadyForQa(w, before[..6], code, text) && Some(review) == Some(text);
    OnlyReview(w, trace, code, text, cast.approval);
  }

  // ----- The hook and a second fix ---------------------------------------------------------------

  lemma {:induction false} FirstUsableAt(w: World, trace: seq<CallRecord>, a: Agent, i: nat)
    requires i < |trace| && trace[i].agent == a && Usable(w, trace[i])
    requires forall k | 0 <= k < i :: trace[k].agent != a
    ensures FirstUsable(w, trace, a) == Some(trace[i].reply.text)
  {
    var init := trace[..|trace| - 1];
    hide Usable;
    if i < |init| {
      FirstUsableAt(w, init, a, i);
    } else {
      NoneUsable(w, init, a);
    }
  }

  lemma {:induction false} NoneUsable(w: World, trace: seq<CallRecord>, a: Agent)
    requires forall k | 0 <= k < |trace| :: trace[k].agent != a
    ensures FirstUsable(w, trace, a) == None
  {
    if trace != [] {
      NoneUsable(w, trace[..|trace| - 1], a);
    }
  }

  lemma {:induction false} NewestCodeAt(w: World, trace: seq<CallRecord>, i: nat)
    requires i < |trace| && trace[i].agent == Fixer && Usable(w, trace[i])
    requires forall k | i < k < |trace| :: trace[k].agent != Fixer && trace[k].agent != WriterAgent
    ensures NewestCode(w, trace) == Some(trace[i].reply.text)
  {
    hide Usable;
    if i < |trace| - 1 {
      NewestCodeAt(w, trace[..|trace| - 1], i);
    }
  }

  lemma TwiceAgents(k: nat)
    requires k < 15
    ensures HasHandler(QaFailsTwice()[k].state)
    ensures AgentOf(QaFailsTwice()[k].state) == Fixer <==> k == 7 || k == 11
    ensures AgentOf(QaFailsTwice()[k].state) == WriterAgent <==> k == 3
  {
    if k < 11 {
      OnceAgents(k);
    }
  }

  lemma TwiceCalls(cast: Cast, w: World, trace: seq<CallRecord>)
    requires IsFullCast(cast) && w.parse == cast.parse && |trace| == 15
    requires forall k: nat | k < 15 :: CallIs(cast, QaFailsTwice(), k, trace[k])
    ensures FirstUsable(w, trace, Fixer) == Some(cast.code(7)) && NewestCode(w, trace) == Some(cast.code(11))
  {
    hide IsBlocked, IsBlank, AgentOf, HasHandler;
    forall k: nat | k < 15
      ensures (trace[k].agent == Fixer <==> k == 7 || k == 11) && (trace[k].agent == WriterAgent <==> k == 3)
    {
      TwiceAgents(k);
      assert CallIs(cast, QaFailsTwice(), k, trace[k]);
    }
    assert CallIs(cast, QaFailsTwice(), 7, trace[7]) && CallIs(cast, QaFailsTwice(), 11, trace[11]);
    assert trace[7].reply == Line(cast, 7, Place(Fix, 0, 1, 0), Place(Review, 0, 1, 0));
    assert trace[11].reply == Line(cast, 11, Place(Fix, 0, 2, 0), Place(Review, 0, 2, 0));
    hide IsFullCast, QaFailsTwice, Line;
    FirstUsableAt(w, trace, Fixer, 7);
    NewestCodeAt(w, trace, 11);
  }

  /** After two fixes the hook is shown the first while the second is what passed: in every
      world with the four texts, a content hook, and no seed for the fix. */
  lemma HookIsShownFirstFix(cast: Cast, id: string, raw: string, seeds: map<Kind, string>,
                            ledger: seq<Obs.AgentCallRecord>)
    requires IsFullCast(cast) && FixCode !in seeds
    ensures var w := Stage(cast, QaFailsTwice(), Some(_ => NoReport));
            var trace := Drive(DEFAULT_LIMITS, w, id, raw, seeds, ledger).machine.trace;
            && |trace| == 15 && trace[14].hook.Some?
            && FixCode in trace[14].hook.value.artifacts && trace[14].hook.value.artifacts[FixCode] == cast.code(7)
            && NewestCode(w, trace) == Some(cast.code(11))
  {
    var route := QaFailsTwice();
    forall k | 0 <= k < |route| - 1 ensures IsMove(route[k], route[k + 1]) { TwiceMoves(k); }
    assert |route| == 16 && route[0] == ENTRANCE && route[15].state == Success;
    var hook: Option<nat -> HookReply> := Some(_ => NoReport);
    FullCastPlays(cast, route);
    Played(cast, route, hook, id, raw, seeds, ledger);
    var w := Stage(cast, route, hook);
    var trace := Drive(DEFAULT_LIMITS, w, id, raw, seeds, ledger).machine.trace;
    TwiceCalls(cast, w, trace);
    HookTheorem(DEFAULT_LIMITS, w, id, raw, seeds, ledger);
    hide Drive, QaFailsTwice, IsPlay, IsFullCast, FirstUsable, NewestCode, HooksSourced, CallIs;
    ShownFirstFix(w, seeds, trace, cast.code(7));
  }

  lemma ShownFirstFix(w: World, seeds: map<Kind, string>, trace: seq<CallRecord>, fix: string)
    requires HooksSourced(w, seeds, trace) && FixCode !in seeds && trace != []
    requires w.hook.Some? && HookPassed(w, trace[|trace| - 1]) && FirstUsable(w, trace, Fixer) == Some(fix)
    ensures var hook := trace[|trace| - 1].hook;
            hook.Some? && FixCode in hook.value.artifacts && hook.value.artifacts[FixCode] == fix
  {
    assert trace[..|trace|] == trace;
    assert KindOf(Fixer) == FixCode;
    hide FirstUsable, VerdictOf;
  }

  // ----- The four texts exist ----------------------------------------------------------------------

  function ExampleReader(text: string): Option<Parsed> {
    if text == "yes" then Some(Parsed(Approved, None))
    else if text == "no" then Some(Parsed(Rejected, Some(FixItems(true, "[1]"))))
    else if text == "good" then Some(Parsed(Passed, None))
    else if text == "bad" then Some(Parsed(Failed, Some(FixItems(true, "[2]"))))
    else None
  }

  /** `first` and `second` are the fixes of calls 7 and 11. */
  function Example(): Cast {
    Cast(ExampleReader, "yes", "no", "good", "bad", k => if k == 7 then "first" else if k == 11 then "second" else "ok")
  }

  lemma WordIsText(word: string)
    requires word != "" && forall i | 0 <= i < |word| :: 'a' <= word[i] <= 'z'
    ensures !IsBlank(word) && !IsBlocked(word)
  {
    assert LStrip(word) == RStrip(word) == word;
  }

  lemma ExampleIsFull()
    ensures IsFullCast(Example())
  {
    WordIsText("yes");
    WordIsText("no");
    WordIsText("good");
    WordIsText("bad");
    WordIsText("first");
    WordIsText("second");
    WordIsText("ok");
    hide IsBlank, IsBlocked;
  }

  /** In particular: QA asks for `[2]` and the fixer is told `[]`; and the hook is shown the
      first fix when the second one is under test. */
  lemma ExampleRuns(id: string, raw: string, seeds: map<Kind, string>, ledger: seq<Obs.AgentCallRecord>)
    requires FixCode !in seeds
    ensures var w := Stage(Example(), QaFailsOnce(), None);
            var trace := Drive(DEFAULT_LIMITS, w, id, raw, seeds, ledger).machine.trace;
            && |trace| == 11 && trace[6].agent == QaAgent && trace[6].reply == Text("bad")
               && ExtractForFixer(w, "bad") == "[2]"
            && trace[7].agent == Fixer && |trace[7].args| == 3 && trace[7].args[1] == "[]"
    ensures var w := Stage(Example(), QaFailsTwice(), Some(_ => NoReport));
            var trace := Drive(DEFAULT_LIMITS, w, id, raw, seeds, ledger).machine.trace;
            && |trace| == 15 && trace[14].hook.Some? && NewestCode(w, trace) == Some("second")
            && FixCode in trace[14].hook.value.artifacts && trace[14].hook.value.artifacts[FixCode] == "first"
  {
    ExampleIsFull();
    hide Drive, IsFullCast, QaFailsOnce, QaFailsTwice, NewestCode;
    FixerIsToldApproval(Example(), id, raw, seeds, ledger);
    HookIsShownFirstFix(Example(), id, raw, seeds, ledger);
  }
}
