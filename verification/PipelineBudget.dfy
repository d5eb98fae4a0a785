/** The cost budget of a pipeline run: what it bounds, and when it is blind. */
module PipelineBudget {
  import opened Wrappers
  import opened Strings
  import opened Fsm
  import opened Memory
  import opened Pipeline
  import Obs = Observability

  /** The task's recorded cost when a call was made. */
  function SpentBefore(m: Machine, id: string, rec: CallRecord): real {
    if rec.ledgerLen <= |m.ledger| then Obs.TaskCost(m.ledger[..rec.ledgerLen], id) else 0.0
  }

  /** The budget is in force: there is one, and its ledger can be read back. */
  predicate HasBudget(c: Config) {
    c.budget.Some? && c.sink.InMemorySink?
  }

  /** Every call started within the budget, and the newest call is all the ledger has
      gained since its start. */
  ghost predicate Affordable(c: Config, id: string, m: Machine) {
    && (forall k | 0 <= k < |m.trace| :: m.trace[k].ledgerLen <= |m.ledger|)
    && (HasBudget(c) ==> forall k | 0 <= k < |m.trace| :: SpentBefore(m, id, m.trace[k]) <= c.budget.value)
    && (m.trace != [] ==> |m.ledger| <= m.trace[|m.trace| - 1].ledgerLen + 1)
  }

  lemma SpentBeforeKept(m: Machine, m': Machine, id: string, rec: CallRecord)
    requires rec.ledgerLen <= |m.ledger| <= |m'.ledger| && m'.ledger[..|m.ledger|] == m.ledger
    ensures SpentBefore(m', id, rec) == SpentBefore(m, id, rec)
  {
    assert m'.ledger[..rec.ledgerLen] == m.ledger[..rec.ledgerLen];
  }

  /** The ledger gains at most the new call's entry. */
  lemma LedgerGrows(c: Config, w: World, id: string, m: Machine, m': Machine)
    requires HasHandler(m.state) && Recorded(c, w, id, m, m')
    ensures |m.ledger| <= |m'.ledger| <= |m.ledger| + 1 && m'.ledger[..|m.ledger|] == m.ledger
    ensures |m'.trace| == |m.trace| + 1 && m'.trace[..|m.trace|] == m.trace
            && m'.trace[|m.trace|].ledgerLen == |m.ledger|
  {
    hide Inputs, LedgerEntry, Usable, StoreFirst, KindOf, AgentName;
  }

  lemma SpentNow(c: Config, m: Machine, id: string, rec: CallRecord)
    requires LimitReason(c, id, m).None? && rec.ledgerLen == |m.ledger|
    ensures HasBudget(c) ==> SpentBefore(m, id, rec) <= c.budget.value
  {
    assert m.ledger[..|m.ledger|] == m.ledger;
    hide Obs.TaskCost;
  }

  lemma RecordedAffordable(c: Config, w: World, id: string, m: Machine, m': Machine)
    requires HasHandler(m.state) && Affordable(c, id, m) && Recorded(c, w, id, m, m') && LimitReason(c, id, m).None?
    ensures Affordable(c, id, m')
  {
    LedgerGrows(c, w, id, m, m');
    SpentNow(c, m, id, m'.trace[|m.trace|]);
    hide Recorded, Obs.TaskCost, SpentBefore, LimitReason;
    forall k | 0 <= k < |m'.trace|
      ensures m'.trace[k].ledgerLen <= |m'.ledger|
      ensures HasBudget(c) ==> SpentBefore(m', id, m'.trace[k]) <= c.budget.value
    {
      assert k < |m.trace| ==> m'.trace[k] == m'.trace[..|m.trace|][k] == m.trace[k];
      SpentBeforeKept(m, m', id, m'.trace[k]);
    }
  }

  lemma {:induction false} DriveFromAffordable(c: Config, w: World, id: string, m: Machine)
    requires HasHandler(m.state) || IsTerminal(m.state)
    requires Affordable(c, id, m)
    ensures Affordable(c, id, DriveFrom(c, w, id, m).machine)
    decreases FixBudget(m.task), Distance(m.state), RetriesLeft(m)
  {
    if HasHandler(m.state) {
      StepTurns(c, w, id, m);
      match Step(c, w, id, m)
      case Next(m') =>
        hide Affordable, Step, Recorded, Moved, AskedAgain;
        RecordedAffordable(c, w, id, m, m');
        StepDecreases(c, w, id, m);
        DriveFromAffordable(c, w, id, m');
      case Stop(r) =>
        hide Step, Recorded;
        if LimitReason(c, id, m).None? {
          RecordedAffordable(c, w, id, m, r.machine);
        }
    }
  }

  /** With a budget in force every agent call of a run starts with the task's recorded cost
      within the budget; so the whole run overspends by at most its last recorded call. */
  lemma BudgetTheorem(c: Config, w: World, id: string, raw: string, seeds: map<Kind, string>,
                      ledger: seq<Obs.AgentCallRecord>)
    requires HasBudget(c)
    ensures var m := Drive(c, w, id, raw, seeds, ledger).machine;
            && (forall k | 0 <= k < |m.trace| :: SpentBefore(m, id, m.trace[k]) <= c.budget.value)
            && (m.trace != [] ==>
                  var spent, n := Obs.TaskCost(m.ledger, id), |m.ledger|;
                  spent <= c.budget.value || (n > 0 && spent <= c.budget.value + m.ledger[n - 1].costUsd))
  {
    hide DriveFrom;
    DriveFromAffordable(c, w, id, Start(raw, seeds, ledger));
    var m := Drive(c, w, id, raw, seeds, ledger).machine;
    if m.trace != [] {
      var k := m.trace[|m.trace| - 1].ledgerLen;
      if |m.ledger| == k {
        assert m.ledger[..k] == m.ledger;
      } else {
        assert m.ledger == m.ledger[..k] + [m.ledger[k]];
        Obs.UnderAppend(m.ledger[..k], m.ledger[k], Obs.TaskOf, id);
        assert SpentBefore(m, id, m.trace[|m.trace| - 1]) <= c.budget.value;
      }
    }
  }

  // ----- A task id with surrounding whitespace escapes the budget ---------------------------

  /** The ledger stores stripped ids but is searched for the id as given: a call counts for
      its own task exactly when the id has no whitespace around it. */
  lemma CallCountsIffTrimmed(ledger: seq<Obs.AgentCallRecord>, call: Obs.AgentCallRecord)
    requires Obs.CallError(call).None?
    ensures Obs.TaskCost(Obs.Recorded(ledger, call), call.taskId) ==
            Obs.TaskCost(ledger, call.taskId) + (if Strip(call.taskId) == call.taskId then call.costUsd else 0.0)
  {
    Obs.UnderAppend(ledger, call.(agentName := Strip(call.agentName), taskId := Strip(call.taskId)), Obs.TaskOf,
                    call.taskId);
  }

  /** One turn's effect on the task's recorded cost. */
  lemma TurnSpend(c: Config, w: World, id: string, m: Machine, m': Machine)
    requires HasHandler(m.state) && Recorded(c, w, id, m, m')
    ensures var call := LedgerEntry(w, id, AgentOf(m.state), w.agent(|m.trace|), |m.trace|);
            Obs.TaskCost(m'.ledger, id) == Obs.TaskCost(m.ledger, id) +
              (if Strip(id) == id && !c.sink.NoObservability? && Obs.CallError(call).None? then call.costUsd else 0.0)
  {
    var call := LedgerEntry(w, id, AgentOf(m.state), w.agent(|m.trace|), |m.trace|);
    assert call.taskId == id;
    hide LedgerEntry, Inputs, Usable, StoreFirst, KindOf, AgentName, Strip;
    if !c.sink.NoObservability? && Obs.CallError(call).None? {
      CallCountsIffTrimmed(m.ledger, call);
    }
  }

  // ----- What the calls really cost -----------------------------------------------------------

  /** What is offered to the ledger for the n-th call of a trace. */
  function Offer(w: World, id: string, trace: seq<CallRecord>, n: nat): Obs.AgentCallRecord
    requires n < |trace|
  {
    LedgerEntry(w, id, trace[n].agent, trace[n].reply, n)
  }

  /** The ledger takes the offer and files it under the id it will be searched for. */
  predicate Counts(w: World, id: string, trace: seq<CallRecord>, n: nat)
    requires n < |trace|
  {
    Strip(id) == id && Obs.CallError(Offer(w, id, trace, n)).None?
  }

  /** The prices of all calls, as the estimator gave them. */
  function Prices(w: World, id: string, trace: seq<CallRecord>): real {
    if trace == [] then 0.0
    else
      var n := |trace| - 1;
      Prices(w, id, trace[..n]) + Offer(w, id, trace, n).costUsd
  }

  /** The prices of the calls that count. */
  function CountedPrices(w: World, id: string, trace: seq<CallRecord>): real {
    if trace == [] then 0.0
    else
      var n := |trace| - 1;
      CountedPrices(w, id, trace[..n]) + (if Counts(w, id, trace, n) then Offer(w, id, trace, n).costUsd else 0.0)
  }

  lemma {:induction false} AllCount(w: World, id: string, trace: seq<CallRecord>)
    requires forall n: nat | n < |trace| :: Counts(w, id, trace, n)
    ensures CountedPrices(w, id, trace) == Prices(w, id, trace)
  {
    if trace != [] {
      var init := trace[..|trace| - 1];
      forall n: nat | n < |init| ensures Counts(w, id, init, n) {
        assert Counts(w, id, trace, n);
      }
      AllCount(w, id, init);
    }
  }

  /** The ledger shows exactly the prices that count, and every call started within budget. */
  ghost predicate Priced(c: Config, w: World, id: string, before: real, m: Machine) {
    && Obs.TaskCost(m.ledger, id) == before + CountedPrices(w, id, m.trace)
    && (HasBudget(c) ==> forall n: nat | n < |m.trace| :: before + CountedPrices(w, id, m.trace[..n]) <= c.budget.value)
  }

  lemma RecordedPriced(c: Config, w: World, id: string, before: real, m: Machine, m': Machine)
    requires HasHandler(m.state) && Priced(c, w, id, before, m) && Recorded(c, w, id, m, m')
    requires !c.sink.NoObservability? && LimitReason(c, id, m).None?
    ensures Priced(c, w, id, before, m')
  {
    hide *;
    WithinBudget(c, id, m);
    PricesGrow(c, w, id, m, m');
    PricedPrefix(c, w, id, before, m, m'.trace);
    PricedFrom(c, w, id, before, m, m');
  }

  lemma WithinBudget(c: Config, id: string, m: Machine)
    requires LimitReason(c, id, m).None?
    ensures HasBudget(c) ==> Obs.TaskCost(m.ledger, id) <= c.budget.value
  {
    hide Obs.TaskCost;
  }

  lemma PricedPrefix(c: Config, w: World, id: string, before: real, m: Machine, trace: seq<CallRecord>)
    requires Priced(c, w, id, before, m) && |trace| == |m.trace| + 1 && trace[..|m.trace|] == m.trace
    requires HasBudget(c) ==> Obs.TaskCost(m.ledger, id) <= c.budget.value
    ensures HasBudget(c) ==> forall n: nat | n < |trace| :: before + CountedPrices(w, id, trace[..n]) <= c.budget.value
  {
    hide Obs.TaskCost, CountedPrices;
    forall n: nat | HasBudget(c) && n < |trace|
      ensures before + CountedPrices(w, id, trace[..n]) <= c.budget.value
    {
      assert trace[..n] == m.trace[..n] && m.trace[..|m.trace|] == m.trace;
    }
  }

  lemma PricedFrom(c: Config, w: World, id: string, before: real, m: Machine, m': Machine)
    requires Priced(c, w, id, before, m) && HasHandler(m.state)
    requires CountedPrices(w, id, m'.trace) == CountedPrices(w, id, m.trace) + TurnPrice(w, id, m)
    requires Obs.TaskCost(m'.ledger, id) == Obs.TaskCost(m.ledger, id) + TurnPrice(w, id, m)
    requires HasBudget(c) ==>
               forall n: nat | n < |m'.trace| :: before + CountedPrices(w, id, m'.trace[..n]) <= c.budget.value
    ensures Priced(c, w, id, before, m')
  {
    hide Obs.TaskCost, CountedPrices, TurnPrice, HasBudget;
  }

  /** The price that a turn adds to the ledger. */
  function TurnPrice(w: World, id: string, m: Machine): real
    requires HasHandler(m.state)
  {
    var call := LedgerEntry(w, id, AgentOf(m.state), w.agent(|m.trace|), |m.trace|);
    if Strip(id) == id && Obs.CallError(call).None? then call.costUsd else 0.0
  }

  lemma PricesGrow(c: Config, w: World, id: string, m: Machine, m': Machine)
    requires HasHandler(m.state) && Recorded(c, w, id, m, m') && !c.sink.NoObservability?
    ensures |m'.trace| == |m.trace| + 1 && m'.trace[..|m.trace|] == m.trace
    ensures CountedPrices(w, id, m'.trace) == CountedPrices(w, id, m.trace) + TurnPrice(w, id, m)
    ensures Obs.TaskCost(m'.ledger, id) == Obs.TaskCost(m.ledger, id) + TurnPrice(w, id, m)
  {
    TurnSpend(c, w, id, m, m');
    assert m'.trace[..|m'.trace| - 1] == m.trace;
    hide LedgerEntry, Inputs, Usable, StoreFirst, KindOf, AgentName, Strip, Obs.CallError, Obs.TaskCost, Obs.Recorded;
  }

  lemma {:induction false} DriveFromPriced(c: Config, w: World, id: string, before: real, m: Machine)
    requires HasHandler(m.state) || IsTerminal(m.state)
    requires Priced(c, w, id, before, m) && !c.sink.NoObservability?
    ensures Priced(c, w, id, before, DriveFrom(c, w, id, m).machine)
    decreases FixBudget(m.task), Distance(m.state), RetriesLeft(m)
  {
    if HasHandler(m.state) {
      StepTurns(c, w, id, m);
      match Step(c, w, id, m)
      case Next(m') =>
        hide Priced, Step, Recorded, Moved, AskedAgain;
        RecordedPriced(c, w, id, before, m, m');
        StepDecreases(c, w, id, m);
        DriveFromPriced(c, w, id, before, m');
      case Stop(r) =>
        hide Step, Recorded;
        if LimitReason(c, id, m).None? {
          RecordedPriced(c, w, id, before, m, r.machine);
        }
    }
  }

  /** In every run with observability the task's recorded cost is what it was before plus the
      prices of exactly the calls that count: those whose figures the ledger accepts, if the id
      is trimmed. With a budget in force the prices that count before any call are within it.
      So if all calls count, the prices really asked exceed the budget by the last call's at
      most; a call that does not count escapes the budget, whatever its price. */
  lemma PriceTheorem(c: Config, w: World, id: string, raw: string, seeds: map<Kind, string>,
                     ledger: seq<Obs.AgentCallRecord>)
    requires !c.sink.NoObservability?
    ensures var m, before := Drive(c, w, id, raw, seeds, ledger).machine, Obs.TaskCost(ledger, id);
            && Obs.TaskCost(m.ledger, id) == before + CountedPrices(w, id, m.trace)
            && (HasBudget(c) ==>
                  forall n: nat | n < |m.trace| :: before + CountedPrices(w, id, m.trace[..n]) <= c.budget.value)
            && ((forall n: nat | n < |m.trace| :: Counts(w, id, m.trace, n)) ==>
                  && Obs.TaskCost(m.ledger, id) == before + Prices(w, id, m.trace)
                  && (HasBudget(c) && m.trace != [] ==>
                        before + Prices(w, id, m.trace[..|m.trace| - 1]) <= c.budget.value))
  {
    hide DriveFrom, Counts;
    DriveFromPriced(c, w, id, Obs.TaskCost(ledger, id), Start(raw, seeds, ledger));
    var trace := Drive(c, w, id, raw, seeds, ledger).machine.trace;
    if trace != [] && forall n: nat | n < |trace| :: Counts(w, id, trace, n) {
      AllCount(w, id, trace);
      AllCountPrefix(w, id, trace);
    }
    hide CountedPrices, Prices, Obs.TaskCost;
  }

  lemma AllCountPrefix(w: World, id: string, trace: seq<CallRecord>)
    requires trace != [] && forall n: nat | n < |trace| :: Counts(w, id, trace, n)
    ensures CountedPrices(w, id, trace[..|trace| - 1]) == Prices(w, id, trace[..|trace| - 1])
  {
    var init := trace[..|trace| - 1];
    forall n: nat | n < |init| ensures Counts(w, id, init, n) {
      assert Counts(w, id, trace, n);
    }
    AllCount(w, id, init);
  }

  // ----- What the ledger holds ------------------------------------------------------------------

  /** What the ledger is offered for a call: the agent, the task, the time it took, whether it
      raised, and the estimated figures - or none, if it raised or nothing could be estimated. */
  predicate IsOffer(w: World, id: string, rec: CallRecord, k: nat, call: Obs.AgentCallRecord) {
    && call.agentName == AgentName(rec.agent) && call.taskId == id && call.durationMs == w.durationMs(k)
    && (call.ok <==> rec.reply != Raised)
    && (if call.ok then call.error == None else call.error.Some? && call.error.value != "")
    && (if rec.reply != Raised && w.cost.Some? && w.cost.value(k).Estimate? then
          && call.inputTokens == w.cost.value(k).inputTokens && call.outputTokens == w.cost.value(k).outputTokens
          && call.costUsd == w.cost.value(k).usd
        else call.inputTokens == call.outputTokens == 0 && call.costUsd == 0.0)
  }

  /** The ledger after these offers, one after the other. */
  function Ledgered(ledger: seq<Obs.AgentCallRecord>, offers: seq<Obs.AgentCallRecord>): seq<Obs.AgentCallRecord> {
    if offers == [] then ledger
    else Obs.Recorded(Ledgered(ledger, offers[..|offers| - 1]), offers[|offers| - 1])
  }

  ghost predicate AreOffers(w: World, id: string, trace: seq<CallRecord>, offers: seq<Obs.AgentCallRecord>) {
    |offers| == |trace| && forall k: nat | k < |trace| :: IsOffer(w, id, trace[k], k, offers[k])
  }

  ghost predicate HasLedger(c: Config, w: World, id: string, before: seq<Obs.AgentCallRecord>, m: Machine) {
    if c.sink == NoObservability then m.ledger == before
    else exists offers :: AreOffers(w, id, m.trace, offers) && m.ledger == Ledgered(before, offers)
  }

  lemma EntryIsOffer(w: World, id: string, rec: CallRecord, k: nat)
    ensures IsOffer(w, id, rec, k, LedgerEntry(w, id, rec.agent, rec.reply, k))
  {
  }

  lemma RecordedOffer(c: Config, w: World, id: string, m: Machine, m': Machine)
    requires HasHandler(m.state) && Recorded(c, w, id, m, m')
    ensures |m'.trace| == |m.trace| + 1 && m'.trace == m.trace + [m'.trace[|m.trace|]]
    ensures c.sink == NoObservability ==> m'.ledger == m.ledger
    ensures c.sink != NoObservability ==>
              exists call :: IsOffer(w, id, m'.trace[|m.trace|], |m.trace|, call)
                  && m'.ledger == Obs.Recorded(m.ledger, call)
  {
    var rec := m'.trace[|m.trace|];
    EntryIsOffer(w, id, rec, |m.trace|);
    hide LedgerEntry, IsOffer, Obs.Recorded, Inputs, StoreFirst, KindOf, Usable, AgentName;
  }

  lemma OneOfferMore(w: World, id: string, before: seq<Obs.AgentCallRecord>, trace: seq<CallRecord>, rec: CallRecord,
                     offers: seq<Obs.AgentCallRecord>, call: Obs.AgentCallRecord)
    requires AreOffers(w, id, trace, offers) && IsOffer(w, id, rec, |trace|, call)
    ensures AreOffers(w, id, trace + [rec], offers + [call])
    ensures Ledgered(before, offers + [call]) == Obs.Recorded(Ledgered(before, offers), call)
  {
    hide IsOffer, Obs.Recorded;
    assert (offers + [call])[..|offers|] == offers;
  }

  lemma RecordedLedger(c: Config, w: World, id: string, before: seq<Obs.AgentCallRecord>, m: Machine, m': Machine)
    requires HasHandler(m.state) && HasLedger(c, w, id, before, m) && Recorded(c, w, id, m, m')
    ensures HasLedger(c, w, id, before, m')
  {
    RecordedOffer(c, w, id, m, m');
    hide Recorded, IsOffer, AreOffers, Ledgered, Obs.Recorded;
    if c.sink != NoObservability {
      var rec := m'.trace[|m.trace|];
      var offers :| AreOffers(w, id, m.trace, offers) && m.ledger == Ledgered(before, offers);
      var call :| IsOffer(w, id, rec, |m.trace|, call) && m'.ledger == Obs.Recorded(m.ledger, call);
      OneOfferMore(w, id, before, m.trace, rec, offers, call);
    }
  }

  lemma {:induction false} DriveFromLedger(c: Config, w: World, id: string, before: seq<Obs.AgentCallRecord>,
                                           m: Machine)
    requires HasHandler(m.state) || IsTerminal(m.state)
    requires HasLedger(c, w, id, before, m)
    ensures HasLedger(c, w, id, before, DriveFrom(c, w, id, m).machine)
    decreases FixBudget(m.task), Distance(m.state), RetriesLeft(m)
  {
    if HasHandler(m.state) {
      StepTurns(c, w, id, m);
      match Step(c, w, id, m)
      case Next(m') =>
        RecordedLedger(c, w, id, before, m, m');
        StepDecreases(c, w, id, m);
        hide HasLedger, Step, Turn;
        DriveFromLedger(c, w, id, before, m');
      case Stop(r) =>
        if LimitReason(c, id, m).None? {
          RecordedLedger(c, w, id, before, m, r.machine);
        }
        hide AreOffers, Ledgered, Step, Recorded;
    }
  }

  /** In every run with observability the ledger grows by exactly one offer for each call, in the
      order of the calls, as far as it accepts them; without it, it does not change. */
  lemma LedgerTheorem(c: Config, w: World, id: string, raw: string, seeds: map<Kind, string>,
                      ledger: seq<Obs.AgentCallRecord>)
    ensures HasLedger(c, w, id, ledger, Drive(c, w, id, raw, seeds, ledger).machine)
  {
    var m := Start(raw, seeds, ledger);
    assert AreOffers(w, id, m.trace, []) && m.ledger == Ledgered(ledger, []);
    hide DriveFrom;
    DriveFromLedger(c, w, id, ledger, m);
  }

  // ----- ... and for an id with whitespace around it -------------------------------------------

  lemma SameWithoutBudget(c: Config, w: World, id: string, m: Machine)
    requires HasHandler(m.state)
    requires LimitReason(c, id, m) == LimitReason(c.(budget := None), id, m)
    ensures Step(c, w, id, m) == Step(c.(budget := None), w, id, m)
  {
    hide LimitReason, Judge, Inputs, IsBlank, LedgerEntry, Obs.Recorded, CanTransition, TerminalFor, AgentName;
  }

  /** For such an id the budget changes nothing: however much the run spends, it is the
      run without a budget, provided the task was within budget before. */
  lemma {:induction false} PaddedIdEscapesBudget(c: Config, w: World, id: string, m: Machine)
    requires HasHandler(m.state) || IsTerminal(m.state)
    requires Strip(id) != id
    requires HasBudget(c) ==> Obs.TaskCost(m.ledger, id) <= c.budget.value
    ensures DriveFrom(c, w, id, m) == DriveFrom(c.(budget := None), w, id, m)
    decreases FixBudget(m.task), Distance(m.state), RetriesLeft(m)
  {
    if HasHandler(m.state) {
      SameWithoutBudget(c, w, id, m);
      StepTurns(c, w, id, m);
      match Step(c, w, id, m)
      case Next(m') =>
        hide Step, Recorded, Moved, AskedAgain;
        TurnSpend(c, w, id, m, m');
        StepDecreases(c, w, id, m);
        PaddedIdEscapesBudget(c, w, id, m');
      case Stop(r) =>
    }
  }

  /** Such ids exist and are accepted as task ids. */
  lemma PaddedIdIsAccepted(raw: string)
    requires !IsBlank(raw)
    ensures Failure(map[], Command.NewTask(" t", raw)).None? && Strip(" t") == "t"
  {
    assert LStrip(" t") == LStrip("t") == "t";
    assert RStrip("t") == "t";
  }
}
