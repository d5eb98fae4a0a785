/** Burst-aware projection throttling (core/agent_bus_projection_throttle.py): per thread,
    the first messages of a burst are posted raw, later ones are compacted into summaries,
    and summaries that cannot be sent at the end of a burst are kept for a flush. */
module Throttle {
  import opened Wrappers
  import opened AgentBusModels

  /** summary_batch_size is at least 2, the other limits are positive. */
  datatype Policy = Policy(rawBurstLimit: nat, summaryBatchSize: nat, burstWindow: real)

  predicate ValidPolicy(p: Policy) {
    p.rawBurstLimit >= 1 && p.summaryBatchSize >= 2 && p.burstWindow > 0.0
  }

  datatype Status = Projected | NoChatBinding | UnsupportedProvider | SendFailed

  /** One attempt to post to the project chat, and how it ended. */
  datatype Attempt =
    | Raw(message: AgentMessage, status: Status)
    | Summary(batch: seq<AgentMessage>, status: Status)

  datatype ThreadState = ThreadState(
    rawCount: nat,
    lastActivityAt: Option<real>,
    deferred: seq<seq<AgentMessage>>,
    suppressed: seq<AgentMessage>
  )

  const FRESH := ThreadState(0, None, [], [])

  /** What a publish reports: the attempts made and the messages held back. */
  datatype BatchResult = BatchResult(attempts: seq<Attempt>, suppressed: seq<AgentMessage>)

  // ----- One thread -------------------------------------------------------------------------

  predicate IsIdleGap(p: Policy, st: ThreadState, now: real) {
    st.lastActivityAt.Some? && now - st.lastActivityAt.value > p.burstWindow
  }

  /** The end of a burst: what is still held back is summarised, or deferred when the
      summary cannot be sent. `status` answers the attempt, if there is one. */
  function CloseStaleBurst(st: ThreadState, status: Status): (ThreadState, BatchResult) {
    var held := st.suppressed;
    if held == [] then (st.(rawCount := 0, lastActivityAt := None), BatchResult([], []))
    else
      (ThreadState(0, None, if status.Projected? then st.deferred else st.deferred + [held], []),
       BatchResult([Summary(held, status)], held))
  }

  function AppendSuppressed(p: Policy, st: ThreadState, m: AgentMessage, status: Status): (ThreadState, BatchResult) {
    var held := st.suppressed + [m];
    if |held| < p.summaryBatchSize then (st.(suppressed := held), BatchResult([], [m]))
    else (st.(suppressed := if status.Projected? then [] else held), BatchResult([Summary(held, status)], held))
  }

  /** A persisted message on its way to the chat; attempt number k of the bus is answered
      by answer(k). */
  function Publish(p: Policy, st: ThreadState, m: AgentMessage, answer: nat -> Status,
                   k: nat): (ThreadState, BatchResult) {
    var (st1, stale) :=
      if IsIdleGap(p, st, m.createdAt) then CloseStaleBurst(st, answer(k)) else (st, BatchResult([], []));
    var st2 := st1.(lastActivityAt := Some(m.createdAt));
    var status := answer(k + |stale.attempts|);
    if st2.suppressed == [] && st2.rawCount < p.rawBurstLimit then
      (st2.(rawCount := st2.rawCount + 1), BatchResult(stale.attempts + [Raw(m, status)], stale.suppressed))
    else
      var (st3, now) := AppendSuppressed(p, st2, m, status);
      (st3, BatchResult(stale.attempts + now.attempts, stale.suppressed + now.suppressed))
  }

  /** What one message does, said outright: the attempts made, answered one after the other;
      the messages reported as held back; and the thread's state after it. */
  ghost predicate IsEffect(p: Policy, st: ThreadState, m: AgentMessage, answer: nat -> Status, k: nat,
                           st': ThreadState, r: BatchResult) {
    var gap := st.lastActivityAt.Some? && m.createdAt - st.lastActivityAt.value > p.burstWindow;
    var stale := gap && st.suppressed != [];
    var held := if gap then [] else st.suppressed;
    var raws := if gap then 0 else st.rawCount;
    var status := answer(if stale then k + 1 else k);
    var isRaw := held == [] && raws < p.rawBurstLimit;
    var isFull := !isRaw && |held| + 1 >= p.summaryBatchSize;
    && r.attempts == (if stale then [Summary(st.suppressed, answer(k))] else []) +
                     (if isRaw then [Raw(m, status)] else if isFull then [Summary(held + [m], status)] else [])
    && r.suppressed ==
       (if stale then st.suppressed else []) + (if isRaw then [] else if isFull then held + [m] else [m])
    && st'.rawCount == (if isRaw then raws + 1 else raws)
    && st'.lastActivityAt == Some(m.createdAt)
    && st'.deferred == st.deferred + (if stale && answer(k) != Projected then [st.suppressed] else [])
    && st'.suppressed == (if isRaw || (isFull && status == Projected) then [] else held + [m])
  }

  lemma PublishEffect(p: Policy, st: ThreadState, m: AgentMessage, answer: nat -> Status, k: nat)
    ensures var (st', r) := Publish(p, st, m, answer, k); IsEffect(p, st, m, answer, k, st', r)
  {
  }

  /** Deferred batches first, oldest first, then what is held back; the first summary that
      cannot be sent ends the flush. */
  function Flush(st: ThreadState, answer: nat -> Status, k: nat): (ThreadState, seq<Attempt>)
    decreases |st.deferred|
  {
    var status := answer(k);
    if st.deferred != [] then
      if status.Projected? then
        var (st', rest) := Flush(st.(deferred := st.deferred[1..]), answer, k + 1);
        (st', [Summary(st.deferred[0], status)] + rest)
      else (st, [Summary(st.deferred[0], status)])
    else if st.suppressed == [] then (st, [])
    else (if status.Projected? then st.(suppressed := []) else st, [Summary(st.suppressed, status)])
  }

  lemma FlushFirst(st: ThreadState, answer: nat -> Status, k: nat)
    requires st.deferred != []
    ensures var first, (st', rest) := Summary(st.deferred[0], answer(k)),
            Flush(st.(deferred := st.deferred[1..]), answer, k + 1);
            Flush(st, answer, k) == if answer(k).Projected? then (st', [first] + rest) else (st, [first])
  {
  }

  lemma FlushLast(st: ThreadState, answer: nat -> Status, k: nat)
    requires st.deferred == []
    ensures Flush(st, answer, k) ==
            if st.suppressed == [] then (st, [])
            else (if answer(k).Projected? then st.(suppressed := []) else st, [Summary(st.suppressed, answer(k))])
  {
  }

  /** What is still to be flushed completes the results so far to the goal. */
  ghost predicate Continues(goal: (ThreadState, seq<Attempt>), results: seq<Attempt>, st: ThreadState,
                            answer: nat -> Status, k: nat)
  {
    goal == (Flush(st, answer, k).0, results + Flush(st, answer, k).1)
  }

  lemma FlushGoesOn(goal: (ThreadState, seq<Attempt>), results: seq<Attempt>, st: ThreadState, answer: nat -> Status,
                    k: nat)
    requires Continues(goal, results, st, answer, k) && st.deferred != []
    ensures var first := Summary(st.deferred[0], answer(k));
            if answer(k).Projected? then Continues(goal, results + [first], st.(deferred := st.deferred[1..]), answer,
                                                   k + 1)
            else goal == (st, results + [first])
  {
    FlushFirst(st, answer, k);
    var first, rest := Summary(st.deferred[0], answer(k)), Flush(st.(deferred := st.deferred[1..]), answer, k + 1).1;
    assert results + ([first] + rest) == results + [first] + rest;
  }

  lemma FlushEnds(goal: (ThreadState, seq<Attempt>), results: seq<Attempt>, st: ThreadState, answer: nat -> Status,
                  k: nat)
    requires Continues(goal, results, st, answer, k) && st.deferred == []
    ensures goal ==
            if st.suppressed == [] then (st, results)
            else (if answer(k).Projected? then st.(suppressed := []) else st,
                  results + [Summary(st.suppressed, answer(k))])
  {
    FlushLast(st, answer, k);
    assert results + [] == results;
  }

  // ----- The bus ----------------------------------------------------------------------------

  datatype Sent = Sent(key: ThreadKey, attempt: Attempt)

  /** log is the backend's message log, sent everything handed to the projection service. */
  datatype Bus = Bus(states: map<ThreadKey, ThreadState>, log: seq<AgentMessage>, sent: seq<Sent>)

  datatype Op = PublishOp(message: AgentMessage) | FlushOp(key: ThreadKey)

  function StateOf(states: map<ThreadKey, ThreadState>, key: ThreadKey): ThreadState {
    if key in states then states[key] else FRESH
  }

  function Tagged(key: ThreadKey, attempts: seq<Attempt>): seq<Sent> {
    seq(|attempts|, i requires 0 <= i < |attempts| => Sent(key, attempts[i]))
  }

  lemma TaggedAppend(sent: seq<Sent>, key: ThreadKey, xs: seq<Attempt>, x: Attempt)
    ensures sent + Tagged(key, xs) + Tagged(key, [x]) == sent + Tagged(key, xs + [x])
  {
    assert Tagged(key, xs) + Tagged(key, [x]) == Tagged(key, xs + [x]);
  }

  function Do(p: Policy, answer: nat -> Status, b: Bus, op: Op): Bus {
    match op
    case PublishOp(m) =>
      var (st, r) := Publish(p, StateOf(b.states, KeyOf(m)), m, answer, |b.sent|);
      Bus(b.states[KeyOf(m) := st], b.log + [m], b.sent + Tagged(KeyOf(m), r.attempts))
    case FlushOp(key) =>
      if key !in b.states then b
      else
        var (st, attempts) := Flush(b.states[key], answer, |b.sent|);
        Bus(b.states[key := st], b.log, b.sent + Tagged(key, attempts))
  }

  function DoAll(p: Policy, answer: nat -> Status, b: Bus, ops: seq<Op>): Bus {
    if ops == [] then b else Do(p, answer, DoAll(p, answer, b, ops[..|ops| - 1]), ops[|ops| - 1])
  }

  class ThrottledProjectingAgentBus {
    const policy: Policy
    const answer: nat -> Status
    var states: map<ThreadKey, ThreadState>
    ghost var log: seq<AgentMessage>
    var sent: seq<Sent>

    constructor (policy: Policy, answer: nat -> Status)
      ensures this.policy == policy && this.answer == answer
      ensures Abs() == Bus(map[], [], [])
    {
      this.policy, this.answer := policy, answer;
      states, log, sent := map[], [], [];
    }

    ghost function Abs(): Bus
      reads this
    {
      Bus(states, log, sent)
    }

    /** One attempt through the projection service. */
    method Attempt(key: ThreadKey, attempt: Status -> Attempt) returns (status: Status)
      modifies this`sent
      ensures status == answer(|old(sent)|)
      ensures sent == old(sent) + [Sent(key, attempt(status))]
    {
      status := answer(|sent|);
      sent := sent + [Sent(key, attempt(status))];
    }

    method ProjectSummary(key: ThreadKey, batch: seq<AgentMessage>) returns (status: Status)
      modifies this`sent
      ensures status == answer(|old(sent)|)
      ensures sent == old(sent) + Tagged(key, [Summary(batch, status)])
    {
      status := Attempt(key, s => Summary(batch, s));
    }

    method CloseBurst(key: ThreadKey, state: ThreadState) returns (state': ThreadState, r: BatchResult)
      modifies this`sent
      ensures (state', r) == CloseStaleBurst(state, answer(|old(sent)|))
      ensures sent == old(sent) + Tagged(key, r.attempts)
    {
      var held := state.suppressed;
      var deferred := state.deferred;
      r := BatchResult([], held);
      if held != [] {
        var status := ProjectSummary(key, held);
        r := BatchResult([Summary(held, status)], held);
        if !status.Projected? {
          deferred := deferred + [held];
        }
      }
      state' := ThreadState(0, None, deferred, []);
    }

    method HoldBack(key: ThreadKey, state: ThreadState, m: AgentMessage) returns (state': ThreadState, r: BatchResult)
      modifies this`sent
      ensures (state', r) == AppendSuppressed(policy, state, m, answer(|old(sent)|))
      ensures sent == old(sent) + Tagged(key, r.attempts)
    {
      var held := state.suppressed + [m];
      state' := state.(suppressed := held);
      if |held| < policy.summaryBatchSize {
        return state', BatchResult([], [m]);
      }
      var status := ProjectSummary(key, held);
      if status.Projected? {
        state' := state.(suppressed := []);
      }
      return state', BatchResult([Summary(held, status)], held);
    }

    /** publish_request and publish_reply, after the backend has stored the message. */
    method HandlePersistedMessage(m: AgentMessage) returns (r: BatchResult)
      modifies this
      ensures Abs() == Do(policy, answer, old(Abs()), PublishOp(m))
      ensures r == Publish(policy, StateOf(old(states), KeyOf(m)), m, answer, |old(sent)|).1
      ensures IsEffect(policy, StateOf(old(states), KeyOf(m)), m, answer, |old(sent)|, StateOf(states, KeyOf(m)), r)
    {
      ghost var before, k := StateOf(states, KeyOf(m)), |sent|;
      r := ProjectOrHoldBack(m);
      PublishEffect(policy, before, m, answer, k);
      hide Publish, IsEffect;
    }

    /** The steps of HandlePersistedMessage, as those of the specification. */
    method ProjectOrHoldBack(m: AgentMessage) returns (r: BatchResult)
      modifies this
      ensures Abs() == Do(policy, answer, old(Abs()), PublishOp(m))
      ensures r == Publish(policy, StateOf(old(states), KeyOf(m)), m, answer, |old(sent)|).1
    {
      hide AppendSuppressed, CloseStaleBurst;
      log := log + [m];
      var key := KeyOf(m);
      var state := if key in states then states[key] else FRESH;
      var stale := BatchResult([], []);
      if IsIdleGap(policy, state, m.createdAt) {
        state, stale := CloseBurst(key, state);
      }
      assert sent == old(sent) + Tagged(key, stale.attempts);
      state := state.(lastActivityAt := Some(m.createdAt));
      if state.suppressed == [] && state.rawCount < policy.rawBurstLimit {
        state := state.(rawCount := state.rawCount + 1);
        var status := Attempt(key, s => Raw(m, s));
        r := BatchResult(stale.attempts + [Raw(m, status)], stale.suppressed);
      } else {
        var now;
        state, now := HoldBack(key, state, m);
        r := BatchResult(stale.attempts + now.attempts, stale.suppressed + now.suppressed);
      }
      states := states[key := state];
      assert sent == old(sent) + Tagged(key, r.attempts);
    }

    method FlushThread(key: ThreadKey) returns (results: seq<Attempt>)
      modifies this
      ensures Abs() == Do(policy, answer, old(Abs()), FlushOp(key))
      ensures results == if key in old(states) then Flush(old(states)[key], answer, |old(sent)|).1 else []
    {
      if key !in states {
        return [];
      }
      hide Flush;
      var state;
      state, results := FlushPendingBatches(key, states[key]);
      states := states[key := state];
    }

    method FlushPendingBatches(key: ThreadKey, state: ThreadState) returns (state': ThreadState, results: seq<Attempt>)
      modifies this`sent
      ensures (state', results) == Flush(state, answer, |old(sent)|)
      ensures sent == old(sent) + Tagged(key, results)
    {
      ghost var goal := Flush(state, answer, |sent|);
      assert sent + Tagged(key, []) == sent && [] + goal.1 == goal.1;
      hide Flush, Tagged;
      state', results := state, [];
      while state'.deferred != []
        invariant sent == old(sent) + Tagged(key, results)
        invariant Continues(goal, results, state', answer, |sent|)
        decreases |state'.deferred|
      {
        FlushGoesOn(goal, results, state', answer, |sent|);
        var batch := state'.deferred[0];
        var status := ProjectSummary(key, batch);
        TaggedAppend(old(sent), key, results, Summary(batch, status));
        results := results + [Summary(batch, status)];
        if !status.Projected? {
          return;
        }
        state' := state'.(deferred := state'.deferred[1..]);
      }
      FlushEnds(goal, results, state', answer, |sent|);
      if state'.suppressed != [] {
        var held := state'.suppressed;
        var status := ProjectSummary(key, held);
        TaggedAppend(old(sent), key, results, Summary(held, status));
        results := results + [Summary(held, status)];
        if status.Projected? {
          state' := state'.(suppressed := []);
        }
      }
    }

    method PendingSummaryCount(key: ThreadKey) returns (n: nat)
      ensures n == Pending(StateOf(states, key))
    {
      if key !in states {
        return 0;
      }
      var state := states[key];
      n := |state.suppressed|;
      for i := 0 to |state.deferred|
        invariant n == |state.suppressed| + Total(state.deferred[..i])
      {
        assert state.deferred[..i + 1][..i] == state.deferred[..i];
        n := n + |state.deferred[i]|;
      }
      assert state.deferred[..|state.deferred|] == state.deferred;
    }
  }

  function Total(batches: seq<seq<AgentMessage>>): nat {
    if batches == [] then 0 else Total(batches[..|batches| - 1]) + |batches[|batches| - 1]|
  }

  function Pending(st: ThreadState): nat {
    |st.suppressed| + Total(st.deferred)
  }
}
