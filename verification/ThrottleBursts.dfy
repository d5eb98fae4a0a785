/** Bursts of messages: what they cost, one by one and over whole runs of the bus. */
module ThrottleBursts {
  import opened AgentBusModels
  import opened Wrappers
  import opened Throttle
  import opened ThrottleTheorems

  /** Messages are held back only when the raw allowance of the burst is used up. */
  ghost predicate InBurst(p: Policy, st: ThreadState) {
    && st.rawCount <= p.rawBurstLimit
    && (st.suppressed != [] ==> st.rawCount == p.rawBurstLimit)
  }

  /** The publish rule without its early test for held-back messages. */
  function PublishByCount(p: Policy, st: ThreadState, m: AgentMessage, answer: nat -> Status,
                          k: nat): (ThreadState, BatchResult) {
    var (st1, stale) :=
      if IsIdleGap(p, st, m.createdAt) then CloseStaleBurst(st, answer(k)) else (st, BatchResult([], []));
    var st2 := st1.(lastActivityAt := Some(m.createdAt));
    var status := answer(k + |stale.attempts|);
    if st2.rawCount < p.rawBurstLimit then
      (st2.(rawCount := st2.rawCount + 1), BatchResult(stale.attempts + [Raw(m, status)], stale.suppressed))
    else
      var (st3, now) := AppendSuppressed(p, st2, m, status);
      (st3, BatchResult(stale.attempts + now.attempts, stale.suppressed + now.suppressed))
  }

  /** Every operation keeps the burst rule, so the early test never changes anything. */
  lemma BurstRuleKept(p: Policy, st: ThreadState, m: AgentMessage, answer: nat -> Status, k: nat)
    requires InBurst(p, st)
    ensures InBurst(p, Publish(p, st, m, answer, k).0)
    ensures Publish(p, st, m, answer, k) == PublishByCount(p, st, m, answer, k)
  {
  }

  lemma BurstRuleKeptByFlush(p: Policy, st: ThreadState, answer: nat -> Status, k: nat)
    requires InBurst(p, st)
    ensures InBurst(p, Flush(st, answer, k).0)
  {
    var n := FlushTakesPrefix(st, answer, k);
  }

  /** The burst rule holds in every thread after every run. */
  lemma {:induction false} BurstRuleHolds(p: Policy, answer: nat -> Status, ops: seq<Op>, key: ThreadKey)
    ensures InBurst(p, StateOf(DoAll(p, answer, Bus(map[], [], []), ops).states, key))
  {
    if ops != [] {
      var b, op := DoAll(p, answer, Bus(map[], [], []), ops[..|ops| - 1]), ops[|ops| - 1];
      BurstRuleHolds(p, answer, ops[..|ops| - 1], key);
      hide InBurst, Publish, Flush;
      match op
      case PublishOp(m) =>
        if KeyOf(m) == key {
          BurstRuleKept(p, StateOf(b.states, key), m, answer, |b.sent|);
        }
      case FlushOp(target) =>
        if target == key && key in b.states {
          BurstRuleKeptByFlush(p, b.states[key], answer, |b.sent|);
        }
    }
  }

  /** The state and the attempts of a thread after a list of messages. */
  function PublishAll(p: Policy, st: ThreadState, ms: seq<AgentMessage>, answer: nat -> Status,
                      k: nat): (ThreadState, seq<Attempt>) {
    if ms == [] then (st, [])
    else
      var (st1, before) := PublishAll(p, st, ms[..|ms| - 1], answer, k);
      var (st2, r) := Publish(p, st1, ms[|ms| - 1], answer, k + |before|);
      (st2, before + r.attempts)
  }

  /** No pause in the list is longer than the burst window. */
  ghost predicate IsBurst(p: Policy, ms: seq<AgentMessage>) {
    forall i | 0 < i < |ms| :: ms[i].createdAt - ms[i - 1].createdAt <= p.burstWindow
  }

  function Min(a: int, b: int): int { if a < b then a else b }

  function Excess(p: Policy, n: nat): nat {
    if n > p.rawBurstLimit then n - p.rawBurstLimit else 0
  }

  lemma DivModSucc(x: nat, b: nat)
    requires b >= 1
    ensures if x % b + 1 == b then (x + 1) % b == 0 && (x + 1) / b == x / b + 1
            else (x + 1) % b == x % b + 1 && (x + 1) / b == x / b
  {
    var q, r := x / b, x % b;
    assert x == b * q + r;
    if r + 1 == b {
      assert x + 1 == b * (q + 1);
      DivModUnique(x + 1, b, q + 1, 0);
    } else {
      DivModUnique(x + 1, b, q, r + 1);
    }
  }

  lemma DivModUnique(x: nat, b: nat, q: int, r: int)
    requires b >= 1 && 0 <= r < b && x == b * q + r
    ensures x / b == q && x % b == r
  {
    var q', r' := x / b, x % b;
    assert b * (q - q') == b * q - b * q' == -(b * (q' - q));
    if q > q' {
      MulAtLeast(b, q - q');
    } else if q < q' {
      MulAtLeast(b, q' - q);
    }
  }

  lemma MulAtLeast(b: int, d: int)
    requires b >= 0 && d >= 1
    ensures b * d >= b
  {
    assert b * d == b + b * (d - 1);
  }

  /** The summaries n messages of a burst fill, and the messages then left over. */
  function Summaries(p: Policy, n: nat): nat
    requires ValidPolicy(p)
  {
    Excess(p, n) / p.summaryBatchSize
  }

  function Left(p: Policy, n: nat): nat
    requires ValidPolicy(p)
  {
    Excess(p, n) % p.summaryBatchSize
  }

  lemma OneMoreMessage(p: Policy, n: nat)
    requires ValidPolicy(p)
    ensures Left(p, n) < p.summaryBatchSize
    ensures if n < p.rawBurstLimit then Left(p, n) == Left(p, n + 1) == 0 && Summaries(p, n + 1) == Summaries(p, n)
            else if Left(p, n) + 1 == p.summaryBatchSize then
              Left(p, n + 1) == 0 && Summaries(p, n + 1) == Summaries(p, n) + 1
            else Left(p, n + 1) == Left(p, n) + 1 && Summaries(p, n + 1) == Summaries(p, n)
  {
    DivModSucc(Excess(p, n), p.summaryBatchSize);
  }

  /** What n messages of one burst have cost, and what they leave behind. */
  ghost predicate AfterBurst(p: Policy, n: nat, st: ThreadState, attempts: seq<Attempt>)
    requires ValidPolicy(p)
  {
    && |RawAttempts(attempts)| == st.rawCount == Min(n, p.rawBurstLimit)
    && |SentSummaries(attempts)| == Summaries(p, n)
    && |st.suppressed| == Left(p, n)
  }

  /** The (n + 1)-th message of a burst. */
  lemma {:induction false} InBurstCosts(p: Policy, n: nat, st: ThreadState, m: AgentMessage, answer: nat -> Status,
                                        k: nat)
    requires ValidPolicy(p) && !IsIdleGap(p, st, m.createdAt) && answer(k).Projected?
    requires st.rawCount == Min(n, p.rawBurstLimit) && |st.suppressed| == Left(p, n)
    ensures var (st', r) := Publish(p, st, m, answer, k);
            && st'.rawCount == Min(n + 1, p.rawBurstLimit) && |st'.suppressed| == Left(p, n + 1)
            && st'.deferred == st.deferred && st'.lastActivityAt == Some(m.createdAt)
            && r.attempts == (if n < p.rawBurstLimit then [Raw(m, Projected)]
                              else if Summaries(p, n + 1) == Summaries(p, n) then []
                              else [Summary(st.suppressed + [m], Projected)])
  {
    OneMoreMessage(p, n);
    hide Summaries, Left;
  }

  /** What attempts that are all sent add to the posts. */
  lemma {:induction false} AddedPosts(before: seq<Attempt>, more: seq<Attempt>)
    requires |more| <= 1 && forall i | 0 <= i < |more| :: more[i].status.Projected?
    ensures |RawAttempts(before + more)| == |RawAttempts(before)| + (if more != [] && more[0].Raw? then 1 else 0)
    ensures |SentSummaries(before + more)| ==
            |SentSummaries(before)| + (if more != [] && more[0].Summary? then 1 else 0)
  {
    if more == [] {
      assert before + more == before;
    } else {
      AppendAttempt(before, more[0]);
      assert more == [more[0]];
    }
  }

  lemma {:induction false} BurstStep(p: Policy, n: nat, st: ThreadState, before: seq<Attempt>, m: AgentMessage,
                                     answer: nat -> Status, k: nat)
    requires ValidPolicy(p) && AfterBurst(p, n, st, before) && !IsIdleGap(p, st, m.createdAt) && answer(k).Projected?
    ensures var (st', r) := Publish(p, st, m, answer, k);
            && AfterBurst(p, n + 1, st', before + r.attempts)
            && st'.deferred == st.deferred && st'.lastActivityAt == Some(m.createdAt)
  {
    OneMoreMessage(p, n);
    InBurstCosts(p, n, st, m, answer, k);
    hide Summaries, Left, Publish;
    AddedPosts(before, Publish(p, st, m, answer, k).1.attempts);
  }

  /** When every attempt is sent, n messages of one burst cost min(n, L) raw posts and
      max(0, n - L) / B summaries, and leave max(0, n - L) mod B messages held back. */
  lemma {:induction false} BurstTheorem(p: Policy, st: ThreadState, ms: seq<AgentMessage>, answer: nat -> Status,
                                        k: nat)
    requires ValidPolicy(p) && IsBurst(p, ms)
    requires st.rawCount == 0 && st.suppressed == [] && st.lastActivityAt == None
    requires forall i :: answer(i).Projected?
    ensures var (st', attempts) := PublishAll(p, st, ms, answer, k);
            && AfterBurst(p, |ms|, st', attempts)
            && st'.deferred == st.deferred
            && st'.lastActivityAt == (if ms == [] then None else Some(ms[|ms| - 1].createdAt))
  {
    if ms != [] {
      var n := |ms|;
      var init, m := ms[..n - 1], ms[n - 1];
      BurstTheorem(p, st, init, answer, k);
      var (st1, before) := PublishAll(p, st, init, answer, k);
      assert !IsIdleGap(p, st1, m.createdAt) by {
        if n >= 2 { assert init[n - 2] == ms[n - 2]; }
      }
      assert answer(k + |before|).Projected?;
      BurstStep(p, n - 1, st1, before, m, answer, k + |before|);
      hide Publish, AfterBurst;
    } else {
      assert Excess(p, 0) == 0;
    }
  }

  /** The first message after an idle gap costs one more summary exactly when messages were
      still held back, and opens a new burst as its first raw post. */
  lemma IdleGapTheorem(p: Policy, st: ThreadState, m: AgentMessage, answer: nat -> Status, k: nat)
    requires ValidPolicy(p) && IsIdleGap(p, st, m.createdAt) && answer(k).Projected? && answer(k + 1).Projected?
    ensures var (st', r) := Publish(p, st, m, answer, k);
            && r.attempts ==
               (if st.suppressed == [] then [] else [Summary(st.suppressed, Projected)]) + [Raw(m, Projected)]
            && st' == ThreadState(1, Some(m.createdAt), st.deferred, [])
  {
  }

  // ----- Several bursts, on the whole bus ---------------------------------------------------------

  /** The lengths of a thread's bursts: a pause longer than the window starts a new one. */
  function Bursts(p: Policy, ms: seq<AgentMessage>): seq<nat> {
    if ms == [] then []
    else
      var n := |ms| - 1;
      var earlier := Bursts(p, ms[..n]);
      if n == 0 || earlier == [] || ms[n].createdAt - ms[n - 1].createdAt > p.burstWindow then earlier + [1]
      else earlier[|earlier| - 1 := earlier[|earlier| - 1] + 1]
  }

  /** The raw posts of the bursts. */
  function RawPosts(p: Policy, bs: seq<nat>): nat {
    if bs == [] then 0 else RawPosts(p, bs[..|bs| - 1]) + Min(bs[|bs| - 1], p.rawBurstLimit)
  }

  /** The summaries of bursts that are over: the full ones, and one for what was left. */
  function ClosedSummaries(p: Policy, bs: seq<nat>): nat
    requires ValidPolicy(p)
  {
    if bs == [] then 0
    else
      var n := bs[|bs| - 1];
      ClosedSummaries(p, bs[..|bs| - 1]) + Summaries(p, n) + (if Left(p, n) > 0 then 1 else 0)
  }

  /** ... and of bursts of which the last is still open. */
  function SummaryPosts(p: Policy, bs: seq<nat>): nat
    requires ValidPolicy(p)
  {
    if bs == [] then 0 else ClosedSummaries(p, bs[..|bs| - 1]) + Summaries(p, bs[|bs| - 1])
  }

  /** The length of the burst that is still open. */
  function Open(bs: seq<nat>): nat {
    if bs == [] then 0 else bs[|bs| - 1]
  }

  /** A thread's posts and its state are those of its bursts. */
  ghost predicate Metered(p: Policy, ms: seq<AgentMessage>, attempts: seq<Attempt>, st: ThreadState)
    requires ValidPolicy(p)
  {
    var bs := Bursts(p, ms);
    && |RawAttempts(attempts)| == RawPosts(p, bs)
    && |SentSummaries(attempts)| == SummaryPosts(p, bs)
    && |attempts| == RawPosts(p, bs) + SummaryPosts(p, bs)
    && st.rawCount == Min(Open(bs), p.rawBurstLimit) && |st.suppressed| == Left(p, Open(bs))
    && st.deferred == []
    && st.lastActivityAt == (if ms == [] then None else Some(ms[|ms| - 1].createdAt))
    && (ms == [] <==> bs == [])
  }

  lemma {:induction false} BurstGoesOn(p: Policy, ms: seq<AgentMessage>, m: AgentMessage)
    requires ValidPolicy(p)
    ensures var bs, bs' := Bursts(p, ms), Bursts(p, ms + [m]);
            if ms == [] || bs == [] || m.createdAt - ms[|ms| - 1].createdAt > p.burstWindow then
              && Open(bs') == 1 && RawPosts(p, bs') == RawPosts(p, bs) + 1
              && SummaryPosts(p, bs') == ClosedSummaries(p, bs)
            else
              && Open(bs') == Open(bs) + 1
              && RawPosts(p, bs') - Min(Open(bs) + 1, p.rawBurstLimit) ==
                 RawPosts(p, bs) - Min(Open(bs), p.rawBurstLimit)
              && SummaryPosts(p, bs') - Summaries(p, Open(bs) + 1) == SummaryPosts(p, bs) - Summaries(p, Open(bs))
    ensures Bursts(p, ms + [m]) != []
  {
    var bs, bs' := Bursts(p, ms), Bursts(p, ms + [m]);
    assert (ms + [m])[..|ms|] == ms;
    if bs' == bs + [1] {
      assert bs'[..|bs|] == bs;
      SmallBursts(p);
    } else {
      assert bs'[..|bs| - 1] == bs[..|bs| - 1];
    }
  }

  /** The first message of all opens a burst; any other one without a gap joins the open one. */
  lemma {:induction false} NextInBurst(p: Policy, ms: seq<AgentMessage>, st: ThreadState, m: AgentMessage)
    requires ValidPolicy(p) && !IsIdleGap(p, st, m.createdAt)
    requires ms == [] <==> Bursts(p, ms) == []
    requires st.lastActivityAt == (if ms == [] then None else Some(ms[|ms| - 1].createdAt))
    ensures var bs, bs' := Bursts(p, ms), Bursts(p, ms + [m]);
            && bs' != [] && Open(bs') == Open(bs) + 1
            && RawPosts(p, bs') - Min(Open(bs) + 1, p.rawBurstLimit) == RawPosts(p, bs) - Min(Open(bs), p.rawBurstLimit)
            && SummaryPosts(p, bs') - Summaries(p, Open(bs) + 1) == SummaryPosts(p, bs) - Summaries(p, Open(bs))
  {
    hide Summaries, Left, Bursts, RawPosts, SummaryPosts, ClosedSummaries;
    BurstGoesOn(p, ms, m);
    SmallBursts(p);
    if ms == [] {
      NothingPosted(p);
    }
  }

  lemma SmallBursts(p: Policy)
    requires ValidPolicy(p)
    ensures Summaries(p, 0) == Summaries(p, 1) == Left(p, 0) == Left(p, 1) == 0
  {
  }

  lemma NothingPosted(p: Policy)
    requires ValidPolicy(p)
    ensures RawPosts(p, []) == SummaryPosts(p, []) == ClosedSummaries(p, []) == 0
  {
  }

  lemma {:induction false} SameBurst(p: Policy, ms: seq<AgentMessage>, attempts: seq<Attempt>, st: ThreadState,
                                     m: AgentMessage, answer: nat -> Status, k: nat)
    requires ValidPolicy(p) && Metered(p, ms, attempts, st) && !IsIdleGap(p, st, m.createdAt) && answer(k).Projected?
    ensures var (st', r) := Publish(p, st, m, answer, k); Metered(p, ms + [m], attempts + r.attempts, st')
  {
    hide Summaries, Left, Publish, Bursts, RawPosts, SummaryPosts, ClosedSummaries, RawAttempts, SentSummaries;
    var n := Open(Bursts(p, ms));
    var more := Publish(p, st, m, answer, k).1.attempts;
    InBurstCosts(p, n, st, m, answer, k);
    OneMoreMessage(p, n);
    NextInBurst(p, ms, st, m);
    hide IsIdleGap, Open;
    AddedPosts(attempts, more);
    assert (ms + [m])[|ms + [m]| - 1] == m;
  }

  lemma {:induction false} NewBurst(p: Policy, ms: seq<AgentMessage>, attempts: seq<Attempt>, st: ThreadState,
                                    m: AgentMessage, answer: nat -> Status, k: nat)
    requires ValidPolicy(p) && Metered(p, ms, attempts, st) && IsIdleGap(p, st, m.createdAt)
    requires answer(k).Projected? && answer(k + 1).Projected?
    ensures var (st', r) := Publish(p, st, m, answer, k); Metered(p, ms + [m], attempts + r.attempts, st')
  {
    IdleGapTheorem(p, st, m, answer, k);
    BurstGoesOn(p, ms, m);
    SmallBursts(p);
    assert ClosedSummaries(p, Bursts(p, ms)) ==
           SummaryPosts(p, Bursts(p, ms)) + (if Left(p, Open(Bursts(p, ms))) > 0 then 1 else 0);
    hide Summaries, Left, Publish, Bursts, RawPosts, SummaryPosts, ClosedSummaries;
    var stale := if st.suppressed == [] then [] else [Summary(st.suppressed, Projected)];
    AddedPosts(attempts, stale);
    AddedPosts(attempts + stale, [Raw(m, Projected)]);
    assert attempts + stale + [Raw(m, Projected)] == attempts + (stale + [Raw(m, Projected)]);
  }

  /** When every attempt is sent and the thread is not flushed, then after any run, whatever
      happens in other threads: with bursts of n1, ..., nk messages the thread has cost
      min(ni, L) raw posts and max(0, ni - L) / B summaries for each, one more summary for each
      burst but the last that left messages over, and no other post; the last burst's
      max(0, nk - L) mod B messages are held back, and no batch is deferred. */
  lemma {:induction false} BurstsTheorem(p: Policy, answer: nat -> Status, ops: seq<Op>, key: ThreadKey)
    requires ValidPolicy(p) && forall i :: answer(i).Projected?
    requires forall i | 0 <= i < |ops| :: ops[i] != FlushOp(key)
    ensures var b := DoAll(p, answer, Bus(map[], [], []), ops);
            Metered(p, InThread(b.log, key), AttemptsOf(b.sent, key), StateOf(b.states, key))
  {
    if ops == [] {
      assert Left(p, 0) == 0;
    } else {
      var before, op := ops[..|ops| - 1], ops[|ops| - 1];
      BurstsTheorem(p, answer, before, key);
      var b := DoAll(p, answer, Bus(map[], [], []), before);
      hide Metered, Publish, Do;
      if op.PublishOp? && KeyOf(op.message) == key {
        PublishMetered(p, answer, b, op.message);
      } else {
        OtherThreadsUntouched(p, answer, b, op, key);
      }
    }
  }

  lemma {:induction false} PublishMetered(p: Policy, answer: nat -> Status, b: Bus, m: AgentMessage)
    requires ValidPolicy(p) && forall i :: answer(i).Projected?
    requires Metered(p, InThread(b.log, KeyOf(m)), AttemptsOf(b.sent, KeyOf(m)), StateOf(b.states, KeyOf(m)))
    ensures var b' := Do(p, answer, b, PublishOp(m));
            Metered(p, InThread(b'.log, KeyOf(m)), AttemptsOf(b'.sent, KeyOf(m)), StateOf(b'.states, KeyOf(m)))
  {
    var key, k := KeyOf(m), |b.sent|;
    var st, ms, attempts := StateOf(b.states, key), InThread(b.log, key), AttemptsOf(b.sent, key);
    InThreadAppend(b.log, m, key);
    AttemptsOfTagged(b.sent, key, Publish(p, st, m, answer, k).1.attempts, key);
    hide Metered, Publish, InThread, AttemptsOf, IsIdleGap;
    assert answer(k).Projected? && answer(k + 1).Projected?;
    if IsIdleGap(p, st, m.createdAt) {
      NewBurst(p, ms, attempts, st, m, answer, k);
    } else {
      SameBurst(p, ms, attempts, st, m, answer, k);
    }
  }
}
