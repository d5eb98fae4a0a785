/** What holds of every run of publishes and flushes, whatever becomes of each attempt to
    post: nothing is lost, duplicated or reordered, and bursts cost what they should. */
module ThrottleTheorems {
  import opened Wrappers
  import opened AgentBusModels
  import opened Throttle

  // ----- Conservation -----------------------------------------------------------------------

  /** What has become of a message: exactly one of these. */
  datatype Fate = RawAttempted | InSentSummary | InDeferredBatch | HeldBack

  /** A run of consecutive messages of one thread with a common fate. */
  datatype Segment = Segment(fate: Fate, messages: seq<AgentMessage>)

  /** What a list of segments amounts to. */
  datatype Tally = Tally(
    log: seq<AgentMessage>,
    raw: seq<AgentMessage>,
    sent: multiset<seq<AgentMessage>>,
    deferred: seq<seq<AgentMessage>>,
    held: seq<AgentMessage>
  )

  const NOTHING := Tally([], [], multiset{}, [], [])

  function Push(t: Tally, s: Segment): Tally {
    var t1 := t.(log := t.log + s.messages);
    match s.fate
    case RawAttempted => t1.(raw := t.raw + s.messages)
    case InSentSummary => t1.(sent := t.sent + multiset{s.messages})
    case InDeferredBatch => t1.(deferred := t.deferred + [s.messages])
    case HeldBack => t1.(held := s.messages)
  }

  function Count(segs: seq<Segment>): Tally {
    if segs == [] then NOTHING else Push(Count(segs[..|segs| - 1]), segs[|segs| - 1])
  }

  /** The messages that were attempted raw, in order. */
  function RawAttempts(attempts: seq<Attempt>): seq<AgentMessage> {
    if attempts == [] then []
    else
      var earlier, last := RawAttempts(attempts[..|attempts| - 1]), attempts[|attempts| - 1];
      if last.Raw? then earlier + [last.message] else earlier
  }

  /** The batches whose summary was sent, in no particular order: a deferred batch is sent
      later than it was published. */
  function SentSummaries(attempts: seq<Attempt>): multiset<seq<AgentMessage>> {
    if attempts == [] then multiset{}
    else
      var earlier, last := SentSummaries(attempts[..|attempts| - 1]), attempts[|attempts| - 1];
      if last.Summary? && last.status.Projected? then earlier + multiset{last.batch} else earlier
  }

  /** No segment is empty, and only the last one may be held back. */
  ghost predicate Proper(segs: seq<Segment>) {
    && (forall i | 0 <= i < |segs| :: segs[i].messages != [])
    && (forall i | 0 <= i < |segs| - 1 :: segs[i].fate != HeldBack)
  }

  /** The thread's log is cut into segments, each with one fate, and the fates are what the
      state and the attempts say: raw attempts, deferred batches and held-back messages in
      publication order, every batch a contiguous piece of the log, and the held-back piece
      at its end. */
  ghost predicate Accounts(segs: seq<Segment>, log: seq<AgentMessage>, attempts: seq<Attempt>, st: ThreadState) {
    && Proper(segs)
    && Count(segs) == Tally(log, RawAttempts(attempts), SentSummaries(attempts), st.deferred, st.suppressed)
  }

  lemma CountPush(segs: seq<Segment>, s: Segment)
    ensures Count(segs + [s]) == Push(Count(segs), s)
  {
    assert (segs + [s])[..|segs|] == segs;
  }

  lemma AppendAttempt(attempts: seq<Attempt>, a: Attempt)
    ensures RawAttempts(attempts + [a]) == RawAttempts(attempts) + (if a.Raw? then [a.message] else [])
    ensures SentSummaries(attempts + [a]) ==
            SentSummaries(attempts) + (if a.Summary? && a.status.Projected? then multiset{a.batch} else multiset{})
  {
    assert (attempts + [a])[..|attempts|] == attempts;
  }

  lemma {:induction false} NoneHeld(segs: seq<Segment>)
    requires forall i | 0 <= i < |segs| :: segs[i].fate != HeldBack
    ensures Count(segs).held == []
  {
    if segs != [] {
      NoneHeld(segs[..|segs| - 1]);
    }
  }

  /** With nothing held back, a segment of any fate can follow. */
  lemma ProperPush(segs: seq<Segment>, s: Segment)
    requires Proper(segs) && Count(segs).held == [] && s.messages != []
    ensures Proper(segs + [s])
  {
    if segs != [] {
      var last := segs[|segs| - 1];
      assert last.fate == HeldBack ==> Count(segs).held == last.messages;
    }
  }

  /** Held-back messages are the log's newest, in the last segment; it can be taken off. */
  lemma TakeHeld(segs: seq<Segment>, log: seq<AgentMessage>, attempts: seq<Attempt>, st: ThreadState)
    returns (init: seq<Segment>, earlier: seq<AgentMessage>)
    requires Accounts(segs, log, attempts, st)
    ensures log == earlier + st.suppressed
    ensures Accounts(init, earlier, attempts, st.(suppressed := []))
  {
    if segs != [] && segs[|segs| - 1].fate == HeldBack {
      init := segs[..|segs| - 1];
      NoneHeld(init);
      earlier := Count(init).log;
    } else {
      NoneHeld(segs);
      init, earlier := segs, log;
    }
  }

  // With nothing held back, the log can be extended by a segment of any fate.

  lemma AddRaw(segs: seq<Segment>, log: seq<AgentMessage>, attempts: seq<Attempt>, st: ThreadState,
               m: AgentMessage, status: Status)
    requires Accounts(segs, log, attempts, st) && st.suppressed == []
    ensures Accounts(segs + [Segment(RawAttempted, [m])], log + [m], attempts + [Raw(m, status)], st)
  {
    var s := Segment(RawAttempted, [m]);
    ProperPush(segs, s);
    CountPush(segs, s);
    AppendAttempt(attempts, Raw(m, status));
  }

  lemma AddSent(segs: seq<Segment>, log: seq<AgentMessage>, attempts: seq<Attempt>, st: ThreadState,
                batch: seq<AgentMessage>)
    requires Accounts(segs, log, attempts, st) && st.suppressed == [] && batch != []
    ensures Accounts(segs + [Segment(InSentSummary, batch)], log + batch, attempts + [Summary(batch, Projected)], st)
  {
    var s := Segment(InSentSummary, batch);
    ProperPush(segs, s);
    CountPush(segs, s);
    AppendAttempt(attempts, Summary(batch, Projected));
  }

  lemma AddDeferred(segs: seq<Segment>, log: seq<AgentMessage>, attempts: seq<Attempt>, st: ThreadState,
                    batch: seq<AgentMessage>)
    requires Accounts(segs, log, attempts, st) && st.suppressed == [] && batch != []
    ensures Accounts(segs + [Segment(InDeferredBatch, batch)], log + batch, attempts,
                     st.(deferred := st.deferred + [batch]))
  {
    var s := Segment(InDeferredBatch, batch);
    ProperPush(segs, s);
    CountPush(segs, s);
  }

  lemma AddHeld(segs: seq<Segment>, log: seq<AgentMessage>, attempts: seq<Attempt>, st: ThreadState,
                batch: seq<AgentMessage>)
    requires Accounts(segs, log, attempts, st) && st.suppressed == [] && batch != []
    ensures Accounts(segs + [Segment(HeldBack, batch)], log + batch, attempts, st.(suppressed := batch))
  {
    var s := Segment(HeldBack, batch);
    ProperPush(segs, s);
    CountPush(segs, s);
  }

  /** A summary that is not sent settles nothing. */
  lemma AddFailure(segs: seq<Segment>, log: seq<AgentMessage>, attempts: seq<Attempt>, st: ThreadState, a: Attempt)
    requires Accounts(segs, log, attempts, st) && a.Summary? && !a.status.Projected?
    ensures Accounts(segs, log, attempts + [a], st)
  {
    AppendAttempt(attempts, a);
  }

  /** Only batches and held-back messages of a state are accounted for. */
  lemma SameBatches(segs: seq<Segment>, log: seq<AgentMessage>, attempts: seq<Attempt>, st: ThreadState,
                    st': ThreadState)
    requires Accounts(segs, log, attempts, st) && st'.deferred == st.deferred && st'.suppressed == st.suppressed
    ensures Accounts(segs, log, attempts, st') && attempts + [] == attempts
  {
  }

  /** The end of a burst re-labels the held-back segment, if there is one. */
  lemma CloseAccounts(segs: seq<Segment>, log: seq<AgentMessage>, attempts: seq<Attempt>, st: ThreadState,
                      status: Status)
    returns (segs': seq<Segment>)
    requires Accounts(segs, log, attempts, st)
    ensures var (st', r) := CloseStaleBurst(st, status);
            Accounts(segs', log, attempts + r.attempts, st') && st'.suppressed == []
  {
    hide Accounts;
    var st' := CloseStaleBurst(st, status).0;
    if st.suppressed == [] {
      segs' := segs;
      SameBatches(segs, log, attempts, st, st');
    } else {
      var init, earlier := TakeHeld(segs, log, attempts, st);
      var held, st0 := st.suppressed, st.(suppressed := []);
      if status.Projected? {
        segs' := init + [Segment(InSentSummary, held)];
        AddSent(init, earlier, attempts, st0, held);
        SameBatches(segs', log, attempts + [Summary(held, status)], st0, st');
      } else {
        segs' := init + [Segment(InDeferredBatch, held)];
        AddDeferred(init, earlier, attempts, st0, held);
        AddFailure(segs', log, attempts, st0.(deferred := st.deferred + [held]), Summary(held, status));
        SameBatches(segs', log, attempts + [Summary(held, status)], st0.(deferred := st.deferred + [held]), st');
      }
    }
  }

  /** A message that is held back joins the held-back segment or starts one; a summary that
      is sent re-labels it. */
  lemma HoldBackAccounts(segs: seq<Segment>, log: seq<AgentMessage>, attempts: seq<Attempt>,
                         p: Policy, st: ThreadState, m: AgentMessage, status: Status)
    returns (segs': seq<Segment>)
    requires Accounts(segs, log, attempts, st)
    ensures var (st', r) := AppendSuppressed(p, st, m, status);
            Accounts(segs', log + [m], attempts + r.attempts, st')
  {
    hide Accounts;
    var init, earlier := TakeHeld(segs, log, attempts, st);
    var held, st0 := st.suppressed + [m], st.(suppressed := []);
    assert earlier + held == log + [m];
    if |held| >= p.summaryBatchSize && status.Projected? {
      segs' := init + [Segment(InSentSummary, held)];
      AddSent(init, earlier, attempts, st0, held);
    } else {
      segs' := init + [Segment(HeldBack, held)];
      AddHeld(init, earlier, attempts, st0, held);
      if |held| >= p.summaryBatchSize {
        AddFailure(segs', log + [m], attempts, st.(suppressed := held), Summary(held, status));
      } else {
        SameBatches(segs', log + [m], attempts, st.(suppressed := held), st.(suppressed := held));
      }
    }
  }

  lemma PublishAccounts(segs: seq<Segment>, log: seq<AgentMessage>, attempts: seq<Attempt>,
                        p: Policy, st: ThreadState, m: AgentMessage, answer: nat -> Status, k: nat)
    returns (segs': seq<Segment>)
    requires Accounts(segs, log, attempts, st)
    ensures var (st', r) := Publish(p, st, m, answer, k);
            Accounts(segs', log + [m], attempts + r.attempts, st')
  {
    hide Accounts, AppendSuppressed, CloseStaleBurst;
    var segs1, st1, stale := segs, st, BatchResult([], []);
    SameBatches(segs, log, attempts, st, st);
    if IsIdleGap(p, st, m.createdAt) {
      segs1 := CloseAccounts(segs, log, attempts, st, answer(k));
      st1, stale := CloseStaleBurst(st, answer(k)).0, CloseStaleBurst(st, answer(k)).1;
    }
    var attempts1 := attempts + stale.attempts;
    var st2 := st1.(lastActivityAt := Some(m.createdAt));
    SameBatches(segs1, log, attempts1, st1, st2);
    var status := answer(k + |stale.attempts|);
    if st2.suppressed == [] && st2.rawCount < p.rawBurstLimit {
      segs' := segs1 + [Segment(RawAttempted, [m])];
      AddRaw(segs1, log, attempts1, st2, m, status);
      SameBatches(segs', log + [m], attempts1 + [Raw(m, status)], st2, st2.(rawCount := st2.rawCount + 1));
      assert attempts + (stale.attempts + [Raw(m, status)]) == attempts1 + [Raw(m, status)];
    } else {
      segs' := HoldBackAccounts(segs1, log, attempts1, p, st2, m, status);
      var now := AppendSuppressed(p, st2, m, status).1;
      assert attempts + (stale.attempts + now.attempts) == attempts1 + now.attempts;
    }
  }

  ghost predicate OneMoreSent(t: Tally, t': Tally) {
    t.deferred != [] && t' == t.(deferred := t.deferred[1..], sent := t.sent + multiset{t.deferred[0]})
  }

  lemma OneMoreSentLater(t: Tally, t': Tally, s: Segment)
    requires OneMoreSent(t, t')
    ensures OneMoreSent(Push(t, s), Push(t', s))
  {
    assert (t.deferred + [s.messages])[1..] == t.deferred[1..] + [s.messages];
  }

  lemma OneMoreSentNow(t: Tally, s: Segment)
    requires t.deferred == [] && Push(t, s).deferred != []
    ensures s.fate == InDeferredBatch
    ensures OneMoreSent(Push(t, s), Push(t, Segment(InSentSummary, s.messages)))
  {
  }

  /** The list with one segment re-labelled as sent. */
  function Relabel(segs: seq<Segment>, i: nat): seq<Segment>
    requires i < |segs|
  {
    segs[i := Segment(InSentSummary, segs[i].messages)]
  }

  /** Re-labelling the first deferred batch as sent moves just this batch. */
  lemma {:induction false} FirstDeferred(segs: seq<Segment>) returns (i: nat)
    requires Count(segs).deferred != []
    ensures i < |segs| && segs[i].fate == InDeferredBatch
    ensures OneMoreSent(Count(segs), Count(Relabel(segs, i)))
  {
    hide OneMoreSent, Push;
    var init, last := segs[..|segs| - 1], segs[|segs| - 1];
    if Count(init).deferred != [] {
      i := FirstDeferred(init);
      assert Relabel(segs, i) == Relabel(init, i) + [last];
      CountPush(Relabel(init, i), last);
      OneMoreSentLater(Count(init), Count(Relabel(init, i)), last);
    } else {
      i := |segs| - 1;
      assert Relabel(segs, i) == init + [Segment(InSentSummary, last.messages)];
      CountPush(init, Segment(InSentSummary, last.messages));
      OneMoreSentNow(Count(init), last);
    }
  }

  lemma FirstDeferredAccounts(segs: seq<Segment>, log: seq<AgentMessage>, attempts: seq<Attempt>, st: ThreadState)
    returns (segs': seq<Segment>)
    requires Accounts(segs, log, attempts, st) && st.deferred != []
    ensures Accounts(segs', log, attempts + [Summary(st.deferred[0], Projected)], st.(deferred := st.deferred[1..]))
  {
    var i := FirstDeferred(segs);
    segs' := Relabel(segs, i);
    AppendAttempt(attempts, Summary(st.deferred[0], Projected));
  }

  lemma {:induction false} FlushAccounts(segs: seq<Segment>, log: seq<AgentMessage>, attempts: seq<Attempt>,
                                         st: ThreadState, answer: nat -> Status, k: nat)
    returns (segs': seq<Segment>)
    requires Accounts(segs, log, attempts, st)
    ensures var (st', sent) := Flush(st, answer, k); Accounts(segs', log, attempts + sent, st')
    decreases |st.deferred|
  {
    hide Accounts, Flush;
    segs' := segs;
    if st.deferred != [] {
      FlushFirst(st, answer, k);
      var first := Summary(st.deferred[0], answer(k));
      if answer(k).Projected? {
        var segs1 := FirstDeferredAccounts(segs, log, attempts, st);
        var st1 := st.(deferred := st.deferred[1..]);
        segs' := FlushAccounts(segs1, log, attempts + [first], st1, answer, k + 1);
        var rest := Flush(st1, answer, k + 1).1;
        assert attempts + ([first] + rest) == attempts + [first] + rest;
      } else {
        AddFailure(segs, log, attempts, st, first);
      }
    } else {
      FlushLast(st, answer, k);
      if st.suppressed == [] {
        SameBatches(segs, log, attempts, st, st);
      } else if answer(k).Projected? {
        segs' := CloseAccounts(segs, log, attempts, st, answer(k));
        SameBatches(segs', log, attempts + [Summary(st.suppressed, answer(k))], CloseStaleBurst(st, answer(k)).0,
                    st.(suppressed := []));
      } else {
        AddFailure(segs, log, attempts, st, Summary(st.suppressed, answer(k)));
      }
    }
  }

  // ----- ... over the whole bus ---------------------------------------------------------------

  function AttemptsOf(sent: seq<Sent>, key: ThreadKey): seq<Attempt> {
    if sent == [] then []
    else
      var earlier, last := AttemptsOf(sent[..|sent| - 1], key), sent[|sent| - 1];
      if last.key == key then earlier + [last.attempt] else earlier
  }

  lemma AttemptsAppend(sent: seq<Sent>, s: Sent, key: ThreadKey)
    ensures AttemptsOf(sent + [s], key) ==
            if s.key == key then AttemptsOf(sent, key) + [s.attempt] else AttemptsOf(sent, key)
  {
    assert (sent + [s])[..|sent|] == sent;
  }

  lemma {:induction false} AttemptsOfTagged(sent: seq<Sent>, key: ThreadKey, attempts: seq<Attempt>, other: ThreadKey)
    ensures AttemptsOf(sent + Tagged(key, attempts), other) ==
            if other == key then AttemptsOf(sent, other) + attempts else AttemptsOf(sent, other)
  {
    hide AttemptsOf, Tagged;
    if attempts == [] {
      NoneTagged(sent, key, other);
    } else {
      var init, last := attempts[..|attempts| - 1], attempts[|attempts| - 1];
      AttemptsOfTagged(sent, key, init, other);
      OneMoreTagged(sent, key, init, last, other);
      assert attempts == init + [last];
      assert AttemptsOf(sent, other) + init + [last] == AttemptsOf(sent, other) + attempts;
    }
  }

  lemma NoneTagged(sent: seq<Sent>, key: ThreadKey, other: ThreadKey)
    ensures AttemptsOf(sent + Tagged(key, []), other) == AttemptsOf(sent, other) == AttemptsOf(sent, other) + []
  {
    assert sent + Tagged(key, []) == sent;
  }

  lemma OneMoreTagged(sent: seq<Sent>, key: ThreadKey, attempts: seq<Attempt>, a: Attempt, other: ThreadKey)
    ensures var before := AttemptsOf(sent + Tagged(key, attempts), other);
            AttemptsOf(sent + Tagged(key, attempts + [a]), other) == if other == key then before + [a] else before
  {
    hide AttemptsOf;
    TaggedAppend(sent, key, attempts, a);
    assert Tagged(key, [a]) == [Sent(key, a)];
    AttemptsAppend(sent + Tagged(key, attempts), Sent(key, a), other);
  }

  ghost predicate AccountedFor(b: Bus, key: ThreadKey) {
    exists segs :: Accounts(segs, InThread(b.log, key), AttemptsOf(b.sent, key), StateOf(b.states, key))
  }

  lemma Witnessed(segs: seq<Segment>, b: Bus, key: ThreadKey)
    requires Accounts(segs, InThread(b.log, key), AttemptsOf(b.sent, key), StateOf(b.states, key))
    ensures AccountedFor(b, key)
  {
    hide Accounts;
  }

  lemma PublishHere(p: Policy, answer: nat -> Status, b: Bus, m: AgentMessage)
    requires AccountedFor(b, KeyOf(m))
    ensures AccountedFor(Do(p, answer, b, PublishOp(m)), KeyOf(m))
  {
    var key := KeyOf(m);
    var log, attempts, st := InThread(b.log, key), AttemptsOf(b.sent, key), StateOf(b.states, key);
    var segs :| Accounts(segs, log, attempts, st);
    InThreadAppend(b.log, m, key);
    AttemptsOfTagged(b.sent, key, Publish(p, st, m, answer, |b.sent|).1.attempts, key);
    hide Accounts, Publish, AttemptsOf, InThread, AccountedFor, Tagged;
    var segs' := PublishAccounts(segs, log, attempts, p, st, m, answer, |b.sent|);
    Witnessed(segs', Do(p, answer, b, PublishOp(m)), key);
  }

  lemma FlushHere(p: Policy, answer: nat -> Status, b: Bus, key: ThreadKey)
    requires AccountedFor(b, key)
    ensures AccountedFor(Do(p, answer, b, FlushOp(key)), key)
  {
    if key in b.states {
      var log, attempts, st := InThread(b.log, key), AttemptsOf(b.sent, key), StateOf(b.states, key);
      var segs :| Accounts(segs, log, attempts, st);
      AttemptsOfTagged(b.sent, key, Flush(st, answer, |b.sent|).1, key);
      hide Accounts, Flush, AttemptsOf, InThread, AccountedFor, Tagged;
      var segs' := FlushAccounts(segs, log, attempts, st, answer, |b.sent|);
      Witnessed(segs', Do(p, answer, b, FlushOp(key)), key);
    }
  }

  lemma DoAccounts(p: Policy, answer: nat -> Status, b: Bus, op: Op, key: ThreadKey)
    requires AccountedFor(b, key)
    ensures AccountedFor(Do(p, answer, b, op), key)
  {
    if key == KeyOfOp(op) {
      hide Do, AccountedFor;
      match op
      case PublishOp(m) => PublishHere(p, answer, b, m);
      case FlushOp(_) => FlushHere(p, answer, b, key);
    } else {
      OtherThreadsUntouched(p, answer, b, op, key);
      hide Do, Accounts;
    }
  }

  /** Conservation, over every run and every pattern of failures: in every thread each
      published message has exactly one fate - attempted raw, in a sent summary, in a
      deferred batch, or held back. */
  lemma {:induction false} ConservationTheorem(p: Policy, answer: nat -> Status, ops: seq<Op>, key: ThreadKey)
    ensures AccountedFor(DoAll(p, answer, Bus(map[], [], []), ops), key)
  {
    if ops == [] {
      var b := Bus(map[], [], []);
      assert Accounts([], InThread(b.log, key), AttemptsOf(b.sent, key), StateOf(b.states, key));
    } else {
      ConservationTheorem(p, answer, ops[..|ops| - 1], key);
      DoAccounts(p, answer, DoAll(p, answer, Bus(map[], [], []), ops[..|ops| - 1]), ops[|ops| - 1], key);
    }
  }

  /** The thread an operation is about. */
  function KeyOfOp(op: Op): ThreadKey {
    match op
    case PublishOp(m) => KeyOf(m)
    case FlushOp(key) => key
  }

  /** An operation on one thread leaves every other thread's state, log and posts alone. */
  lemma OtherThreadsUntouched(p: Policy, answer: nat -> Status, b: Bus, op: Op, key: ThreadKey)
    requires key != KeyOfOp(op)
    ensures var b' := Do(p, answer, b, op);
            && (key in b'.states <==> key in b.states) && StateOf(b'.states, key) == StateOf(b.states, key)
            && InThread(b'.log, key) == InThread(b.log, key)
            && AttemptsOf(b'.sent, key) == AttemptsOf(b.sent, key)
  {
    match op
    case PublishOp(m) =>
      var (st, r) := Publish(p, StateOf(b.states, KeyOf(m)), m, answer, |b.sent|);
      InThreadAppend(b.log, m, key);
      AttemptsOfTagged(b.sent, KeyOf(m), r.attempts, key);
    case FlushOp(target) =>
      if target in b.states {
        AttemptsOfTagged(b.sent, target, Flush(b.states[target], answer, |b.sent|).1, key);
      }
  }

  // ----- What a flush does --------------------------------------------------------------------

  /** The summaries of the first n batches, all sent. */
  function Taken(deferred: seq<seq<AgentMessage>>, n: nat): seq<Attempt>
    requires n <= |deferred|
  {
    seq(n, i requires 0 <= i < n => Summary(deferred[i], Projected))
  }

  lemma TakenNone(deferred: seq<seq<AgentMessage>>)
    ensures Taken(deferred, 0) == []
  {
  }

  lemma {:induction false} TakenMore(deferred: seq<seq<AgentMessage>>, n: nat)
    requires n < |deferred|
    ensures Taken(deferred, n + 1) == [Summary(deferred[0], Projected)] + Taken(deferred[1..], n)
  {
  }

  /** A flush sends and removes the longest prefix of deferred batches that can be sent, and
      stops at the first that cannot; only when all went out it turns to the held-back
      messages. Nothing else changes. */
  lemma {:induction false} FlushTakesPrefix(st: ThreadState, answer: nat -> Status, k: nat) returns (n: nat)
    ensures n <= |st.deferred|
    ensures forall i | k <= i < k + n :: answer(i).Projected?
    ensures var (st', sent) := Flush(st, answer, k);
            var taken := Taken(st.deferred, n);
            if n < |st.deferred| then
              && !answer(k + n).Projected?
              && sent == taken + [Summary(st.deferred[n], answer(k + n))]
              && st' == st.(deferred := st.deferred[n..])
            else if st.suppressed == [] then sent == taken && st' == st.(deferred := [])
            else
              && sent == taken + [Summary(st.suppressed, answer(k + n))]
              && st' == st.(deferred := [], suppressed := if answer(k + n).Projected? then [] else st.suppressed)
    decreases |st.deferred|
  {
    hide Flush, Taken;
    n := 0;
    TakenNone(st.deferred);
    if st.deferred == [] {
      FlushLast(st, answer, k);
    } else {
      FlushFirst(st, answer, k);
      if answer(k).Projected? {
        var st1 := st.(deferred := st.deferred[1..]);
        var n1 := FlushTakesPrefix(st1, answer, k + 1);
        n := n1 + 1;
        TakenMore(st.deferred, n1);
        assert st1.deferred[n1..] == st.deferred[n..];
      } else {
        assert st.deferred[0..] == st.deferred;
      }
    }
  }

  // ----- Every publish of every run -----------------------------------------------------------------

  /** In every run, whatever the answers: the messages that the thread posts and holds back at one
      more publish are exactly those of `IsEffect`. */
  lemma PublishTheorem(p: Policy, answer: nat -> Status, ops: seq<Op>, m: AgentMessage)
    ensures var key, b := KeyOf(m), DoAll(p, answer, Bus(map[], [], []), ops);
            var b' := DoAll(p, answer, Bus(map[], [], []), ops + [PublishOp(m)]);
            exists r: BatchResult ::
              && IsEffect(p, StateOf(b.states, key), m, answer, |b.sent|, StateOf(b'.states, key), r)
              && AttemptsOf(b'.sent, key) == AttemptsOf(b.sent, key) + r.attempts
                 && |b'.sent| == |b.sent| + |r.attempts|
  {
    var key, b := KeyOf(m), DoAll(p, answer, Bus(map[], [], []), ops);
    assert (ops + [PublishOp(m)])[..|ops|] == ops;
    var (st', r) := Publish(p, StateOf(b.states, key), m, answer, |b.sent|);
    PublishEffect(p, StateOf(b.states, key), m, answer, |b.sent|);
    AttemptsOfTagged(b.sent, key, r.attempts, key);
    hide Publish, IsEffect, AttemptsOf;
  }

  /** A summary is tried, and tried again, as soon as a batch is full: after a publish either
      fewer messages than a batch are held back, or the thread's last attempt was to post exactly
      those that are, in vain. */
  lemma NoFullBatchWaits(p: Policy, answer: nat -> Status, ops: seq<Op>, m: AgentMessage)
    requires ValidPolicy(p)
    ensures var key, b' := KeyOf(m), DoAll(p, answer, Bus(map[], [], []), ops + [PublishOp(m)]);
            var held, attempts := StateOf(b'.states, key).suppressed, AttemptsOf(b'.sent, key);
            || |held| < p.summaryBatchSize
            || (attempts != [] && attempts[|attempts| - 1].Summary? && attempts[|attempts| - 1].batch == held
                && attempts[|attempts| - 1].status != Projected)
  {
    PublishTheorem(p, answer, ops, m);
    hide AttemptsOf, DoAll;
  }

  // ----- The count of what is pending ----------------------------------------------------------------

  /** The messages that attempts have dealt with: each raw one, and all of each sent summary. */
  function Handled(attempts: seq<Attempt>): nat {
    if attempts == [] then 0
    else
      var earlier, last := Handled(attempts[..|attempts| - 1]), attempts[|attempts| - 1];
      match last
      case Raw(_, _) => earlier + 1
      case Summary(batch, status) => if status == Projected then earlier + |batch| else earlier
  }

  lemma {:induction false} HandledConcat(s: seq<Attempt>, t: seq<Attempt>)
    ensures Handled(s + t) == Handled(s) + Handled(t)
  {
    if t == [] {
      assert s + t == s;
    } else {
      assert (s + t)[..|s + t| - 1] == s + t[..|t| - 1];
      HandledConcat(s, t[..|t| - 1]);
    }
  }

  lemma {:induction false} TotalConcat(s: seq<seq<AgentMessage>>, batch: seq<AgentMessage>)
    ensures Total(s + [batch]) == Total(s) + |batch|
  {
    assert (s + [batch])[..|s|] == s;
  }

  lemma {:induction false} TotalFirst(s: seq<seq<AgentMessage>>)
    requires s != []
    ensures Total(s) == |s[0]| + Total(s[1..])
  {
    if |s| == 1 {
      assert s[..0] == [] && s[1..] == [];
    } else {
      TotalFirst(s[..|s| - 1]);
      assert s[..|s| - 1][1..] == s[1..][..|s| - 2];
    }
  }

  lemma HandledOne(a: Attempt)
    ensures Handled([a]) == match a
                            case Raw(_, _) => 1
                            case Summary(batch, status) => if status == Projected then |batch| else 0
  {
    assert [a][..0] == [];
  }

  lemma CloseCounts(st: ThreadState, status: Status)
    ensures var (st', r) := CloseStaleBurst(st, status); Handled(r.attempts) + Pending(st') == Pending(st)
  {
    NoneHandled();
    HandledOne(Summary(st.suppressed, status));
    TotalConcat(st.deferred, st.suppressed);
    hide Handled, Total;
  }

  lemma AppendCounts(p: Policy, st: ThreadState, m: AgentMessage, status: Status)
    ensures var (st', r) := AppendSuppressed(p, st, m, status); Handled(r.attempts) + Pending(st') == Pending(st) + 1
  {
    NoneHandled();
    HandledOne(Summary(st.suppressed + [m], status));
    hide Handled, Total;
  }

  lemma SamePending(s: ThreadState, t: ThreadState)
    requires s.suppressed == t.suppressed && s.deferred == t.deferred
    ensures Pending(s) == Pending(t)
  {
  }

  lemma PublishCounts(p: Policy, st: ThreadState, m: AgentMessage, answer: nat -> Status, k: nat)
    ensures var (st', r) := Publish(p, st, m, answer, k); Handled(r.attempts) + Pending(st') == Pending(st) + 1
  {
    NoneHandled();
    hide CloseStaleBurst, AppendSuppressed, Pending, Handled, IsIdleGap;
    CloseCounts(st, answer(k));
    var (st1, stale) :=
      if IsIdleGap(p, st, m.createdAt) then CloseStaleBurst(st, answer(k)) else (st, BatchResult([], []));
    var st2 := st1.(lastActivityAt := Some(m.createdAt));
    var status := answer(k + |stale.attempts|);
    SamePending(st1, st2);
    SamePending(st2, st2.(rawCount := st2.rawCount + 1));
    AppendCounts(p, st2, m, status);
    HandledOne(Raw(m, status));
    HandledConcat(stale.attempts, [Raw(m, status)]);
    HandledConcat(stale.attempts, AppendSuppressed(p, st2, m, status).1.attempts);
  }

  lemma NoneHandled()
    ensures Handled([]) == 0
  {
  }

  lemma {:induction false} FlushCounts(st: ThreadState, answer: nat -> Status, k: nat)
    ensures var (st', sent) := Flush(st, answer, k); Handled(sent) + Pending(st') == Pending(st)
    decreases |st.deferred|
  {
    NoneHandled();
    if st.deferred == [] {
      FlushLast(st, answer, k);
      HandledOne(Summary(st.suppressed, answer(k)));
    } else {
      FlushFirst(st, answer, k);
      HandledOne(Summary(st.deferred[0], answer(k)));
      if answer(k).Projected? {
        var st1 := st.(deferred := st.deferred[1..]);
        FlushCounts(st1, answer, k + 1);
        TotalFirst(st.deferred);
        HandledConcat([Summary(st.deferred[0], answer(k))], Flush(st1, answer, k + 1).1);
      }
    }
  }

  /** In every run, whatever the answers: the messages of a thread are as many as have been posted
      raw or in sent summaries, and what PendingSummaryCount reports besides. */
  lemma {:induction false} CountTheorem(p: Policy, answer: nat -> Status, ops: seq<Op>, key: ThreadKey)
    ensures var b := DoAll(p, answer, Bus(map[], [], []), ops);
            |InThread(b.log, key)| == Handled(AttemptsOf(b.sent, key)) + Pending(StateOf(b.states, key))
  {
    if ops != [] {
      var b, op := DoAll(p, answer, Bus(map[], [], []), ops[..|ops| - 1]), ops[|ops| - 1];
      CountTheorem(p, answer, ops[..|ops| - 1], key);
      if key != KeyOfOp(op) {
        OtherThreadsUntouched(p, answer, b, op, key);
        hide Do, InThread, AttemptsOf, Pending, Handled;
      } else {
        DoCounts(p, answer, b, op);
        hide Do, InThread, AttemptsOf, Pending, Handled;
      }
    }
  }

  lemma DoCounts(p: Policy, answer: nat -> Status, b: Bus, op: Op)
    requires var key := KeyOfOp(op);
             |InThread(b.log, key)| == Handled(AttemptsOf(b.sent, key)) + Pending(StateOf(b.states, key))
    ensures var key, b' := KeyOfOp(op), Do(p, answer, b, op);
            |InThread(b'.log, key)| == Handled(AttemptsOf(b'.sent, key)) + Pending(StateOf(b'.states, key))
  {
    hide Publish, Flush, Handled, Pending, AttemptsOf, InThread;
    match op
    case PublishOp(m) =>
      var key, st := KeyOf(m), StateOf(b.states, KeyOf(m));
      var r := Publish(p, st, m, answer, |b.sent|).1;
      PublishCounts(p, st, m, answer, |b.sent|);
      InThreadAppend(b.log, m, key);
      AttemptsOfTagged(b.sent, key, r.attempts, key);
      HandledConcat(AttemptsOf(b.sent, key), r.attempts);
    case FlushOp(key) =>
      if key in b.states {
        var sent := Flush(b.states[key], answer, |b.sent|).1;
        FlushCounts(b.states[key], answer, |b.sent|);
        AttemptsOfTagged(b.sent, key, sent, key);
        HandledConcat(AttemptsOf(b.sent, key), sent);
      }
  }
}
