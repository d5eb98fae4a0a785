/** The single-slot background runner (core/background_runner.py) as interleaved atomic
    steps of submitters, the one worker thread, cancelling callers and shutdown callers. */
module BackgroundRunner {
  import opened Wrappers

  // ----- The protocol -------------------------------------------------------------------------

  /** Where a submission is: accepted under the lock but not yet handed to the executor;
      in the executor's queue; running; its slot released, its callback not yet called;
      over; or refused by an executor that had been shut down meanwhile. */
  datatype Phase = Accepted | Queued | Running | Released | Completed | Stranded

  /** Submissions are numbered in the order of acceptance. The first four fields are the
      lock-guarded ones; closed, queue and worker are the executor's; the last four say
      what has happened to each submission so far. */
  datatype Runner = Runner(
    activeHandle: Option<nat>,
    activeToken: Option<nat>,
    activeFuture: Option<nat>,
    shutdown: bool,
    closed: bool,
    queue: seq<nat>,
    worker: Option<nat>,
    phase: seq<Phase>,
    futureRecorded: seq<bool>,
    cancelled: seq<bool>,
    callbacks: seq<nat>
  )

  const START := Runner(None, None, None, false, false, [], None, [], [], [], [])

  /** One atomic step. Submit and Cancel are the lock blocks of those methods; Enqueue and
      RecordFuture are what a submitter does after its lock block; Take, Release and Complete
      are the worker's. Shutdown is the lock block of the first shutdown call, Close is
      executor.shutdown, and Join the return of that call when it has nothing more to wait
      for; ReturnAtOnce is a later shutdown call, lock block and return. */
  datatype Event =
    | Submit
    | Enqueue(id: nat)
    | RecordFuture(id: nat)
    | Take
    | Release
    | Complete
    | Cancel
    | Shutdown
    | Close
    | Join
    | ReturnAtOnce

  predicate CanAccept(s: Runner) {
    !s.shutdown && s.activeHandle.None?
  }

  /** The states in which a step can be taken. Refused calls are steps without effect. */
  predicate Enabled(s: Runner, e: Event) {
    match e
    case Submit => true
    case Enqueue(i) => i < |s.phase| && s.phase[i] == Accepted
    case RecordFuture(i) =>
      i < |s.phase| && i < |s.futureRecorded| && !s.futureRecorded[i] &&
      (s.phase[i] == Queued || s.phase[i] == Running || s.phase[i] == Released || s.phase[i] == Completed)
    case Take => s.worker.None? && s.queue != [] && s.queue[0] < |s.phase|
    case Release => s.worker.Some? && s.worker.value < |s.phase| && s.phase[s.worker.value] == Running
    case Complete =>
      s.worker.Some? && s.worker.value < |s.phase| && s.worker.value < |s.callbacks|
          && s.phase[s.worker.value] == Released
    case Cancel => s.activeToken.Some? ==> s.activeToken.value < |s.cancelled|
    case Shutdown => !s.shutdown
    case Close => s.shutdown && !s.closed
    case Join => s.closed && s.queue == [] && s.worker.None?
    case ReturnAtOnce => s.shutdown
  }

  function Next(s: Runner, e: Event): Runner
    requires Enabled(s, e)
  {
    match e
    case Submit =>
      if !CanAccept(s) then s
      else
        var id := |s.phase|;
        s.(activeHandle := Some(id), activeToken := Some(id), phase := s.phase + [Accepted],
           futureRecorded := s.futureRecorded + [false], cancelled := s.cancelled + [false],
           callbacks := s.callbacks + [0])
    case Enqueue(i) =>
      if s.closed then s.(phase := s.phase[i := Stranded])
      else s.(queue := s.queue + [i], phase := s.phase[i := Queued])
    case RecordFuture(i) => s.(activeFuture := Some(i), futureRecorded := s.futureRecorded[i := true])
    case Take => s.(queue := s.queue[1..], worker := Some(s.queue[0]), phase := s.phase[s.queue[0] := Running])
    case Release =>
      s.(activeHandle := None, activeToken := None, activeFuture := None, phase := s.phase[s.worker.value := Released])
    case Complete =>
      var i := s.worker.value;
      s.(worker := None, phase := s.phase[i := Completed], callbacks := s.callbacks[i := s.callbacks[i] + 1])
    case Cancel =>
      if s.activeToken.None? then s else s.(cancelled := s.cancelled[s.activeToken.value := true])
    case Shutdown => s.(shutdown := true)
    case Close => s.(closed := true)
    case Join => s
    case ReturnAtOnce => s
  }

  /** The state after a sequence of steps, if each was enabled in turn. */
  function Run(s: Runner, es: seq<Event>): Option<Runner> {
    if es == [] then Some(s)
    else
      match Run(s, es[..|es| - 1])
      case None => None
      case Some(t) => if Enabled(t, es[|es| - 1]) then Some(Next(t, es[|es| - 1])) else None
  }

  // ----- What every interleaving keeps ----------------------------------------------------------

  /** Between acceptance and release, or left behind by a shutdown. */
  predicate HoldsSlot(p: Phase) {
    p == Accepted || p == Queued || p == Running || p == Stranded
  }

  ghost predicate Inv(s: Runner) {
    && |s.futureRecorded| == |s.cancelled| == |s.callbacks| == |s.phase|
    && s.activeToken == s.activeHandle
    && (s.activeHandle.Some? ==> s.activeHandle.value < |s.phase|)
    && (forall i | 0 <= i < |s.phase| :: HoldsSlot(s.phase[i]) <==> s.activeHandle == Some(i))
    && (s.worker.Some? ==> s.worker.value < |s.phase|)
    && (forall i | 0 <= i < |s.phase| :: (s.phase[i] == Running || s.phase[i] == Released) <==> s.worker == Some(i))
    && |s.queue| <= 1
    && (s.queue != [] ==> s.queue[0] < |s.phase|)
    && (forall i | 0 <= i < |s.phase| :: s.phase[i] == Queued <==> (|s.queue| == 1 && s.queue[0] == i))
    && (forall i | 0 <= i < |s.phase| :: s.callbacks[i] == if s.phase[i] == Completed then 1 else 0)
    && (forall i | 0 <= i < |s.phase| && s.phase[i] == Stranded :: s.closed)
    && (s.closed ==> s.shutdown)
  }

  lemma SubmitKeepsInv(s: Runner)
    requires Inv(s) && Enabled(s, Submit)
    ensures Inv(Next(s, Submit))
  {
  }

  lemma EnqueueKeepsInv(s: Runner, i: nat)
    requires Inv(s) && Enabled(s, Enqueue(i))
    ensures Inv(Next(s, Enqueue(i)))
  {
    // Nothing is queued: the accepted task holds the slot alone.
    var j := if |s.queue| == 1 then s.queue[0] else i;
    assert HoldsSlot(s.phase[j]);
  }

  lemma TakeKeepsInv(s: Runner)
    requires Inv(s) && Enabled(s, Take)
    ensures Inv(Next(s, Take))
  {
  }

  lemma ReleaseKeepsInv(s: Runner)
    requires Inv(s) && Enabled(s, Release)
    ensures Inv(Next(s, Release))
  {
  }

  lemma CompleteKeepsInv(s: Runner)
    requires Inv(s) && Enabled(s, Complete)
    ensures Inv(Next(s, Complete))
  {
  }

  lemma NextKeepsInv(s: Runner, e: Event)
    requires Inv(s) && Enabled(s, e)
    ensures Inv(Next(s, e))
  {
    match e
    case Submit => SubmitKeepsInv(s);
    case Enqueue(i) => EnqueueKeepsInv(s, i);
    case Take => TakeKeepsInv(s);
    case Release => ReleaseKeepsInv(s);
    case Complete => CompleteKeepsInv(s);
    case _ =>
  }

  /** The invariant holds after every interleaving. Read off it: the active handle names
      exactly one task, which is accepted, queued, running or stranded; the executor queue
      holds at most one task; no two tasks run at once; no callback is called twice, and
      one is called exactly when its task is over. */
  lemma {:induction false} EveryInterleaving(es: seq<Event>)
    requires Run(START, es).Some?
    ensures Inv(Run(START, es).value)
  {
    if es != [] {
      EveryInterleaving(es[..|es| - 1]);
      NextKeepsInv(Run(START, es[..|es| - 1]).value, es[|es| - 1]);
    }
  }

  /** A second task starts only when the one before is over: at each start nothing else
      runs, nothing else holds the slot, and the started task is the active one. */
  lemma StartsAlone(s: Runner)
    requires Inv(s) && Enabled(s, Take)
    ensures s.activeHandle == Some(s.queue[0])
    ensures forall i | 0 <= i < |s.phase| :: s.phase[i] != Running && s.phase[i] != Released
    ensures forall i | 0 <= i < |s.phase| && i != s.queue[0] :: !HoldsSlot(s.phase[i])
  {
  }

  /** Release frees the slot of the released task itself, and of no other. */
  lemma ReleaseFreesOwnSlot(s: Runner)
    requires Inv(s) && Enabled(s, Release)
    ensures s.activeHandle == s.activeToken == s.worker
    ensures Next(s, Release).activeHandle == None
  {
  }

  /** A cancel call sets the flag of the one task that holds the slot, or none at all. */
  lemma CancelHitsActiveTask(s: Runner)
    requires Inv(s)
    ensures Enabled(s, Cancel)
    ensures forall i | 0 <= i < |s.phase| ::
              Next(s, Cancel).cancelled[i] == (s.cancelled[i] || HoldsSlot(s.phase[i]))
  {
  }

  /** Submissions are accepted exactly when no task holds the slot and there was no shutdown. */
  lemma AcceptedIffFree(s: Runner)
    requires Inv(s)
    ensures |Next(s, Submit).phase| > |s.phase| <==>
            (!s.shutdown && forall i | 0 <= i < |s.phase| :: !HoldsSlot(s.phase[i]))
  {
    if s.activeHandle.Some? {
      assert HoldsSlot(s.phase[s.activeHandle.value]);
    }
  }

  /** How far a submission has come; it never goes back. */
  function Stage(p: Phase): nat {
    match p
    case Accepted => 0 case Queued => 1 case Stranded => 1
    case Running => 2 case Released => 3 case Completed => 4
  }

  /** Every step leaves each submission where it is or takes it one stage on; the callback
      is called in the step after which the submission is over, with the slot long free. */
  lemma OneStageAtATime(s: Runner, e: Event, i: nat)
    requires Inv(s) && Enabled(s, e) && i < |s.phase|
    ensures var t := Next(s, e);
            && i < |t.phase|
            && (t.phase[i] == s.phase[i] || (Stage(t.phase[i]) == Stage(s.phase[i]) + 1 && s.phase[i] != Stranded))
            && (t.callbacks[i] != s.callbacks[i] ==> s.phase[i] == Released && t.phase[i] == Completed)
            && (s.phase[i] == Released ==> s.activeHandle != Some(i))
            && (s.phase[i] == Accepted && t.phase[i] == Stranded ==> s.closed)
  {
  }

  // ----- Progress -------------------------------------------------------------------------------

  lemma RunOneMore(s: Runner, es: seq<Event>, e: Event)
    ensures Run(s, es + [e]) ==
            match Run(s, es)
            case None => None
            case Some(t) => if Enabled(t, e) then Some(Next(t, e)) else None
  {
    assert (es + [e])[..|es|] == es;
  }

  predicate WorkerStep(e: Event) {
    e == Take || e == Release || e == Complete
  }

  /** How many steps of the worker a task still needs. */
  function StepsLeft(s: Runner, i: nat): nat
    requires i < |s.phase|
  {
    4 - Stage(s.phase[i]) + (if s.phase[i] == Queued && s.worker.Some? then 1 else 0)
  }

  predicate InExecutor(s: Runner, i: nat) {
    i < |s.phase| && Stage(s.phase[i]) >= 1 && s.phase[i] != Stranded
  }

  lemma WorkerCanStep(s: Runner, i: nat) returns (e: Event)
    requires Inv(s) && InExecutor(s, i) && s.phase[i] != Completed
    ensures WorkerStep(e) && Enabled(s, e) && Inv(Next(s, e))
    ensures InExecutor(Next(s, e), i) && StepsLeft(Next(s, e), i) == StepsLeft(s, i) - 1
  {
    e := match s.phase[i]
      case Queued => if s.worker.Some? then Complete else Take
      case Running => Release
      case _ => Complete;
    NextKeepsInv(s, e);
  }

  /** A task that reached the executor can always be brought to its end by the worker alone,
      in at most four steps - also after a shutdown. */
  lemma {:induction false} WorkerFinishes(s: Runner, i: nat) returns (es: seq<Event>)
    requires Inv(s) && InExecutor(s, i)
    ensures |es| == StepsLeft(s, i) <= 4 && forall e | e in es :: WorkerStep(e)
    ensures Run(s, es).Some?
    ensures var t := Run(s, es).value;
            Inv(t) && |t.phase| == |s.phase| && t.phase[i] == Completed && t.callbacks[i] == 1
    decreases StepsLeft(s, i)
  {
    if s.phase[i] == Completed {
      es := [];
    } else {
      var e := WorkerCanStep(s, i);
      var rest := WorkerFinishes(Next(s, e), i);
      es := [e] + rest;
      RunOneMore(s, [], e);
      assert [] + [e] == [e];
      assert |Next(s, e).phase| == |s.phase|;
      hide Next, Enabled, Inv, WorkerStep, StepsLeft;
      RunAppend(s, [e], rest);
    }
  }

  // ----- Shutdown -------------------------------------------------------------------------------

  /** A stranded task keeps the slot for ever, and no task is ever accepted again. */
  lemma {:induction false} StrandedForEver(s: Runner, es: seq<Event>, i: nat)
    requires Inv(s) && i < |s.phase| && s.phase[i] == Stranded && Run(s, es).Some?
    ensures var t := Run(s, es).value;
            && Inv(t) && |t.phase| == |s.phase| && t.phase[i] == Stranded && t.activeHandle == Some(i)
            && t.callbacks[i] == 0
  {
    if es != [] {
      StrandedForEver(s, es[..|es| - 1], i);
      NextKeepsInv(Run(s, es[..|es| - 1]).value, es[|es| - 1]);
    }
  }

  /** It happens to exactly those submissions whose hand-over finds the executor closed. */
  lemma StrandedExactlyIfClosed(s: Runner, i: nat)
    requires Inv(s) && Enabled(s, Enqueue(i))
    ensures Next(s, Enqueue(i)).phase[i] == Stranded <==> s.closed
    ensures Next(s, Enqueue(i)).phase[i] == Queued <==> !s.closed
  {
  }

  /** It can happen: a shutdown between the lock block and the hand-over. */
  lemma StrandingIsPossible()
    ensures var es := [Submit, Shutdown, Close, Enqueue(0)];
            Run(START, es).Some? && Run(START, es).value.phase == [Stranded]
  {
    RunThree(START, Submit, Shutdown, Close);
    RunOneMore(START, [Submit, Shutdown, Close], Enqueue(0));
    assert [Submit, Shutdown, Close] + [Enqueue(0)] == [Submit, Shutdown, Close, Enqueue(0)];
  }

  /** No task is in the executor's queue or in its worker. */
  predicate IsQuiet(s: Runner) {
    forall i | 0 <= i < |s.phase| :: s.phase[i] != Queued && s.phase[i] != Running && s.phase[i] != Released
  }

  /** Nothing is in the executor, and nothing can come: it is closed, or no submitter is
      between its lock block and the hand-over. */
  predicate IsSettled(s: Runner) {
    && s.queue == [] && s.worker.None?
    && (s.closed || forall i | 0 <= i < |s.phase| :: s.phase[i] != Accepted)
  }

  lemma {:induction false} SettledStays(s: Runner, es: seq<Event>)
    requires Inv(s) && s.shutdown && IsSettled(s) && Run(s, es).Some?
    ensures var t := Run(s, es).value; Inv(t) && t.shutdown && IsSettled(t) && IsQuiet(t) && (s.closed ==> t.closed)
  {
    if es != [] {
      SettledStays(s, es[..|es| - 1]);
      NextKeepsInv(Run(s, es[..|es| - 1]).value, es[|es| - 1]);
    }
  }

  /** In a state that is not settled, at most one step makes the executor busy. */
  lemma UnsettledGoesOn(s: Runner) returns (es: seq<Event>)
    requires Inv(s) && !IsSettled(s)
    ensures Run(s, es).Some? && !IsQuiet(Run(s, es).value)
  {
    if s.worker.Some? {
      es := [];
      assert s.phase[s.worker.value] == Running || s.phase[s.worker.value] == Released;
    } else if s.queue != [] {
      es := [];
      assert s.phase[s.queue[0]] == Queued;
    } else {
      var i :| 0 <= i < |s.phase| && s.phase[i] == Accepted;
      es := [Enqueue(i)];
      RunOneMore(s, [], Enqueue(i));
      assert Next(s, Enqueue(i)).phase[i] == Queued;
    }
  }

  /** After a shutdown no task is in the executor now or in any continuation exactly if the
      state is settled. So a later shutdown call, which returns in whatever state it finds,
      keeps the promise of shutdown exactly if it happens to find a settled state. */
  lemma ReturnIsQuietIffSettled(s: Runner)
    requires Inv(s) && Enabled(s, ReturnAtOnce)
    ensures (forall es | Run(s, es).Some? :: IsQuiet(Run(s, es).value)) <==> IsSettled(s)
  {
    if IsSettled(s) {
      forall es | Run(s, es).Some? ensures IsQuiet(Run(s, es).value) {
        SettledStays(s, es);
      }
    } else {
      var es := UnsettledGoesOn(s);
    }
  }

  /** The first call keeps the promise always: where its wait ends, the state is settled. */
  lemma QuietAfterJoin(s: Runner, es: seq<Event>)
    requires Inv(s) && Enabled(s, Join) && Run(s, es).Some?
    ensures var t := Run(s, es).value; Inv(t) && Enabled(t, Join) && IsQuiet(t)
  {
    SettledStays(s, es);
  }

  /** A later call can find a task running, and it can find none in the executor while a
      submitter is on its way there. */
  lemma LaterShutdownDoesNotWait()
    ensures var es := [Submit, Enqueue(0), Take, Shutdown];
            Run(START, es).Some? && Enabled(Run(START, es).value, ReturnAtOnce)
                && Run(START, es).value.phase == [Running]
    ensures var es := [Submit, Shutdown];
            && Run(START, es).Some? && Enabled(Run(START, es).value, ReturnAtOnce)
            && IsQuiet(Run(START, es).value) && !IsSettled(Run(START, es).value)
  {
    FirstTaskRuns();
    RunThree(START, Submit, Enqueue(0), Take);
    RunOneMore(START, [Submit, Enqueue(0), Take], Shutdown);
    assert [Submit, Enqueue(0), Take] + [Shutdown] == [Submit, Enqueue(0), Take, Shutdown];
    RunOneMore(START, [], Submit);
    RunOneMore(START, [Submit], Shutdown);
    assert [] + [Submit] == [Submit] && [Submit] + [Shutdown] == [Submit, Shutdown];
    assert Next(Next(START, Submit), Shutdown).phase == [Accepted];
  }

  // ----- The future field -------------------------------------------------------------------------

  /** The future field only ever names a task that reached the executor. */
  ghost predicate FutureInv(s: Runner) {
    s.activeFuture.Some? ==>
      && s.activeFuture.value < |s.phase|
      && Stage(s.phase[s.activeFuture.value]) >= 1 && s.phase[s.activeFuture.value] != Stranded
  }

  lemma {:induction false} FutureWasQueued(es: seq<Event>)
    requires Run(START, es).Some?
    ensures FutureInv(Run(START, es).value)
  {
    if es != [] {
      EveryInterleaving(es[..|es| - 1]);
      FutureWasQueued(es[..|es| - 1]);
      FutureInvKept(Run(START, es[..|es| - 1]).value, es[|es| - 1]);
    }
  }

  lemma FutureInvKept(s: Runner, e: Event)
    requires Inv(s) && FutureInv(s) && Enabled(s, e)
    ensures FutureInv(Next(s, e))
  {
    if s.activeFuture.Some? {
      OneStageAtATime(s, e, s.activeFuture.value);
    }
  }

  /** The submitter stores the future in a second lock block. What it stores belongs to the
      active task exactly if the worker has not released that task meanwhile. */
  lemma RecordedInTime(s: Runner, i: nat)
    requires Inv(s) && Enabled(s, RecordFuture(i))
    ensures Next(s, RecordFuture(i)).activeFuture == s.activeHandle <==> !IsOver(s, i)
  {
  }

  predicate IsOver(s: Runner, i: nat) {
    i < |s.phase| && (s.phase[i] == Released || s.phase[i] == Completed)
  }

  /** Since the last release some future has been stored, and the last one stored came after
      its own task's release. */
  predicate LastRecordedLate(es: seq<Event>) {
    if es == [] then false
    else
      var before := es[..|es| - 1];
      Run(START, before).Some? && LateAfter(Run(START, before).value, es[|es| - 1], LastRecordedLate(before))
  }

  predicate LateAfter(s: Runner, e: Event, late: bool) {
    match e
    case Release => false
    case RecordFuture(i) => IsOver(s, i)
    case _ => late
  }

  ghost predicate FutureCurrent(s: Runner) {
    s.activeFuture.None? || s.activeFuture == s.activeHandle
  }

  lemma FutureStep(s: Runner, e: Event, late: bool)
    requires Inv(s) && FutureInv(s) && Enabled(s, e) && (FutureCurrent(s) <==> !late)
    ensures FutureCurrent(Next(s, e)) <==> !LateAfter(s, e, late)
  {
    if e.RecordFuture? {
      RecordedInTime(s, e.id);
    }
  }

  /** In every reachable state: the stored future, if any, belongs to the active task exactly
      if the last future stored since the last release was stored in time. */
  lemma {:induction false} FutureIsActiveIffInTime(es: seq<Event>)
    requires Run(START, es).Some?
    ensures FutureCurrent(Run(START, es).value) <==> !LastRecordedLate(es)
  {
    if es != [] {
      var before := es[..|es| - 1];
      EveryInterleaving(before);
      FutureWasQueued(before);
      FutureIsActiveIffInTime(before);
      hide Inv, FutureInv, Enabled, Next, FutureCurrent, LateAfter;
      FutureStep(Run(START, before).value, es[|es| - 1], LastRecordedLate(before));
    }
  }

  /** A late one can be followed by one in time: then the future is the active one again,
      although a late one has been stored since the last release. */
  lemma FutureMayBeStale()
    ensures var es := [Submit, Enqueue(0), Take, Release, Submit, RecordFuture(0)];
            Run(START, es).Some? && LastRecordedLate(es)
            && Run(START, es).value.activeFuture == Some(0) && Run(START, es).value.activeHandle == Some(1)
    ensures var es := [Submit, Enqueue(0), Take, Release, Submit, RecordFuture(0), Enqueue(1), RecordFuture(1)];
            Run(START, es).Some? && !LastRecordedLate(es)
            && Run(START, es).value.activeFuture == Run(START, es).value.activeHandle == Some(1)
  {
    var late := Runner(Some(1), Some(1), Some(0), false, false, [], Some(0), [Released, Accepted], [true, false],
                       [false, false], [0, 0]);
    LateRecord(late);
    var es := [Submit, Enqueue(0), Take, Release, Submit, RecordFuture(0)];
    var repaired := late.(queue := [1], phase := [Released, Queued], activeFuture := Some(1),
                          futureRecorded := [true, true]);
    assert Next(Next(late, Enqueue(1)), RecordFuture(1)) == repaired;
    RunOneMore(START, es, Enqueue(1));
    RunOneMore(START, es + [Enqueue(1)], RecordFuture(1));
    var es2 := [Submit, Enqueue(0), Take, Release, Submit, RecordFuture(0), Enqueue(1), RecordFuture(1)];
    assert es + [Enqueue(1)] + [RecordFuture(1)] == es2;
    FutureIsActiveIffInTime(es);
    FutureIsActiveIffInTime(es2);
    hide Run, Next, Enabled, LastRecordedLate, LateAfter;
  }

  lemma LateRecord(late: Runner)
    requires late == Runner(Some(1), Some(1), Some(0), false, false, [], Some(0), [Released, Accepted], [true, false],
                            [false, false], [0, 0])
    ensures Run(START, [Submit, Enqueue(0), Take, Release, Submit, RecordFuture(0)]) == Some(late)
  {
    var running := Runner(Some(0), Some(0), None, false, false, [], Some(0), [Running], [false], [false], [0]);
    var released := running.(activeHandle := None, activeToken := None, phase := [Released]);
    var resubmitted := released.(activeHandle := Some(1), activeToken := Some(1), phase := [Released, Accepted],
                                 futureRecorded := [false, false], cancelled := [false, false], callbacks := [0, 0]);
    assert Next(running, Release) == released;
    assert Next(released, Submit) == resubmitted;
    assert Next(resubmitted, RecordFuture(0)) == late;
    FirstTaskRuns();
    RunThree(START, Submit, Enqueue(0), Take);
    RunThree(running, Release, Submit, RecordFuture(0));
    hide Run, Next, Enabled;
    RunAppend(START, [Submit, Enqueue(0), Take], [Release, Submit, RecordFuture(0)]);
    assert [Submit, Enqueue(0), Take] + [Release, Submit, RecordFuture(0)] ==
           [Submit, Enqueue(0), Take, Release, Submit, RecordFuture(0)];
  }

  lemma FirstTaskRuns()
    ensures Next(Next(Next(START, Submit), Enqueue(0)), Take) ==
            Runner(Some(0), Some(0), None, false, false, [], Some(0), [Running], [false], [false], [0])
  {
    var s1 := Runner(Some(0), Some(0), None, false, false, [], None, [Accepted], [false], [false], [0]);
    assert Next(START, Submit) == s1;
    var s2 := s1.(queue := [0], phase := [Queued]);
    assert Next(s1, Enqueue(0)) == s2;
  }

  lemma RunThree(s: Runner, a: Event, b: Event, c: Event)
    requires Enabled(s, a) && Enabled(Next(s, a), b) && Enabled(Next(Next(s, a), b), c)
    ensures Run(s, [a, b, c]) == Some(Next(Next(Next(s, a), b), c))
  {
    RunOneMore(s, [], a);
    RunOneMore(s, [a], b);
    RunOneMore(s, [a, b], c);
    assert [] + [a] == [a] && [a] + [b] == [a, b] && [a, b] + [c] == [a, b, c];
    hide Enabled, Next;
  }

  lemma {:induction false} RunAppend(s: Runner, es: seq<Event>, fs: seq<Event>)
    requires Run(s, es).Some?
    ensures Run(s, es + fs) == Run(Run(s, es).value, fs)
  {
    if fs == [] {
      assert es + fs == es;
    } else {
      var init, last := fs[..|fs| - 1], fs[|fs| - 1];
      RunAppend(s, es, init);
      RunOneMore(s, es + init, last);
      assert es + fs == es + init + [last];
    }
  }

  // ----- The runner itself ------------------------------------------------------------------------

  class CancellationToken {
    var isSet: bool

    constructor ()
      ensures !isSet
    {
      isSet := false;
    }

    method Request()
      modifies this
      ensures isSet
    {
      isSet := true;
    }
  }

  datatype SubmitError = RunnerShutdown | RunnerBusy(current: nat)

  /** The lock-guarded fields, the executor's own state, and as ghost state the tokens
      handed out and where each submission is. Each method is one atomic step. */
  class BackgroundTaskRunner {
    var activeHandle: Option<nat>
    var activeToken: CancellationToken?
    var activeFuture: Option<nat>
    var shutdown: bool
    var closed: bool
    var queue: seq<nat>
    var worker: Option<nat>
    var accepted: nat
    ghost var tokens: seq<CancellationToken>
    ghost var phase: seq<Phase>
    ghost var futureRecorded: seq<bool>
    ghost var callbacks: seq<nat>

    constructor ()
      ensures Valid() && Abs() == START && tokens == []
    {
      activeHandle, activeToken, activeFuture := None, null, None;
      shutdown, closed, queue, worker, accepted := false, false, [], None, 0;
      tokens, phase, futureRecorded, callbacks := [], [], [], [];
    }

    ghost function Abs(): Runner
      reads this, tokens
    {
      Runner(activeHandle, if activeToken == null then None else activeHandle, activeFuture,
             shutdown, closed, queue, worker, phase, futureRecorded,
             seq(|tokens|, i requires 0 <= i < |tokens| reads this, tokens => tokens[i].isSet), callbacks)
    }

    /** The protocol's invariant, and: each submission has its own token, and the active
        token is the one of the active submission. */
    ghost predicate Valid()
      reads this, tokens
    {
      && Inv(Abs())
      && |tokens| == |phase| == accepted
      && (forall i, j | 0 <= i < j < |tokens| :: tokens[i] != tokens[j])
      && (activeToken == null <==> activeHandle.None?)
      && (activeHandle.Some? ==> activeHandle.value < |tokens| && activeToken == tokens[activeHandle.value])
    }

    /** The lock block of submit(). */
    method SubmitLocked() returns (r: Result<nat, SubmitError>)
      requires Valid()
      modifies this
      ensures Valid() && Abs() == Next(old(Abs()), Submit)
      ensures r == if old(shutdown) then Err(RunnerShutdown)
                   else if old(activeHandle).Some? then Err(RunnerBusy(old(activeHandle).value))
                   else Ok(|old(phase)|)
      ensures old(tokens) <= tokens && fresh(set t | t in tokens[|old(tokens)|..])
    {
      if shutdown {
        return Err(RunnerShutdown);
      }
      if activeHandle.Some? {
        return Err(RunnerBusy(activeHandle.value));
      }
      var token := new CancellationToken();
      r := Ok(accepted);
      Accept(token);
    }

    /** The fields that the lock block sets once the submission is accepted. */
    method Accept(token: CancellationToken)
      requires Valid() && CanAccept(Abs()) && !token.isSet && token !in tokens
      modifies this
      ensures Valid() && Abs() == Next(old(Abs()), Submit) && tokens == old(tokens) + [token]
    {
      hide Inv;
      SubmitKeepsInv(Abs());
      ghost var flags := Abs().cancelled;
      activeHandle, activeToken := Some(accepted), token;
      accepted := accepted + 1;
      tokens, phase := tokens + [token], phase + [Accepted];
      futureRecorded, callbacks := futureRecorded + [false], callbacks + [0];
      assert Abs().cancelled == flags + [false];
    }

    /** executor.submit(): false when the executor refuses, and submit() then raises. */
    method HandOver(id: nat) returns (ok: bool)
      requires Valid() && Enabled(Abs(), Enqueue(id))
      modifies this
      ensures Valid() && Abs() == Next(old(Abs()), Enqueue(id)) && tokens == old(tokens)
      ensures ok <==> !old(closed)
    {
      EnqueueKeepsInv(Abs(), id);
      if closed {
        phase := phase[id := Stranded];
        return false;
      }
      queue := queue + [id];
      phase := phase[id := Queued];
      return true;
    }

    /** The second lock block of submit(). */
    method RecordFutureLocked(id: nat)
      requires Valid() && Enabled(Abs(), RecordFuture(id))
      modifies this
      ensures Valid() && Abs() == Next(old(Abs()), RecordFuture(id)) && tokens == old(tokens)
    {
      activeFuture := Some(id);
      futureRecorded := futureRecorded[id := true];
    }

    /** The worker takes the next task and starts its run_fn. */
    method WorkerTake() returns (id: nat)
      requires Valid() && Enabled(Abs(), Take)
      modifies this
      ensures Valid() && Abs() == Next(old(Abs()), Take) && tokens == old(tokens)
      ensures old(activeHandle) == Some(id) == worker
    {
      TakeKeepsInv(Abs());
      StartsAlone(Abs());
      id := queue[0];
      queue, worker := queue[1..], Some(id);
      phase := phase[id := Running];
    }

    /** The lock block after run_fn has returned or raised. */
    method ReleaseLocked()
      requires Valid() && Enabled(Abs(), Release)
      modifies this
      ensures Valid() && Abs() == Next(old(Abs()), Release) && tokens == old(tokens)
    {
      ReleaseKeepsInv(Abs());
      activeHandle, activeToken, activeFuture := None, null, None;
      phase := phase[worker.value := Released];
    }

    /** on_complete has been called, and what it raises is dropped; the worker is free. */
    method CallOnComplete()
      requires Valid() && Enabled(Abs(), Complete)
      modifies this
      ensures Valid() && Abs() == Next(old(Abs()), Complete) && tokens == old(tokens)
    {
      CompleteKeepsInv(Abs());
      phase, callbacks := phase[worker.value := Completed], callbacks[worker.value := callbacks[worker.value] + 1];
      worker := None;
    }

    method CancelActive() returns (any: bool)
      requires Valid()
      modifies if activeToken == null then {} else {activeToken}
      ensures Valid() && Abs() == Next(old(Abs()), Cancel)
      ensures any <==> activeHandle.Some?
    {
      if activeToken == null {
        return false;
      }
      activeToken.Request();
      assert Abs() == Next(old(Abs()), Cancel);
      return true;
    }

    /** The lock block of shutdown(): only the first caller goes on to close the executor. */
    method ShutdownLocked() returns (first: bool)
      requires Valid()
      modifies this
      ensures first <==> !old(shutdown)
      ensures Valid() && Abs() == Next(old(Abs()), if first then Shutdown else ReturnAtOnce) && tokens == old(tokens)
    {
      first := !shutdown;
      shutdown := true;
    }

    method CloseExecutor()
      requires Valid() && Enabled(Abs(), Close)
      modifies this
      ensures Valid() && Abs() == Next(old(Abs()), Close) && tokens == old(tokens)
    {
      closed := true;
    }
  }
}
