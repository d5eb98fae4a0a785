/** The pipeline memory store (core/memory.py): write-once artifacts, an append-only
    trail of transitions and agent calls, growing loop counters, dump and restore. */
module Memory {
  import opened Wrappers
  import opened Strings
  import opened Names
  import opened Fsm

  datatype Kind =
    | ProjectBrief | TeamProposal | OwnerEscalation
    | PlanningDoc | PmDoc | ArchitectDoc | WriterCode | ReviewDoc | TestDoc | QaDoc | FixCode

  datatype Loop = ReviewFix | TestFix | QaFix

  function KindName(k: Kind): string {
    match k
    case ProjectBrief => "project_brief"
    case TeamProposal => "team_proposal"
    case OwnerEscalation => "owner_escalation"
    case PlanningDoc => "planning"
    case PmDoc => "pm"
    case ArchitectDoc => "architect"
    case WriterCode => "writer"
    case ReviewDoc => "review"
    case TestDoc => "test"
    case QaDoc => "qa"
    case FixCode => "fix"
  }

  function LoopName(l: Loop): string {
    match l
    case ReviewFix => "review_fix"
    case TestFix => "test_fix"
    case QaFix => "qa_fix"
  }

  const VALID_ARTIFACT_KINDS: seq<Kind> :=
    [ProjectBrief, TeamProposal, OwnerEscalation, PlanningDoc, PmDoc, ArchitectDoc,
     WriterCode, ReviewDoc, TestDoc, QaDoc, FixCode]

  const VALID_LOOPS: seq<Loop> := [ReviewFix, TestFix, QaFix]

  function ParseKind(name: string): Option<Kind> {
    Lookup(name, VALID_ARTIFACT_KINDS, KindName)
  }

  function ParseLoop(name: string): Option<Loop> {
    Lookup(name, VALID_LOOPS, LoopName)
  }

  lemma KindNamesDiffer(j: Kind, k: Kind)
    requires KindName(j) == KindName(k)
    ensures j == k
  {
    assert KindName(j)[0] == KindName(k)[0] && KindName(j)[1] == KindName(k)[1];
  }

  lemma LoopNamesDiffer(j: Loop, k: Loop)
    requires LoopName(j) == LoopName(k)
    ensures j == k
  {
    assert LoopName(j)[0] == LoopName(k)[0];
  }

  /** A text names an artifact kind exactly when it is that kind's own name. */
  lemma ParseKindInverts(name: string, k: Kind)
    ensures ParseKind(name) == Some(k) <==> name == KindName(k)
  {
    LookupFinds(name, VALID_ARTIFACT_KINDS, KindName);
    var i := match k
      case ProjectBrief => 0 case TeamProposal => 1 case OwnerEscalation => 2 case PlanningDoc => 3
      case PmDoc => 4 case ArchitectDoc => 5 case WriterCode => 6 case ReviewDoc => 7
      case TestDoc => 8 case QaDoc => 9 case FixCode => 10;
    assert VALID_ARTIFACT_KINDS[i] == k;
    if name == KindName(k) {
      KindNamesDiffer(ParseKind(name).value, k);
    }
  }

  /** A text names a loop exactly when it is that loop's own name. */
  lemma ParseLoopInverts(name: string, l: Loop)
    ensures ParseLoop(name) == Some(l) <==> name == LoopName(l)
  {
    LookupFinds(name, VALID_LOOPS, LoopName);
    var i := match l case ReviewFix => 0 case TestFix => 1 case QaFix => 2;
    assert VALID_LOOPS[i] == l;
    if name == LoopName(l) {
      LoopNamesDiffer(ParseLoop(name).value, l);
    }
  }

  // ----- Stored data ---------------------------------------------------------------

  datatype TransitionRecord = TransitionRecord(fromState: State, toState: State)

  datatype TaskState = TaskState(
    rawTask: string,
    artifacts: map<Kind, string>,
    transitions: seq<TransitionRecord>,
    agentCalls: seq<string>,
    loopCounters: map<Loop, int>
  )

  type Tasks = map<string, TaskState>

  datatype Snapshot = Snapshot(taskId: string, task: TaskState)

  /** The JSON-ready form of one task: every enumeration is stored under its name. */
  datatype Dump = Dump(
    schemaVersion: int,
    taskId: string,
    rawTask: string,
    artifacts: map<string, string>,
    transitions: seq<(string, string)>,
    agentCalls: seq<string>,
    loopCounters: map<string, int>
  )

  /** UnknownTask is the source's KeyError; every other error is a ValueError. */
  datatype Error =
    | EmptyTaskId
    | EmptyRawTask
    | TaskAlreadyExists(taskId: string)
    | UnknownTask(taskId: string)
    | UnknownArtifactKind(name: string)
    | EmptyPayload
    | ArtifactAlreadySet(kind: Kind)
    | InvalidTransition(fromState: State, toState: State)
    | EmptyAgentName
    | UnknownLoop(name: string)
    | UnsupportedSchemaVersion(version: int)
    | InvalidSeeds
    | InvalidLoopCounters
    | UnknownState

  function LoopCount(t: TaskState, l: Loop): int {
    if l in t.loopCounters then t.loopCounters[l] else 0
  }

  // ----- Commands: the specification of the mutating methods -------------------------

  datatype Command =
    | NewTask(taskId: string, rawTask: string)
    | SetArtifact(taskId: string, kind: string, payload: string)
    | RecordTransition(taskId: string, fromState: State, toState: State)
    | RecordAgentCall(taskId: string, agent: string)
    | IncrementLoop(taskId: string, loop: string)
    | RestoreTask(dump: Dump)

  function Require(tasks: Tasks, taskId: string): Option<Error> {
    if taskId in tasks then None else Some(UnknownTask(taskId))
  }

  /** Seeds pass when every kind is known and every payload has text. */
  predicate SeedsOk(artifacts: map<string, string>) {
    forall name | name in artifacts :: ParseKind(name).Some? && !IsBlank(artifacts[name])
  }

  function SeedsOf(artifacts: map<string, string>): map<Kind, string> {
    map k: Kind | KindName(k) in artifacts :: artifacts[KindName(k)]
  }

  predicate CountersOk(counters: map<string, int>) {
    forall name | name in counters :: ParseLoop(name).Some? && counters[name] >= 0
  }

  function CountersOf(counters: map<string, int>): map<Loop, int> {
    map l: Loop | LoopName(l) in counters :: counters[LoopName(l)]
  }

  /** What the first unacceptable transition entry is rejected with. */
  function TransitionsError(entries: seq<(string, string)>): Option<Error> {
    if entries == [] then None
    else
      var f, t := ParseState(entries[0].0), ParseState(entries[0].1);
      if f.None? || t.None? then Some(UnknownState)
      else if !CanTransition(f.value, t.value) then Some(InvalidTransition(f.value, t.value))
      else TransitionsError(entries[1..])
  }

  function TransitionsOf(entries: seq<(string, string)>): seq<TransitionRecord>
    requires TransitionsError(entries).None?
  {
    if entries == [] then []
    else [TransitionRecord(ParseState(entries[0].0).value, ParseState(entries[0].1).value)]
         + TransitionsOf(entries[1..])
  }

  function RestoreFailure(tasks: Tasks, d: Dump): Option<Error> {
    if d.schemaVersion != 1 then Some(UnsupportedSchemaVersion(d.schemaVersion))
    else if IsBlank(d.taskId) then Some(EmptyTaskId)
    else if d.taskId in tasks then Some(TaskAlreadyExists(d.taskId))
    else if IsBlank(d.rawTask) then Some(EmptyRawTask)
    else if !SeedsOk(d.artifacts) then Some(InvalidSeeds)
    else if !CountersOk(d.loopCounters) then Some(InvalidLoopCounters)
    else if TransitionsError(d.transitions).Some? then TransitionsError(d.transitions)
    else if exists a | a in d.agentCalls :: IsBlank(a) then Some(EmptyAgentName)
    else None
  }

  /** The error a command is rejected with, if it is rejected. */
  function Failure(tasks: Tasks, c: Command): Option<Error> {
    match c
    case NewTask(id, raw) =>
      if IsBlank(id) then Some(EmptyTaskId)
      else if IsBlank(raw) then Some(EmptyRawTask)
      else if id in tasks then Some(TaskAlreadyExists(id))
      else None
    case SetArtifact(id, name, payload) =>
      if ParseKind(name).None? then Some(UnknownArtifactKind(name))
      else if IsBlank(payload) then Some(EmptyPayload)
      else if id !in tasks then Some(UnknownTask(id))
      else if ParseKind(name).value in tasks[id].artifacts then Some(ArtifactAlreadySet(ParseKind(name).value))
      else None
    case RecordTransition(id, f, t) =>
      if !CanTransition(f, t) then Some(InvalidTransition(f, t)) else Require(tasks, id)
    case RecordAgentCall(id, agent) =>
      if IsBlank(agent) then Some(EmptyAgentName) else Require(tasks, id)
    case IncrementLoop(id, name) =>
      if ParseLoop(name).None? then Some(UnknownLoop(name)) else Require(tasks, id)
    case RestoreTask(d) => RestoreFailure(tasks, d)
  }

  function Target(c: Command): string {
    if c.RestoreTask? then c.dump.taskId else c.taskId
  }

  /** The command's target task after an accepted command. */
  function NewState(tasks: Tasks, c: Command): TaskState
    requires Failure(tasks, c).None?
  {
    match c
    case NewTask(id, raw) => TaskState(raw, map[], [], [], map[])
    case SetArtifact(id, name, payload) =>
      var t := tasks[id];
      t.(artifacts := t.artifacts[ParseKind(name).value := payload])
    case RecordTransition(id, f, to) =>
      var t := tasks[id];
      t.(transitions := t.transitions + [TransitionRecord(f, to)])
    case RecordAgentCall(id, agent) =>
      var t := tasks[id];
      t.(agentCalls := t.agentCalls + [agent])
    case IncrementLoop(id, name) =>
      var t := tasks[id];
      var l := ParseLoop(name).value;
      t.(loopCounters := t.loopCounters[l := LoopCount(t, l) + 1])
    case RestoreTask(d) =>
      TaskState(d.rawTask, SeedsOf(d.artifacts), TransitionsOf(d.transitions), d.agentCalls,
                CountersOf(d.loopCounters))
  }

  /** A rejected command changes nothing; an accepted one changes its target task only. */
  function Exec(tasks: Tasks, c: Command): Tasks {
    if Failure(tasks, c).Some? then tasks else tasks[Target(c) := NewState(tasks, c)]
  }

  function ExecAll(tasks: Tasks, cs: seq<Command>): Tasks
    decreases |cs|
  {
    if cs == [] then tasks else ExecAll(Exec(tasks, cs[0]), cs[1..])
  }

  /** An artifact mapping, stored under the names of its kinds. */
  function NameKinds(artifacts: map<Kind, string>): map<string, string> {
    assert forall j, k | KindName(j) == KindName(k) :: j == k by {
      forall j, k | KindName(j) == KindName(k) ensures j == k { KindNamesDiffer(j, k); }
    }
    map k | k in artifacts :: KindName(k) := artifacts[k]
  }

  function NameLoops(counters: map<Loop, int>): map<string, int> {
    assert forall j, k | LoopName(j) == LoopName(k) :: j == k by {
      forall j, k | LoopName(j) == LoopName(k) ensures j == k { LoopNamesDiffer(j, k); }
    }
    map l | l in counters :: LoopName(l) := counters[l]
  }

  function NameTransitions(ts: seq<TransitionRecord>): seq<(string, string)> {
    seq(|ts|, i requires 0 <= i < |ts| => (StateName(ts[i].fromState), StateName(ts[i].toState)))
  }

  function DumpOf(taskId: string, t: TaskState): Dump {
    Dump(1, taskId, t.rawTask, NameKinds(t.artifacts), NameTransitions(t.transitions),
         t.agentCalls, NameLoops(t.loopCounters))
  }

  // ----- The store -------------------------------------------------------------------

  class PipelineMemory {
    var tasks: Tasks

    constructor ()
      ensures tasks == map[]
    {
      tasks := map[];
    }

    method NewTask(taskId: string, rawTask: string) returns (error: Option<Error>)
      modifies this
      ensures error == Failure(old(tasks), Command.NewTask(taskId, rawTask))
      ensures tasks == Exec(old(tasks), Command.NewTask(taskId, rawTask))
    {
      if IsBlank(taskId) {
        return Some(EmptyTaskId);
      }
      if IsBlank(rawTask) {
        return Some(EmptyRawTask);
      }
      if taskId in tasks {
        return Some(TaskAlreadyExists(taskId));
      }
      tasks := tasks[taskId := TaskState(rawTask, map[], [], [], map[])];
      return None;
    }

    method SetArtifact(taskId: string, kind: string, payload: string) returns (error: Option<Error>)
      modifies this
      ensures error == Failure(old(tasks), Command.SetArtifact(taskId, kind, payload))
      ensures tasks == Exec(old(tasks), Command.SetArtifact(taskId, kind, payload))
    {
      var k := ParseKind(kind);
      if k.None? {
        return Some(UnknownArtifactKind(kind));
      }
      if IsBlank(payload) {
        return Some(EmptyPayload);
      }
      if taskId !in tasks {
        return Some(UnknownTask(taskId));
      }
      var task := tasks[taskId];
      if k.value in task.artifacts {
        return Some(ArtifactAlreadySet(k.value));
      }
      tasks := tasks[taskId := task.(artifacts := task.artifacts[k.value := payload])];
      return None;
    }

    method RecordTransition(taskId: string, fromState: State, toState: State) returns (error: Option<Error>)
      modifies this
      ensures error == Failure(old(tasks), Command.RecordTransition(taskId, fromState, toState))
      ensures tasks == Exec(old(tasks), Command.RecordTransition(taskId, fromState, toState))
    {
      if !CanTransition(fromState, toState) {
        return Some(InvalidTransition(fromState, toState));
      }
      if taskId !in tasks {
        return Some(UnknownTask(taskId));
      }
      var task := tasks[taskId];
      tasks := tasks[taskId := task.(transitions := task.transitions + [TransitionRecord(fromState, toState)])];
      return None;
    }

    method RecordAgentCall(taskId: string, agent: string) returns (error: Option<Error>)
      modifies this
      ensures error == Failure(old(tasks), Command.RecordAgentCall(taskId, agent))
      ensures tasks == Exec(old(tasks), Command.RecordAgentCall(taskId, agent))
    {
      if IsBlank(agent) {
        return Some(EmptyAgentName);
      }
      if taskId !in tasks {
        return Some(UnknownTask(taskId));
      }
      var task := tasks[taskId];
      tasks := tasks[taskId := task.(agentCalls := task.agentCalls + [agent])];
      return None;
    }

    /** On success the new counter value, one more than before. */
    method IncrementLoop(taskId: string, loop: string) returns (r: Result<int, Error>)
      modifies this
      ensures var c := Command.IncrementLoop(taskId, loop);
              match Failure(old(tasks), c)
              case Some(e) => r == Err(e)
              case None => r == Ok(LoopCount(old(tasks)[taskId], ParseLoop(loop).value) + 1)
      ensures tasks == Exec(old(tasks), Command.IncrementLoop(taskId, loop))
    {
      var l := ParseLoop(loop);
      if l.None? {
        return Err(UnknownLoop(loop));
      }
      if taskId !in tasks {
        return Err(UnknownTask(taskId));
      }
      var task := tasks[taskId];
      var newValue := LoopCount(task, l.value) + 1;
      tasks := tasks[taskId := task.(loopCounters := task.loopCounters[l.value := newValue])];
      return Ok(newValue);
    }

    method RestoreTask(dump: Dump) returns (error: Option<Error>)
      modifies this
      ensures error == Failure(old(tasks), Command.RestoreTask(dump))
      ensures tasks == Exec(old(tasks), Command.RestoreTask(dump))
    {
      hide SeedsOf, CountersOf, TransitionsOf, TransitionsError, SeedsOk, CountersOk, IsBlank;
      if dump.schemaVersion != 1 {
        return Some(UnsupportedSchemaVersion(dump.schemaVersion));
      }
      if IsBlank(dump.taskId) {
        return Some(EmptyTaskId);
      }
      if dump.taskId in tasks {
        return Some(TaskAlreadyExists(dump.taskId));
      }
      if IsBlank(dump.rawTask) {
        return Some(EmptyRawTask);
      }
      var artifacts := NormalizeSeeds(dump.artifacts);
      if artifacts.Err? {
        return Some(artifacts.error);
      }
      var counters := NormalizeCounters(dump.loopCounters);
      if counters.Err? {
        return Some(counters.error);
      }
      var transitions := NormalizeTransitions(dump.transitions);
      if transitions.Err? {
        return Some(transitions.error);
      }
      var i := 0;
      while i < |dump.agentCalls|
        invariant 0 <= i <= |dump.agentCalls|
        invariant forall j | 0 <= j < i :: !IsBlank(dump.agentCalls[j])
      {
        if IsBlank(dump.agentCalls[i]) {
          return Some(EmptyAgentName);
        }
        i := i + 1;
      }
      tasks := tasks[dump.taskId := TaskState(dump.rawTask, artifacts.value, transitions.value,
                                              dump.agentCalls, counters.value)];
      return None;
    }

    method GetSnapshot(taskId: string) returns (r: Result<Snapshot, Error>)
      ensures r == if taskId in tasks then Ok(Snapshot(taskId, tasks[taskId])) else Err(UnknownTask(taskId))
    {
      if taskId !in tasks {
        return Err(UnknownTask(taskId));
      }
      return Ok(Snapshot(taskId, tasks[taskId]));
    }

    method DumpTask(taskId: string) returns (r: Result<Dump, Error>)
      ensures r == if taskId in tasks then Ok(DumpOf(taskId, tasks[taskId])) else Err(UnknownTask(taskId))
    {
      var snapshot := GetSnapshot(taskId);
      if snapshot.Err? {
        return Err(snapshot.error);
      }
      return Ok(DumpOf(taskId, snapshot.value.task));
    }
  }

  /** normalize_artifact_seed_mapping: all seeds are checked before any is used. */
  method NormalizeSeeds(artifacts: map<string, string>) returns (r: Result<map<Kind, string>, Error>)
    ensures r == if SeedsOk(artifacts) then Ok(SeedsOf(artifacts)) else Err(InvalidSeeds)
  {
    var normalized: map<Kind, string> := map[];
    var todo := artifacts.Keys;
    while todo != {}
      invariant todo <= artifacts.Keys
      invariant forall name | name in artifacts.Keys - todo :: ParseKind(name).Some? && !IsBlank(artifacts[name])
      invariant forall k: Kind :: k in normalized <==> KindName(k) in artifacts.Keys - todo
      invariant forall k | k in normalized :: normalized[k] == artifacts[KindName(k)]
      decreases todo
    {
      var name :| name in todo;
      var k := ParseKind(name);
      if k.None? || IsBlank(artifacts[name]) {
        return Err(InvalidSeeds);
      }
      forall j: Kind ensures KindName(j) == name <==> j == k.value { ParseKindInverts(name, j); }
      normalized := normalized[k.value := artifacts[name]];
      todo := todo - {name};
    }
    assert normalized == SeedsOf(artifacts);
    return Ok(normalized);
  }

  method NormalizeCounters(counters: map<string, int>) returns (r: Result<map<Loop, int>, Error>)
    ensures r == if CountersOk(counters) then Ok(CountersOf(counters)) else Err(InvalidLoopCounters)
  {
    var normalized: map<Loop, int> := map[];
    var todo := counters.Keys;
    while todo != {}
      invariant todo <= counters.Keys
      invariant forall name | name in counters.Keys - todo :: ParseLoop(name).Some? && counters[name] >= 0
      invariant forall l: Loop :: l in normalized <==> LoopName(l) in counters.Keys - todo
      invariant forall l | l in normalized :: normalized[l] == counters[LoopName(l)]
      decreases todo
    {
      var name :| name in todo;
      var l := ParseLoop(name);
      if l.None? || counters[name] < 0 {
        return Err(InvalidLoopCounters);
      }
      forall j: Loop ensures LoopName(j) == name <==> j == l.value { ParseLoopInverts(name, j); }
      normalized := normalized[l.value := counters[name]];
      todo := todo - {name};
    }
    assert normalized == CountersOf(counters);
    return Ok(normalized);
  }

  method NormalizeTransitions(entries: seq<(string, string)>) returns (r: Result<seq<TransitionRecord>, Error>)
    ensures r == match TransitionsError(entries)
                 case Some(e) => Err(e)
                 case None => Ok(TransitionsOf(entries))
  {
    var transitions := [];
    var i := 0;
    while i < |entries|
      invariant 0 <= i <= |entries|
      invariant TransitionsError(entries) == TransitionsError(entries[i..])
      invariant TransitionsError(entries).None? ==>
        TransitionsOf(entries) == transitions + TransitionsOf(entries[i..])
    {
      var f, t := ParseState(entries[i].0), ParseState(entries[i].1);
      if f.None? || t.None? {
        return Err(UnknownState);
      }
      if !CanTransition(f.value, t.value) {
        return Err(InvalidTransition(f.value, t.value));
      }
      transitions := transitions + [TransitionRecord(f.value, t.value)];
      i := i + 1;
    }
    assert entries[i..] == [];
    assert TransitionsError(entries).None? && TransitionsOf(entries) == transitions;
    return Ok(transitions);
  }

  // ----- What every run of commands keeps ---------------------------------------------

  ghost predicate ValidTask(taskId: string, t: TaskState) {
    && !IsBlank(taskId)
    && !IsBlank(t.rawTask)
    && (forall k | k in t.artifacts :: !IsBlank(t.artifacts[k]))
    && (forall r | r in t.transitions :: CanTransition(r.fromState, r.toState))
    && (forall a | a in t.agentCalls :: !IsBlank(a))
    && (forall l | l in t.loopCounters :: t.loopCounters[l] >= 0)
  }

  ghost predicate ValidTasks(tasks: Tasks) {
    forall id | id in tasks :: ValidTask(id, tasks[id])
  }

  lemma {:induction false} RestoredTransitionsAllowed(entries: seq<(string, string)>)
    requires TransitionsError(entries).None?
    ensures |TransitionsOf(entries)| == |entries|
    ensures forall i | 0 <= i < |entries| ::
              var r := TransitionsOf(entries)[i];
              && CanTransition(r.fromState, r.toState)
              && entries[i] == (StateName(r.fromState), StateName(r.toState))
  {
    if entries != [] {
      RestoredTransitionsAllowed(entries[1..]);
      ParseStateInverts(entries[0].0, ParseState(entries[0].0).value);
      ParseStateInverts(entries[0].1, ParseState(entries[0].1).value);
      assert forall i | 1 <= i < |entries| :: TransitionsOf(entries)[i] == TransitionsOf(entries[1..])[i - 1];
    }
  }

  /** Every command, accepted or rejected, keeps every task well formed. */
  lemma ExecKeepsValid(tasks: Tasks, c: Command)
    requires ValidTasks(tasks)
    ensures ValidTasks(Exec(tasks, c))
  {
    if Failure(tasks, c).None? {
      if c.RestoreTask? {
        RestoredIsValid(tasks, c.dump);
      } else {
        ChangedIsValid(tasks, c);
      }
    }
    hide Failure, NewState, ValidTask;
  }

  lemma ChangedIsValid(tasks: Tasks, c: Command)
    requires ValidTasks(tasks) && Failure(tasks, c).None? && !c.RestoreTask?
    ensures ValidTask(Target(c), NewState(tasks, c))
  {
    hide IsBlank, CanTransition, ParseKind, ParseLoop, SeedsOf, CountersOf, TransitionsOf, RestoreFailure;
  }

  lemma RestoredIsValid(tasks: Tasks, d: Dump)
    requires RestoreFailure(tasks, d).None?
    ensures ValidTask(d.taskId, NewState(tasks, Command.RestoreTask(d)))
  {
    hide SeedsOf, CountersOf, TransitionsOf, TransitionsError, SeedsOk, CountersOk, IsBlank, CanTransition, ParseKind,
      ParseLoop;
    SeedsAreText(d.artifacts);
    CountersAreNatural(d.loopCounters);
    TransitionsAreEdges(d.transitions);
  }

  lemma SeedsAreText(artifacts: map<string, string>)
    requires SeedsOk(artifacts)
    ensures forall k | k in SeedsOf(artifacts) :: !IsBlank(SeedsOf(artifacts)[k])
  {
    hide IsBlank, ParseKind;
  }

  lemma CountersAreNatural(counters: map<string, int>)
    requires CountersOk(counters)
    ensures forall l | l in CountersOf(counters) :: CountersOf(counters)[l] >= 0
  {
    hide ParseLoop;
  }

  lemma TransitionsAreEdges(entries: seq<(string, string)>)
    requires TransitionsError(entries).None?
    ensures forall r | r in TransitionsOf(entries) :: CanTransition(r.fromState, r.toState)
  {
    RestoredTransitionsAllowed(entries);
    hide CanTransition, StateName;
  }

  /** A command is refused for a reason that is true of it, and for no other reason that is true
      too but comes later; this says which reasons there are and in which order. */
  ghost predicate IsReason(tasks: Tasks, c: Command, e: Error) {
    match c
    case NewTask(id, raw) =>
      || (e == EmptyTaskId && AllSpaces(id))
      || (e == EmptyRawTask && AllSpaces(raw) && !AllSpaces(id))
      || (e == TaskAlreadyExists(id) && id in tasks && !AllSpaces(id) && !AllSpaces(raw))
    case SetArtifact(id, name, payload) =>
      var known := exists k :: KindName(k) == name;
      || (e == UnknownArtifactKind(name) && !known)
      || (e == EmptyPayload && known && AllSpaces(payload))
      || (e == UnknownTask(id) && known && !AllSpaces(payload) && id !in tasks)
      || (exists k :: KindName(k) == name && !AllSpaces(payload) && id in tasks && k in tasks[id].artifacts
                      && e == ArtifactAlreadySet(k))
    case RecordTransition(id, f, t) =>
      || (e == InvalidTransition(f, t) && t !in AllowedTransitions(f))
      || (e == UnknownTask(id) && t in AllowedTransitions(f) && id !in tasks)
    case RecordAgentCall(id, agent) =>
      || (e == EmptyAgentName && AllSpaces(agent))
      || (e == UnknownTask(id) && !AllSpaces(agent) && id !in tasks)
    case IncrementLoop(id, name) =>
      var known := exists l :: LoopName(l) == name;
      || (e == UnknownLoop(name) && !known)
      || (e == UnknownTask(id) && known && id !in tasks)
    case RestoreTask(d) =>
      || (e == UnsupportedSchemaVersion(d.schemaVersion) && d.schemaVersion != 1)
      || (d.schemaVersion == 1 && IsDumpReason(tasks, d, e))
  }

  ghost predicate IsDumpReason(tasks: Tasks, d: Dump, e: Error) {
    || (e == EmptyTaskId && AllSpaces(d.taskId))
    || (!AllSpaces(d.taskId) &&
        (|| (e == TaskAlreadyExists(d.taskId) && d.taskId in tasks)
         || (d.taskId !in tasks &&
             (|| (e == EmptyRawTask && AllSpaces(d.rawTask))
              || (!AllSpaces(d.rawTask) &&
                  (|| (e == InvalidSeeds && !SeedsOk(d.artifacts))
                   || (SeedsOk(d.artifacts) &&
                       (|| (e == InvalidLoopCounters && !CountersOk(d.loopCounters))
                        || (CountersOk(d.loopCounters) &&
                            (|| TransitionsError(d.transitions) == Some(e)
                             || (e == EmptyAgentName && TransitionsError(d.transitions) == None
                                 && exists a :: a in d.agentCalls && AllSpaces(a))))))))))))
  }

  /** The errors of the commands are exactly these. */
  lemma FailureTheorem(tasks: Tasks, c: Command, e: Error)
    ensures Failure(tasks, c) == Some(e) <==> IsReason(tasks, c, e)
  {
    if c.RestoreTask? {
      DumpFailure(tasks, c.dump, e);
      hide RestoreFailure, IsDumpReason;
    } else {
      forall s: string ensures IsBlank(s) <==> AllSpaces(s) { BlankIsAllSpaces(s); }
      forall name: string, k: Kind
        ensures ParseKind(name) == Some(k) <==> KindName(k) == name
      {
        ParseKindInverts(name, k);
      }
      forall name: string, l: Loop
        ensures ParseLoop(name) == Some(l) <==> LoopName(l) == name
      {
        ParseLoopInverts(name, l);
      }
      hide IsBlank, AllSpaces, ParseKind, ParseLoop, KindName, LoopName, RestoreFailure;
    }
  }

  lemma DumpFailure(tasks: Tasks, d: Dump, e: Error)
    ensures RestoreFailure(tasks, d) == Some(e) <==> IsReason(tasks, Command.RestoreTask(d), e)
  {
    forall s: string ensures IsBlank(s) <==> AllSpaces(s) { BlankIsAllSpaces(s); }
    hide IsBlank, AllSpaces, SeedsOk, CountersOk, TransitionsError;
  }

  /** Later holds everything earlier held: nothing is erased or rewritten. */
  ghost predicate Extends(later: TaskState, earlier: TaskState) {
    && later.rawTask == earlier.rawTask
    && (forall k | k in earlier.artifacts :: k in later.artifacts && later.artifacts[k] == earlier.artifacts[k])
    && earlier.transitions <= later.transitions
    && earlier.agentCalls <= later.agentCalls
    && (forall l :: LoopCount(earlier, l) <= LoopCount(later, l))
  }

  lemma ExecExtends(tasks: Tasks, c: Command, taskId: string)
    requires taskId in tasks
    ensures taskId in Exec(tasks, c) && Extends(Exec(tasks, c)[taskId], tasks[taskId])
  {
    hide SeedsOf, CountersOf, TransitionsOf, TransitionsError, SeedsOk, CountersOk, IsBlank, ParseKind, ParseLoop,
      CanTransition;
  }

  /** In every run of commands each task's record only grows; in particular an
      artifact that has been set keeps its text for ever. */
  lemma {:induction false} ExecAllExtends(tasks: Tasks, cs: seq<Command>)
    requires ValidTasks(tasks)
    ensures ValidTasks(ExecAll(tasks, cs))
    ensures forall id | id in tasks ::
              id in ExecAll(tasks, cs) && Extends(ExecAll(tasks, cs)[id], tasks[id])
    decreases |cs|
  {
    if cs != [] {
      hide Exec, ValidTask;
      ExecKeepsValid(tasks, cs[0]);
      ExecAllExtends(Exec(tasks, cs[0]), cs[1..]);
      forall id | id in tasks
        ensures id in ExecAll(tasks, cs) && Extends(ExecAll(tasks, cs)[id], tasks[id])
      {
        ExecExtends(tasks, cs[0], id);
      }
    }
  }

  // ----- What commands can build -----------------------------------------------------------

  lemma {:induction false} ExecOneMore(tasks: Tasks, cs: seq<Command>, c: Command)
    ensures ExecAll(tasks, cs + [c]) == Exec(ExecAll(tasks, cs), c)
    decreases |cs|
  {
    if cs == [] {
      assert cs + [c] == [c] && [c][1..] == [];
    } else {
      assert (cs + [c])[1..] == cs[1..] + [c];
      ExecOneMore(Exec(tasks, cs[0]), cs[1..], c);
    }
  }

  function LoopSum(t: TaskState): int {
    LoopCount(t, ReviewFix) + LoopCount(t, TestFix) + LoopCount(t, QaFix)
  }

  /** A well-formed record with no counter at rest at zero. */
  ghost predicate IsBuildable(taskId: string, t: TaskState) {
    ValidTask(taskId, t) && forall l | l in t.loopCounters :: t.loopCounters[l] > 0
  }

  function Size(t: TaskState): int {
    |t.artifacts| + |t.transitions| + |t.agentCalls| + LoopSum(t)
  }

  /** The command makes the record out of a smaller one. */
  ghost predicate Completes(tasks: Tasks, taskId: string, t: TaskState, before: TaskState, c: Command) {
    && IsBuildable(taskId, before) && Size(before) == Size(t) - 1
    && !c.RestoreTask? && Exec(tasks[taskId := before], c) == tasks[taskId := t]
  }

  lemma LastTransition(tasks: Tasks, taskId: string, t: TaskState) returns (before: TaskState, c: Command)
    requires IsBuildable(taskId, t) && t.transitions != []
    ensures Completes(tasks, taskId, t, before, c)
  {
    var n := |t.transitions| - 1;
    before := t.(transitions := t.transitions[..n]);
    c := Command.RecordTransition(taskId, t.transitions[n].fromState, t.transitions[n].toState);
    assert t.transitions == t.transitions[..n] + [t.transitions[n]];
    hide CanTransition, IsBlank;
  }

  lemma LastCall(tasks: Tasks, taskId: string, t: TaskState) returns (before: TaskState, c: Command)
    requires IsBuildable(taskId, t) && t.agentCalls != []
    ensures Completes(tasks, taskId, t, before, c)
  {
    var n := |t.agentCalls| - 1;
    before := t.(agentCalls := t.agentCalls[..n]);
    c := Command.RecordAgentCall(taskId, t.agentCalls[n]);
    assert t.agentCalls == t.agentCalls[..n] + [t.agentCalls[n]];
    hide CanTransition, IsBlank;
  }

  lemma SetsArtifact(tasks: Tasks, taskId: string, t: TaskState, k: Kind, text: string)
    requires !IsBlank(text) && k !in t.artifacts
    ensures Exec(tasks[taskId := t], Command.SetArtifact(taskId, KindName(k), text)) ==
            tasks[taskId := t.(artifacts := t.artifacts[k := text])]
  {
    ParseKindInverts(KindName(k), k);
    hide IsBlank, ParseKind, KindName;
  }

  lemma WithoutArtifact(taskId: string, t: TaskState, k: Kind)
    requires IsBuildable(taskId, t) && k in t.artifacts
    ensures var before := t.(artifacts := t.artifacts - {k});
            && IsBuildable(taskId, before) && Size(before) == Size(t) - 1 && !IsBlank(t.artifacts[k])
            && t.artifacts == before.artifacts[k := t.artifacts[k]]
  {
    var before := t.(artifacts := t.artifacts - {k});
    hide CanTransition, IsBlank, LoopCount;
    assert t.artifacts == before.artifacts[k := t.artifacts[k]];
    assert |t.artifacts| == |before.artifacts| + 1;
    assert LoopSum(before) == LoopSum(t) by { SameCounters(before, t); }
  }

  lemma SameCounters(s: TaskState, t: TaskState)
    requires s.loopCounters == t.loopCounters
    ensures LoopSum(s) == LoopSum(t)
  {
  }

  lemma LastArtifact(tasks: Tasks, taskId: string, t: TaskState) returns (before: TaskState, c: Command)
    requires IsBuildable(taskId, t) && t.artifacts != map[]
    ensures Completes(tasks, taskId, t, before, c)
  {
    var k :| k in t.artifacts;
    before := t.(artifacts := t.artifacts - {k});
    c := Command.SetArtifact(taskId, KindName(k), t.artifacts[k]);
    hide Exec, KindName, Size, IsBuildable;
    WithoutArtifact(taskId, t, k);
    SetsArtifact(tasks, taskId, before, k, t.artifacts[k]);
  }

  lemma CountsLoop(tasks: Tasks, taskId: string, t: TaskState, l: Loop)
    ensures Exec(tasks[taskId := t], Command.IncrementLoop(taskId, LoopName(l))) ==
            tasks[taskId := t.(loopCounters := t.loopCounters[l := LoopCount(t, l) + 1])]
  {
    ParseLoopInverts(LoopName(l), l);
    hide IsBlank, ParseLoop, LoopName;
  }

  lemma OneCountLess(taskId: string, t: TaskState, before: TaskState, l: Loop)
    requires IsBuildable(taskId, t) && l in t.loopCounters
    requires before == t.(loopCounters := if t.loopCounters[l] == 1 then t.loopCounters - {l}
                                          else t.loopCounters[l := t.loopCounters[l] - 1])
    ensures IsBuildable(taskId, before) && Size(before) == Size(t) - 1
    ensures t == before.(loopCounters := before.loopCounters[l := LoopCount(before, l) + 1])
  {
    assert IsBuildable(taskId, before) by { hide CanTransition, IsBlank, LoopCount; }
    hide IsBuildable;
    CountersDiffer(t, before, l);
  }

  lemma CountersDiffer(t: TaskState, before: TaskState, l: Loop)
    requires l in t.loopCounters && t.loopCounters[l] > 0
    requires before == t.(loopCounters := if t.loopCounters[l] == 1 then t.loopCounters - {l}
                                          else t.loopCounters[l := t.loopCounters[l] - 1])
    ensures Size(before) == Size(t) - 1
    ensures t == before.(loopCounters := before.loopCounters[l := LoopCount(before, l) + 1])
  {
    assert LoopCount(before, l) == LoopCount(t, l) - 1;
    assert LoopSum(before) == LoopSum(t) - 1 by {
      forall j | j != l ensures LoopCount(before, j) == LoopCount(t, j) {}
      hide LoopCount;
    }
    assert t.loopCounters == before.loopCounters[l := t.loopCounters[l]];
    hide LoopSum;
  }

  lemma LastCount(tasks: Tasks, taskId: string, t: TaskState) returns (before: TaskState, c: Command)
    requires IsBuildable(taskId, t) && t.loopCounters != map[]
    ensures Completes(tasks, taskId, t, before, c)
  {
    var l :| l in t.loopCounters;
    var count := t.loopCounters[l];
    before := t.(loopCounters := if count == 1 then t.loopCounters - {l} else t.loopCounters[l := count - 1]);
    c := Command.IncrementLoop(taskId, LoopName(l));
    hide Exec, LoopName, Size, IsBuildable;
    OneCountLess(taskId, t, before, l);
    CountsLoop(tasks, taskId, before, l);
  }

  lemma SizeIsNatural(taskId: string, t: TaskState)
    requires IsBuildable(taskId, t)
    ensures Size(t) >= 0
  {
    hide CanTransition, IsBlank;
  }

  /** Every such record can be built from nothing by accepted commands other than a restore: no
      command refuses more than it has to. With `ExecKeepsValid` this says exactly which records
      there can be. */
  lemma {:induction false} BuildTheorem(tasks: Tasks, taskId: string, t: TaskState) returns (cs: seq<Command>)
    requires taskId !in tasks && IsBuildable(taskId, t)
    ensures ExecAll(tasks, cs) == tasks[taskId := t] && forall c | c in cs :: !c.RestoreTask?
    decreases Size(t)
  {
    SizeIsNatural(taskId, t);
    if t == TaskState(t.rawTask, map[], [], [], map[]) {
      cs := [Command.NewTask(taskId, t.rawTask)];
      BuildsEmpty(tasks, taskId, t.rawTask);
    } else {
      hide Exec, ExecAll, IsBuildable, Size;
      var before, c;
      if t.transitions != [] {
        before, c := LastTransition(tasks, taskId, t);
      } else if t.agentCalls != [] {
        before, c := LastCall(tasks, taskId, t);
      } else if t.artifacts != map[] {
        before, c := LastArtifact(tasks, taskId, t);
      } else {
        before, c := LastCount(tasks, taskId, t);
      }
      SizeIsNatural(taskId, before);
      var init := BuildTheorem(tasks, taskId, before);
      ExecOneMore(tasks, init, c);
      cs := init + [c];
    }
  }

  lemma BuildsEmpty(tasks: Tasks, taskId: string, raw: string)
    requires taskId !in tasks && !IsBlank(taskId) && !IsBlank(raw)
    ensures ExecAll(tasks, [Command.NewTask(taskId, raw)]) == tasks[taskId := TaskState(raw, map[], [], [], map[])]
  {
    var cs := [Command.NewTask(taskId, raw)];
    assert cs[1..] == [];
    hide IsBlank;
  }

  // ----- Dump and restore -------------------------------------------------------------

  lemma KindsSurviveNaming(artifacts: map<Kind, string>)
    ensures SeedsOf(NameKinds(artifacts)) == artifacts
    ensures SeedsOk(NameKinds(artifacts)) <==> forall k | k in artifacts :: !IsBlank(artifacts[k])
  {
    var named := NameKinds(artifacts);
    forall k: Kind ensures ParseKind(KindName(k)) == Some(k) { ParseKindInverts(KindName(k), k); }
    forall k: Kind ensures k in artifacts <==> KindName(k) in named {
      if KindName(k) in named {
        var j :| j in artifacts && KindName(j) == KindName(k);
        KindNamesDiffer(j, k);
      }
    }
    forall k | k in artifacts ensures named[KindName(k)] == artifacts[k] {}
    assert SeedsOf(named) == artifacts;
  }

  lemma NamedKindsSurvive(named: map<string, string>)
    requires SeedsOk(named)
    ensures NameKinds(SeedsOf(named)) == named
  {
    var artifacts := SeedsOf(named);
    forall name | name in named ensures name in NameKinds(artifacts) {
      var k := ParseKind(name).value;
      ParseKindInverts(name, k);
      assert k in artifacts;
    }
  }

  lemma LoopsSurviveNaming(counters: map<Loop, int>)
    ensures CountersOf(NameLoops(counters)) == counters
    ensures CountersOk(NameLoops(counters)) <==> forall l | l in counters :: counters[l] >= 0
  {
    var named := NameLoops(counters);
    forall l: Loop ensures ParseLoop(LoopName(l)) == Some(l) { ParseLoopInverts(LoopName(l), l); }
    forall l: Loop ensures l in counters <==> LoopName(l) in named {
      if LoopName(l) in named {
        var j :| j in counters && LoopName(j) == LoopName(l);
        LoopNamesDiffer(j, l);
      }
    }
    forall l | l in counters ensures named[LoopName(l)] == counters[l] {}
    assert CountersOf(named) == counters;
  }

  lemma NamedLoopsSurvive(named: map<string, int>)
    requires CountersOk(named)
    ensures NameLoops(CountersOf(named)) == named
  {
    var counters := CountersOf(named);
    forall name | name in named ensures name in NameLoops(counters) {
      var l := ParseLoop(name).value;
      ParseLoopInverts(name, l);
      assert l in counters;
    }
  }

  lemma {:induction false} TransitionsSurviveNaming(ts: seq<TransitionRecord>)
    requires forall r | r in ts :: CanTransition(r.fromState, r.toState)
    ensures TransitionsError(NameTransitions(ts)).None?
    ensures TransitionsOf(NameTransitions(ts)) == ts
  {
    if ts != [] {
      ParseStateInverts(StateName(ts[0].fromState), ts[0].fromState);
      ParseStateInverts(StateName(ts[0].toState), ts[0].toState);
      assert NameTransitions(ts)[1..] == NameTransitions(ts[1..]);
      TransitionsSurviveNaming(ts[1..]);
    }
  }

  lemma NamedTransitionsSurvive(entries: seq<(string, string)>)
    requires TransitionsError(entries).None?
    ensures NameTransitions(TransitionsOf(entries)) == entries
  {
    RestoredTransitionsAllowed(entries);
  }

  /** A well-formed task's dump is rejected only for an id already in use, and what
      it restores is the very same task; nothing else in the store changes. */
  lemma DumpThenRestore(taskId: string, t: TaskState, store: Tasks)
    requires ValidTask(taskId, t)
    ensures var c := Command.RestoreTask(DumpOf(taskId, t));
            if taskId in store then Failure(store, c) == Some(TaskAlreadyExists(taskId))
            else Failure(store, c).None? && Exec(store, c) == store[taskId := t]
  {
    hide NameKinds, NameLoops, NameTransitions, SeedsOf, CountersOf, TransitionsOf, TransitionsError, SeedsOk,
      CountersOk, IsBlank;
    KindsSurviveNaming(t.artifacts);
    LoopsSurviveNaming(t.loopCounters);
    TransitionsSurviveNaming(t.transitions);
  }

  /** Restore accepts exactly the dumps of well-formed tasks with an unused id. */
  lemma RestoreAcceptsExactlyDumps(tasks: Tasks, d: Dump)
    ensures RestoreFailure(tasks, d).None? <==>
            d.taskId !in tasks && exists t :: ValidTask(d.taskId, t) && DumpOf(d.taskId, t) == d
  {
    hide ValidTask, DumpOf, NameKinds, NameLoops, NameTransitions, SeedsOf, CountersOf, TransitionsOf,
      TransitionsError, SeedsOk, CountersOk, IsBlank;
    if RestoreFailure(tasks, d).None? {
      RestoredIsValid(tasks, d);
      RestoredIsDumped(tasks, d);
    } else if exists t :: ValidTask(d.taskId, t) && DumpOf(d.taskId, t) == d {
      var t :| ValidTask(d.taskId, t) && DumpOf(d.taskId, t) == d;
      DumpThenRestore(d.taskId, t, tasks);
    }
  }

  /** Dumping what was just restored gives the same dump again. */
  lemma RestoredIsDumped(tasks: Tasks, d: Dump)
    requires RestoreFailure(tasks, d).None?
    ensures DumpOf(d.taskId, NewState(tasks, Command.RestoreTask(d))) == d
  {
    hide NameKinds, NameLoops, NameTransitions, SeedsOf, CountersOf, TransitionsOf, TransitionsError, IsBlank;
    NamedKindsSurvive(d.artifacts);
    NamedLoopsSurvive(d.loopCounters);
    NamedTransitionsSurvive(d.transitions);
  }
}
