/** The in-memory agent bus (core/agent_bus.py): six collections that a publish updates one
    by one, some of them even when it then fails. */
module AgentBus {
  import opened Wrappers
  import opened Identifiers
  import opened AgentBusModels

  datatype ProjectThread = ProjectThread(
    projectId: string,
    threadId: string,
    openedByRole: string,
    createdAt: real,
    lastMessageAt: real,
    taskId: Option<string>
  )

  /** What open_thread is given. */
  datatype Opening = Opening(projectId: string, openedByRole: string, taskId: Option<string>, createdAt: real)

  /** Requests and replies as their constructors accept them. */
  datatype AgentRequest = AgentRequest(
    projectId: string, threadId: string, senderRole: string, recipientRole: string, body: string, createdAt: real)

  datatype AgentReply = AgentReply(
    inReplyTo: AgentMessageRef, senderRole: string, recipientRole: string, body: string, createdAt: real)

  /** (project_id, thread_id, message_id) */
  type MessageKey = (string, string, string)

  function MessageKeyOf(m: AgentMessage): MessageKey {
    (m.projectId, m.threadId, m.messageId)
  }

  function RefKey(r: AgentMessageRef): MessageKey {
    (r.projectId, r.threadId, r.messageId)
  }

  datatype BusError =
    | InvalidThread
    | UnknownThread
    | UnknownInReplyTo
    | ReplyTargetMustBeRequest
    | InvalidMessageId
    | BeforeLastMessage

  datatype Bus = Bus(
    threadCounter: nat,
    messageCounters: map<ThreadKey, nat>,
    threads: map<ThreadKey, ProjectThread>,
    byThread: map<ThreadKey, seq<AgentMessage>>,
    byKey: map<MessageKey, AgentMessage>,
    all: seq<AgentMessage>
  )

  const EMPTY := Bus(0, map[], map[], map[], map[], [])

  datatype Op =
    | OpenThread(opening: Opening)
    | PublishRequest(request: AgentRequest)
    | PublishReply(reply: AgentReply)

  // ----- What the operations do -------------------------------------------------------------------

  /** open_thread: the counter moves even when the thread is then refused. */
  function Open(b: Bus, o: Opening): (Bus, Result<ProjectThread, BusError>) {
    var n := b.threadCounter + 1;
    var id := Sequenced(THREAD_ID_PREFIX, n);
    var b1 := b.(threadCounter := n);
    match ThreadOf(o, id)
    case None => (b1, Err(InvalidThread))
    case Some(t) =>
      (b1.(threads := b.threads[(t.projectId, id) := t], byThread := b.byThread[(t.projectId, id) := []],
           messageCounters := b.messageCounters[(t.projectId, id) := 0]),
       Ok(t))
  }

  /** Everything given is well formed, and the next thread number fits into an identifier. */
  predicate IsOpenable(o: Opening, id: string) {
    && Normalize(o.projectId).Some? && Normalize(o.openedByRole).Some? && IsIdentifier(id) && o.createdAt > 0.0
    && (o.taskId.Some? ==> NormalizeTaskId(o.taskId.value).Some?)
  }

  /** The thread in normal form, or None where its constructor refuses it. */
  function ThreadOf(o: Opening, id: string): (t: Option<ProjectThread>)
    ensures t.Some? ==> t.value.threadId == id && t.value.createdAt == t.value.lastMessageAt
  {
    var project, role := Normalize(o.projectId), Normalize(o.openedByRole);
    var task := if o.taskId.Some? then NormalizeTaskId(o.taskId.value) else None;
    if project.None? || !IsIdentifier(id) || role.None? || o.createdAt <= 0.0
        || (o.taskId.Some? && task.None?) then None
    else Some(ProjectThread(project.value, id, role.value, o.createdAt, o.createdAt, task))
  }

  /** The rest of a publish, given everything of the message but its id: the thread's counter
      moves as soon as the thread is known, also when the message is then refused. */
  function Publish(b: Bus, draft: AgentMessage): (Bus, Result<AgentMessage, BusError>) {
    var key := KeyOf(draft);
    if key !in b.threads || key !in b.messageCounters || key !in b.byThread then (b, Err(UnknownThread))
    else
      var n := b.messageCounters[key] + 1;
      var m := draft.(messageId := Sequenced(MESSAGE_ID_PREFIX, n));
      var b1 := b.(messageCounters := b.messageCounters[key := n]);
      if !IsIdentifier(m.messageId) then (b1, Err(InvalidMessageId))
      else if m.createdAt < b.threads[key].lastMessageAt then (b1, Err(BeforeLastMessage))
      else
        (b1.(byThread := b.byThread[key := b.byThread[key] + [m]],
             byKey := b.byKey[MessageKeyOf(m) := m],
             all := b.all + [m],
             threads := b.threads[key := b.threads[key].(lastMessageAt := m.createdAt)]),
         Ok(m))
  }

  function RequestDraft(r: AgentRequest): AgentMessage {
    AgentMessage(r.projectId, r.threadId, "", r.senderRole, r.recipientRole, Request, r.body, r.createdAt, None)
  }

  function ReplyDraft(r: AgentReply): AgentMessage {
    AgentMessage(r.inReplyTo.projectId, r.inReplyTo.threadId, "", r.senderRole, r.recipientRole, Reply, r.body,
                 r.createdAt, Some(r.inReplyTo))
  }

  /** Why a reply is refused before anything is touched. */
  function ReplyRefusal(b: Bus, r: AgentReply): Option<BusError> {
    if RefKey(r.inReplyTo) !in b.byKey then Some(UnknownInReplyTo)
    else if b.byKey[RefKey(r.inReplyTo)].messageKind != Request then Some(ReplyTargetMustBeRequest)
    else None
  }

  function Do(b: Bus, op: Op): Bus {
    match op
    case OpenThread(o) => Open(b, o).0
    case PublishRequest(r) => Publish(b, RequestDraft(r)).0
    case PublishReply(r) => if ReplyRefusal(b, r).Some? then b else Publish(b, ReplyDraft(r)).0
  }

  function DoAll(ops: seq<Op>): Bus {
    if ops == [] then EMPTY else Do(DoAll(ops[..|ops| - 1]), ops[|ops| - 1])
  }

  // ----- The bus --------------------------------------------------------------------------------

  class InMemoryAgentBus {
    var threadCounter: nat
    var messageCounters: map<ThreadKey, nat>
    var threadsByKey: map<ThreadKey, ProjectThread>
    var messagesByThread: map<ThreadKey, seq<AgentMessage>>
    var messagesByKey: map<MessageKey, AgentMessage>
    var allMessages: seq<AgentMessage>

    constructor ()
      ensures Abs() == EMPTY
    {
      threadCounter := 0;
      messageCounters, threadsByKey, messagesByThread, messagesByKey := map[], map[], map[], map[];
      allMessages := [];
    }

    function Abs(): Bus
      reads this
    {
      Bus(threadCounter, messageCounters, threadsByKey, messagesByThread, messagesByKey, allMessages)
    }

    method OpenThread(opening: Opening) returns (r: Result<ProjectThread, BusError>)
      modifies this
      ensures (Abs(), r) == Open(old(Abs()), opening)
      ensures r.Ok? <==> IsOpenable(opening, Sequenced(THREAD_ID_PREFIX, old(threadCounter) + 1))
      ensures r.Ok? ==>
                && Normalize(opening.projectId) == Some(r.value.projectId)
                && Normalize(opening.openedByRole) == Some(r.value.openedByRole)
                && r.value.threadId == Sequenced(THREAD_ID_PREFIX, old(threadCounter) + 1)
                && r.value.createdAt == r.value.lastMessageAt == opening.createdAt
                && r.value.taskId == (if opening.taskId == None then None else NormalizeTaskId(opening.taskId.value))
                && threadsByKey == old(threadsByKey)[(r.value.projectId, r.value.threadId) := r.value]
    {
      hide Normalize, NormalizeTaskId, IsIdentifier, Sequenced;
      threadCounter := threadCounter + 1;
      var id := Sequenced(THREAD_ID_PREFIX, threadCounter);
      var thread := ThreadOf(opening, id);
      if thread.None? {
        return Err(InvalidThread);
      }
      var key := (thread.value.projectId, id);
      threadsByKey := threadsByKey[key := thread.value];
      messagesByThread := messagesByThread[key := []];
      messageCounters := messageCounters[key := 0];
      return Ok(thread.value);
    }

    method PublishDraft(draft: AgentMessage) returns (r: Result<AgentMessage, BusError>)
      modifies this
      ensures (Abs(), r) == Publish(old(Abs()), draft)
    {
      hide IsIdentifier, Sequenced;
      var key := KeyOf(draft);
      if key !in threadsByKey || key !in messageCounters || key !in messagesByThread {
        return Err(UnknownThread);
      }
      messageCounters := messageCounters[key := messageCounters[key] + 1];
      var message := draft.(messageId := Sequenced(MESSAGE_ID_PREFIX, messageCounters[key]));
      if !IsIdentifier(message.messageId) {
        return Err(InvalidMessageId);
      }
      var thread := threadsByKey[key];
      if message.createdAt < thread.lastMessageAt {
        return Err(BeforeLastMessage);
      }
      messagesByThread := messagesByThread[key := messagesByThread[key] + [message]];
      messagesByKey := messagesByKey[MessageKeyOf(message) := message];
      allMessages := allMessages + [message];
      threadsByKey := threadsByKey[key := thread.(lastMessageAt := message.createdAt)];
      return Ok(message);
    }

    method PublishRequest(request: AgentRequest) returns (r: Result<AgentMessage, BusError>)
      modifies this
      ensures Abs() == Do(old(Abs()), Op.PublishRequest(request))
      ensures r == Publish(old(Abs()), RequestDraft(request)).1
      ensures if r.Ok? then IsRequestLogged(old(allMessages), allMessages, request, r.value)
              else allMessages == old(allMessages)
    {
      hide Publish, IsRequestLogged;
      RequestIsLogged(Abs(), request);
      DraftIsLogged(Abs(), RequestDraft(request));
      r := PublishDraft(RequestDraft(request));
    }

    method PublishReply(reply: AgentReply) returns (r: Result<AgentMessage, BusError>)
      modifies this
      ensures Abs() == Do(old(Abs()), Op.PublishReply(reply))
      ensures r == match ReplyRefusal(old(Abs()), reply)
                   case Some(e) => Err(e)
                   case None => Publish(old(Abs()), ReplyDraft(reply)).1
      ensures if r.Ok? then IsReplyLogged(old(allMessages), allMessages, reply, r.value)
              else allMessages == old(allMessages)
    {
      hide Publish, IsReplyLogged;
      ReplyIsLogged(Abs(), reply);
      DraftIsLogged(Abs(), ReplyDraft(reply));
      if RefKey(reply.inReplyTo) !in messagesByKey {
        return Err(UnknownInReplyTo);
      }
      if messagesByKey[RefKey(reply.inReplyTo)].messageKind != Request {
        return Err(ReplyTargetMustBeRequest);
      }
      r := PublishDraft(ReplyDraft(reply));
    }

    /** In a consistent bus the per-thread list is the log's filter, unknown threads included. */
    method ListThreadMessages(key: ThreadKey) returns (r: seq<AgentMessage>)
      requires Consistent(Abs())
      ensures r == InThread(allMessages, key)
    {
      if key in messagesByThread {
        return messagesByThread[key];
      }
      NoMessages(Abs(), key);
      return [];
    }

    method ListInbox(project: string, role: string) returns (r: seq<AgentMessage>)
      ensures r == Inbox(allMessages, project, role)
    {
      r := [];
      for i := 0 to |allMessages|
        invariant r == Inbox(allMessages[..i], project, role)
      {
        assert allMessages[..i + 1][..i] == allMessages[..i];
        if allMessages[i].projectId == project && allMessages[i].recipientRole == role {
          r := r + [allMessages[i]];
        }
      }
      assert allMessages[..|allMessages|] == allMessages;
    }
  }

  function Inbox(log: seq<AgentMessage>, project: string, role: string): seq<AgentMessage> {
    if log == [] then []
    else
      var earlier, last := Inbox(log[..|log| - 1], project, role), log[|log| - 1];
      if last.projectId == project && last.recipientRole == role then earlier + [last] else earlier
  }

  // ----- Every reachable state agrees with the plain log --------------------------------------------

  /** The number in a message's id. */
  function MessageNumber(m: AgentMessage): int {
    var n := NumberOf(MESSAGE_ID_PREFIX, m.messageId);
    if n.Some? then n.value else -1
  }

  /** The per-thread lists are the log's filters. */
  ghost predicate ListsAgree(b: Bus) {
    && b.byThread.Keys == b.threads.Keys == b.messageCounters.Keys
    && (forall k | k in b.byThread :: b.byThread[k] == InThread(b.all, k))
    && (forall i | 0 <= i < |b.all| :: KeyOf(b.all[i]) in b.threads)
  }

  /** Threads are filed under their own key, and their numbers are at most the counter. */
  ghost predicate ThreadsNumbered(threads: map<ThreadKey, ProjectThread>, counter: nat) {
    forall k | k in threads ::
      && k == (threads[k].projectId, threads[k].threadId)
      && NumberOf(THREAD_ID_PREFIX, k.1).Some? && NumberOf(THREAD_ID_PREFIX, k.1).value <= counter
  }

  /** Message numbers rise along each thread and stay within its counter. */
  ghost predicate NumbersRise(log: seq<AgentMessage>, counters: map<ThreadKey, nat>) {
    && (forall i | 0 <= i < |log| && KeyOf(log[i]) in counters :: 0 <= MessageNumber(log[i]) <= counters[KeyOf(log[i])])
    && (forall i, j | 0 <= i < j < |log| && KeyOf(log[i]) == KeyOf(log[j]) ::
          MessageNumber(log[i]) < MessageNumber(log[j]))
  }

  /** Times do not fall along a thread. */
  ghost predicate TimesRise(log: seq<AgentMessage>) {
    forall i, j | 0 <= i < j < |log| && KeyOf(log[i]) == KeyOf(log[j]) :: log[i].createdAt <= log[j].createdAt
  }

  /** A thread's last_message_at is the time of its last message, or of its opening when it
      has none, and the latest of all of them. */
  ghost predicate LatestIs(log: seq<AgentMessage>, key: ThreadKey, t: ProjectThread) {
    var messages := InThread(log, key);
    && t.createdAt <= t.lastMessageAt
    && t.lastMessageAt == (if messages == [] then t.createdAt else messages[|messages| - 1].createdAt)
    && forall i | 0 <= i < |log| && KeyOf(log[i]) == key :: t.createdAt <= log[i].createdAt <= t.lastMessageAt
  }

  ghost predicate Timed(log: seq<AgentMessage>, threads: map<ThreadKey, ProjectThread>) {
    TimesRise(log) && forall k | k in threads :: LatestIs(log, k, threads[k])
  }

  /** The index holds exactly the logged messages, each under its own key. */
  ghost predicate IndexAgrees(log: seq<AgentMessage>, byKey: map<MessageKey, AgentMessage>) {
    && (forall i | 0 <= i < |log| :: MessageKeyOf(log[i]) in byKey && byKey[MessageKeyOf(log[i])] == log[i])
    && (forall k | k in byKey :: exists i :: 0 <= i < |log| && log[i] == byKey[k] && MessageKeyOf(log[i]) == k)
  }

  /** Every reply names an earlier request of the same thread; requests name nothing. */
  ghost predicate RepliesFollow(log: seq<AgentMessage>) {
    forall i | 0 <= i < |log| :: Follows(log, i)
  }

  ghost predicate Follows(log: seq<AgentMessage>, i: nat)
    requires i < |log|
  {
    match log[i].inReplyTo
    case None => log[i].messageKind == Request
    case Some(r) => log[i].messageKind == Reply && exists j :: 0 <= j < i && Answers(log[i], r, log[j])
  }

  predicate Answers(reply: AgentMessage, r: AgentMessageRef, target: AgentMessage) {
    target.messageKind == Request && RefKey(r) == MessageKeyOf(target) && KeyOf(target) == KeyOf(reply)
  }

  ghost predicate Consistent(b: Bus) {
    && ListsAgree(b) && ThreadsNumbered(b.threads, b.threadCounter) && NumbersRise(b.all, b.messageCounters)
    && Timed(b.all, b.threads) && IndexAgrees(b.all, b.byKey) && RepliesFollow(b.all)
  }

  lemma {:induction false} InThreadOnly(log: seq<AgentMessage>, key: ThreadKey)
    ensures InThread(log, key) == [] <==> forall i | 0 <= i < |log| :: KeyOf(log[i]) != key
    ensures InThread(log, key) != [] ==>
              exists i :: 0 <= i < |log| && log[i] == InThread(log, key)[|InThread(log, key)| - 1]
                  && KeyOf(log[i]) == key
    ensures |InThread(log, key)| <= |log|
  {
    if log != [] {
      InThreadOnly(log[..|log| - 1], key);
      if KeyOf(log[|log| - 1]) != key && InThread(log, key) != [] {
        var i :| 0 <= i < |log| - 1 && log[i] == InThread(log, key)[|InThread(log, key)| - 1] && KeyOf(log[i]) == key;
      }
    }
  }

  lemma NoMessages(b: Bus, key: ThreadKey)
    requires ListsAgree(b) && key !in b.byThread
    ensures InThread(b.all, key) == []
  {
    InThreadOnly(b.all, key);
  }

  /** A message that is accepted: what it adds to the log. */
  ghost predicate Accepted(b: Bus, draft: AgentMessage, b': Bus, m: AgentMessage) {
    var key := KeyOf(draft);
    && key in b.threads && key in b.messageCounters && key in b.byThread
    && m == draft.(messageId := m.messageId) && KeyOf(m) == key
    && MessageNumber(m) == b.messageCounters[key] + 1
    && m.createdAt >= b.threads[key].lastMessageAt
    && b' == Bus(b.threadCounter, b.messageCounters[key := b.messageCounters[key] + 1],
                 b.threads[key := b.threads[key].(lastMessageAt := m.createdAt)],
                 b.byThread[key := b.byThread[key] + [m]], b.byKey[MessageKeyOf(m) := m], b.all + [m])
  }

  function CounterMoved(b: Bus, key: ThreadKey): Bus
    requires key in b.messageCounters
  {
    b.(messageCounters := b.messageCounters[key := b.messageCounters[key] + 1])
  }

  /** A publish is accepted in this sense, or it moves at most its thread's counter. */
  lemma PublishOutcome(b: Bus, draft: AgentMessage)
    ensures var (b', r) := Publish(b, draft);
            if r.Ok? then Accepted(b, draft, b', r.value)
            else b' == b || (KeyOf(draft) in b.messageCounters && b' == CounterMoved(b, KeyOf(draft)))
  {
    if KeyOf(draft) in b.messageCounters {
      SequencedNumber(MESSAGE_ID_PREFIX, b.messageCounters[KeyOf(draft)] + 1);
    }
    hide IsIdentifier, Sequenced, NumberOf;
  }

  lemma AcceptedLists(b: Bus, draft: AgentMessage, b': Bus, m: AgentMessage)
    requires ListsAgree(b) && Accepted(b, draft, b', m)
    ensures ListsAgree(b')
  {
    forall k | k in b'.byThread ensures b'.byThread[k] == InThread(b'.all, k) {
      InThreadAppend(b.all, m, k);
    }
  }

  lemma AcceptedThreads(b: Bus, draft: AgentMessage, b': Bus, m: AgentMessage)
    requires ThreadsNumbered(b.threads, b.threadCounter) && Accepted(b, draft, b', m)
    ensures ThreadsNumbered(b'.threads, b'.threadCounter)
  {
    hide MessageNumber, NumberOf;
  }

  lemma AcceptedNumbers(log: seq<AgentMessage>, counters: map<ThreadKey, nat>, m: AgentMessage)
    requires NumbersRise(log, counters) && KeyOf(m) in counters && MessageNumber(m) == counters[KeyOf(m)] + 1
    ensures NumbersRise(log + [m], counters[KeyOf(m) := counters[KeyOf(m)] + 1])
  {
    hide MessageNumber;
  }

  lemma LatestAfter(log: seq<AgentMessage>, m: AgentMessage, key: ThreadKey, t: ProjectThread)
    requires LatestIs(log, key, t) && (key == KeyOf(m) ==> m.createdAt >= t.lastMessageAt)
    ensures LatestIs(log + [m], key, if key == KeyOf(m) then t.(lastMessageAt := m.createdAt) else t)
  {
    InThreadAppend(log, m, key);
    hide InThread;
  }

  lemma TimesAfter(log: seq<AgentMessage>, t: ProjectThread, m: AgentMessage)
    requires TimesRise(log) && LatestIs(log, KeyOf(m), t) && m.createdAt >= t.lastMessageAt
    ensures TimesRise(log + [m])
  {
    hide InThread;
  }

  lemma AcceptedTimes(log: seq<AgentMessage>, threads: map<ThreadKey, ProjectThread>, m: AgentMessage)
    requires Timed(log, threads) && KeyOf(m) in threads && m.createdAt >= threads[KeyOf(m)].lastMessageAt
    ensures Timed(log + [m], threads[KeyOf(m) := threads[KeyOf(m)].(lastMessageAt := m.createdAt)])
  {
    forall k | k in threads
      ensures LatestIs(log + [m], k, if k == KeyOf(m) then threads[k].(lastMessageAt := m.createdAt) else threads[k])
    {
      LatestAfter(log, m, k, threads[k]);
    }
    TimesAfter(log, threads[KeyOf(m)], m);
    hide LatestIs, TimesRise;
  }

  /** The new message's key is new: its number is above all numbers of its thread. */
  lemma KeyIsNew(log: seq<AgentMessage>, counters: map<ThreadKey, nat>, byKey: map<MessageKey, AgentMessage>,
                 m: AgentMessage)
    requires NumbersRise(log, counters) && IndexAgrees(log, byKey)
    requires KeyOf(m) in counters && MessageNumber(m) == counters[KeyOf(m)] + 1
    ensures MessageKeyOf(m) !in byKey
  {
    hide NumberOf;
    forall i | 0 <= i < |log| ensures MessageKeyOf(log[i]) != MessageKeyOf(m) {
      assert KeyOf(log[i]) == KeyOf(m) ==> MessageNumber(log[i]) != MessageNumber(m);
    }
  }

  lemma AcceptedIndex(log: seq<AgentMessage>, byKey: map<MessageKey, AgentMessage>, m: AgentMessage)
    requires IndexAgrees(log, byKey) && MessageKeyOf(m) !in byKey
    ensures IndexAgrees(log + [m], byKey[MessageKeyOf(m) := m])
  {
    var log', byKey' := log + [m], byKey[MessageKeyOf(m) := m];
    assert log'[|log|] == m;
    forall k | k in byKey'
      ensures exists i :: 0 <= i < |log'| && log'[i] == byKey'[k] && MessageKeyOf(log'[i]) == k
    {
      if k != MessageKeyOf(m) {
        var i :| 0 <= i < |log| && log[i] == byKey[k] && MessageKeyOf(log[i]) == k;
        assert log'[i] == log[i];
      }
    }
  }

  /** What publish_reply has checked before it goes on: the target is an indexed request. */
  predicate MayFollow(byKey: map<MessageKey, AgentMessage>, m: AgentMessage) {
    match m.inReplyTo
    case None => m.messageKind == Request
    case Some(r) =>
      && m.messageKind == Reply && (r.projectId, r.threadId) == KeyOf(m)
      && RefKey(r) in byKey && byKey[RefKey(r)].messageKind == Request
  }

  lemma AcceptedReplies(log: seq<AgentMessage>, byKey: map<MessageKey, AgentMessage>, m: AgentMessage)
    requires IndexAgrees(log, byKey) && RepliesFollow(log) && MayFollow(byKey, m)
    ensures RepliesFollow(log + [m])
  {
    var log' := log + [m];
    forall i | 0 <= i < |log'| ensures Follows(log', i) {
      if i < |log| {
        assert Follows(log, i);
        if log[i].inReplyTo.Some? {
          var j :| 0 <= j < i && Answers(log[i], log[i].inReplyTo.value, log[j]);
          assert Answers(log'[i], log[i].inReplyTo.value, log'[j]);
        }
      } else if m.inReplyTo.Some? {
        var r := m.inReplyTo.value;
        var j :| 0 <= j < |log| && log[j] == byKey[RefKey(r)] && MessageKeyOf(log[j]) == RefKey(r);
        assert Answers(log'[i], r, log'[j]);
      }
    }
  }

  lemma AcceptedKeepsConsistent(b: Bus, draft: AgentMessage, b': Bus, m: AgentMessage)
    requires Consistent(b) && Accepted(b, draft, b', m) && MayFollow(b.byKey, draft)
    ensures Consistent(b')
  {
    AcceptedLists(b, draft, b', m);
    AcceptedThreads(b, draft, b', m);
    hide ListsAgree, ThreadsNumbered, NumbersRise, Timed, IndexAgrees, RepliesFollow, MessageNumber;
    AcceptedNumbers(b.all, b.messageCounters, m);
    AcceptedTimes(b.all, b.threads, m);
    KeyIsNew(b.all, b.messageCounters, b.byKey, m);
    AcceptedIndex(b.all, b.byKey, m);
    AcceptedReplies(b.all, b.byKey, m);
  }

  lemma HigherCounter(log: seq<AgentMessage>, counters: map<ThreadKey, nat>, key: ThreadKey)
    requires NumbersRise(log, counters) && key in counters
    ensures NumbersRise(log, counters[key := counters[key] + 1])
  {
    hide MessageNumber;
  }

  /** A counter that has moved without a message leaves everything in agreement. */
  lemma SkippedNumber(b: Bus, key: ThreadKey)
    requires Consistent(b) && key in b.messageCounters
    ensures Consistent(b.(messageCounters := b.messageCounters[key := b.messageCounters[key] + 1]))
  {
    HigherCounter(b.all, b.messageCounters, key);
    hide ThreadsNumbered, NumbersRise, Timed, IndexAgrees, RepliesFollow, InThread;
  }

  /** A new thread is under a key of its own, and no message is filed there yet. */
  ghost predicate Opened(b: Bus, t: ProjectThread, b': Bus) {
    var key := (t.projectId, t.threadId);
    && key !in b.threads && InThread(b.all, key) == []
    && (forall i | 0 <= i < |b.all| :: KeyOf(b.all[i]) != key)
    && NumberOf(THREAD_ID_PREFIX, key.1) == Some(b.threadCounter + 1)
    && t.createdAt == t.lastMessageAt
    && b' == b.(threadCounter := b.threadCounter + 1, threads := b.threads[key := t],
                byThread := b.byThread[key := []], messageCounters := b.messageCounters[key := 0])
  }

  lemma OpenOutcome(b: Bus, o: Opening)
    requires ListsAgree(b) && ThreadsNumbered(b.threads, b.threadCounter)
    ensures var (b', r) := Open(b, o);
            if r.Ok? then Opened(b, r.value, b') else b' == b.(threadCounter := b.threadCounter + 1)
  {
    var id := Sequenced(THREAD_ID_PREFIX, b.threadCounter + 1);
    SequencedNumber(THREAD_ID_PREFIX, b.threadCounter + 1);
    var key := (if ThreadOf(o, id).Some? then ThreadOf(o, id).value.projectId else "", id);
    assert key !in b.threads;
    NoMessages(b, key);
    InThreadOnly(b.all, key);
    hide MessageNumber, InThread, NumberOf, Sequenced, IsIdentifier;
  }

  lemma OpenedLists(b: Bus, t: ProjectThread, b': Bus)
    requires ListsAgree(b) && Opened(b, t, b')
    ensures ListsAgree(b')
  {
    hide InThread, NumberOf;
  }

  lemma OpenedThreads(b: Bus, t: ProjectThread, b': Bus)
    requires ThreadsNumbered(b.threads, b.threadCounter) && Opened(b, t, b')
    ensures ThreadsNumbered(b'.threads, b'.threadCounter)
  {
    hide InThread, NumberOf;
  }

  lemma OpenedNumbers(b: Bus, t: ProjectThread, b': Bus)
    requires NumbersRise(b.all, b.messageCounters) && Opened(b, t, b')
    ensures NumbersRise(b'.all, b'.messageCounters)
  {
    hide InThread, NumberOf, MessageNumber;
  }

  lemma OpenedTimes(b: Bus, t: ProjectThread, b': Bus)
    requires Timed(b.all, b.threads) && Opened(b, t, b')
    ensures Timed(b'.all, b'.threads)
  {
    assert LatestIs(b.all, (t.projectId, t.threadId), t);
    hide LatestIs, TimesRise, InThread, NumberOf;
  }

  lemma OpenLeavesLog(b: Bus, o: Opening)
    ensures var b' := Open(b, o).0; b'.all == b.all && b'.byKey == b.byKey
  {
    hide IsIdentifier, Sequenced;
  }

  lemma OpenKeepsConsistent(b: Bus, o: Opening)
    requires Consistent(b)
    ensures Consistent(Open(b, o).0)
  {
    OpenOutcome(b, o);
    var (b', r) := Open(b, o);
    hide Open, Opened;
    if r.Ok? {
      OpenedLists(b, r.value, b');
      OpenedThreads(b, r.value, b');
      OpenedNumbers(b, r.value, b');
      OpenedTimes(b, r.value, b');
      assert b'.all == b.all && b'.byKey == b.byKey by { OpenLeavesLog(b, o); }
      hide ListsAgree, ThreadsNumbered, NumbersRise, Timed, IndexAgrees, RepliesFollow;
    } else {
      assert ThreadsNumbered(b'.threads, b'.threadCounter) by { hide NumberOf; }
      assert ListsAgree(b') by { hide InThread; }
      hide ListsAgree, ThreadsNumbered, NumbersRise, Timed, IndexAgrees, RepliesFollow;
    }
  }

  lemma PublishKeepsConsistent(b: Bus, draft: AgentMessage)
    requires Consistent(b) && MayFollow(b.byKey, draft)
    ensures Consistent(Publish(b, draft).0)
  {
    PublishOutcome(b, draft);
    var (b', r) := Publish(b, draft);
    hide Publish, Accepted, Consistent;
    if r.Ok? {
      AcceptedKeepsConsistent(b, draft, b', r.value);
    } else if b' != b {
      SkippedNumber(b, KeyOf(draft));
    }
  }

  lemma DoKeepsConsistent(b: Bus, op: Op)
    requires Consistent(b)
    ensures Consistent(Do(b, op))
  {
    hide Consistent, Publish, Open;
    match op
    case OpenThread(o) => OpenKeepsConsistent(b, o);
    case PublishRequest(r) => PublishKeepsConsistent(b, RequestDraft(r));
    case PublishReply(r) =>
      if ReplyRefusal(b, r).None? {
        PublishKeepsConsistent(b, ReplyDraft(r));
      }
  }

  /** In every reachable state, after any mixture of successful and failed operations, the
      redundant collections agree with the plain log. */
  lemma {:induction false} BusTheorem(ops: seq<Op>)
    ensures Consistent(DoAll(ops))
  {
    if ops == [] {
      EmptyIsConsistent();
    } else {
      BusTheorem(ops[..|ops| - 1]);
      hide Consistent, Do;
      DoKeepsConsistent(DoAll(ops[..|ops| - 1]), ops[|ops| - 1]);
    }
  }

  lemma EmptyIsConsistent()
    ensures Consistent(EMPTY)
  {
  }

  /** No two logged messages share a key, so ids are distinct within a thread. */
  lemma KeysDistinct(ops: seq<Op>, i: nat, j: nat)
    requires i < j < |DoAll(ops).all|
    ensures MessageKeyOf(DoAll(ops).all[i]) != MessageKeyOf(DoAll(ops).all[j])
  {
    BusTheorem(ops);
    var b := DoAll(ops);
    hide DoAll, ListsAgree, ThreadsNumbered, Timed, IndexAgrees, RepliesFollow, NumberOf;
    assert NumbersRise(b.all, b.messageCounters);
  }

  // ----- What is published -----------------------------------------------------------------------

  /** The log has exactly one message more, and that message is this request, unchanged: in its
      recipient's inbox, and in no other. */
  ghost predicate IsRequestLogged(log: seq<AgentMessage>, log': seq<AgentMessage>, r: AgentRequest, m: AgentMessage) {
    && log' == log + [m]
    && m.projectId == r.projectId && m.threadId == r.threadId
    && m.senderRole == r.senderRole && m.recipientRole == r.recipientRole
    && m.messageKind == Request && m.body == r.body && m.createdAt == r.createdAt && m.inReplyTo == None
    && InboxGrows(log, log', m, r.projectId, r.recipientRole)
  }

  /** The same of a reply, which names its target and stands in the target's thread. */
  ghost predicate IsReplyLogged(log: seq<AgentMessage>, log': seq<AgentMessage>, r: AgentReply, m: AgentMessage) {
    && log' == log + [m]
    && m.projectId == r.inReplyTo.projectId && m.threadId == r.inReplyTo.threadId
    && m.senderRole == r.senderRole && m.recipientRole == r.recipientRole
    && m.messageKind == Reply && m.body == r.body && m.createdAt == r.createdAt && m.inReplyTo == Some(r.inReplyTo)
    && InboxGrows(log, log', m, r.inReplyTo.projectId, r.recipientRole)
  }

  /** The message is the newest entry of this one inbox. */
  ghost predicate InboxGrows(log: seq<AgentMessage>, log': seq<AgentMessage>, m: AgentMessage, project: string,
                             role: string) {
    forall p, q :: Inbox(log', p, q) == if p == project && q == role then Inbox(log, p, q) + [m] else Inbox(log, p, q)
  }

  lemma InboxAppend(log: seq<AgentMessage>, m: AgentMessage)
    ensures InboxGrows(log, log + [m], m, m.projectId, m.recipientRole)
  {
    assert (log + [m])[..|log|] == log;
  }

  /** A publish logs its draft with an id, or nothing. */
  lemma DraftIsLogged(b: Bus, draft: AgentMessage)
    ensures var (b', r) := Publish(b, draft);
            if r.Ok? then b'.all == b.all + [r.value] && r.value == draft.(messageId := r.value.messageId)
            else b'.all == b.all && b'.byKey == b.byKey && b'.byThread == b.byThread && b'.threads == b.threads
  {
    hide IsIdentifier, Sequenced;
  }

  lemma RequestIsLogged(b: Bus, request: AgentRequest)
    ensures var (b', r) := Publish(b, RequestDraft(request));
            r.Ok? ==> IsRequestLogged(b.all, b'.all, request, r.value)
  {
    DraftIsLogged(b, RequestDraft(request));
    hide Publish, Inbox;
    var r := Publish(b, RequestDraft(request)).1;
    if r.Ok? {
      InboxAppend(b.all, r.value);
    }
  }

  lemma ReplyIsLogged(b: Bus, reply: AgentReply)
    ensures var (b', r) := Publish(b, ReplyDraft(reply));
            r.Ok? ==> IsReplyLogged(b.all, b'.all, reply, r.value)
  {
    DraftIsLogged(b, ReplyDraft(reply));
    hide Publish, Inbox;
    var r := Publish(b, ReplyDraft(reply)).1;
    if r.Ok? {
      InboxAppend(b.all, r.value);
    }
  }

  /** Exactly when a publish is accepted, in every reachable state: the thread has been opened,
      the message is not older than the thread's last one, or its opening if there is none, and
      the next number still fits into an identifier. */
  lemma AcceptedIff(ops: seq<Op>, draft: AgentMessage)
    ensures var b, key := DoAll(ops), KeyOf(draft);
            Publish(b, draft).1.Ok? <==>
              && key in b.threads && key in b.messageCounters
              && draft.createdAt >= LatestTime(b.threads[key].createdAt, InThread(b.all, key))
              && IsIdentifier(Sequenced(MESSAGE_ID_PREFIX, b.messageCounters[key] + 1))
  {
    BusTheorem(ops);
    var b, key := DoAll(ops), KeyOf(draft);
    hide DoAll, NumbersRise, IndexAgrees, RepliesFollow, ThreadsNumbered, TimesRise, IsIdentifier, Sequenced, InThread;
    assert key in b.threads ==> LatestIs(b.all, key, b.threads[key]);
  }

  function LatestTime(start: real, messages: seq<AgentMessage>): real {
    if messages == [] then start else messages[|messages| - 1].createdAt
  }

  /** A publish that is refused gives the first of these reasons that holds. */
  lemma RefusedFor(b: Bus, draft: AgentMessage, e: BusError)
    requires ListsAgree(b)
    ensures var key := KeyOf(draft);
            Publish(b, draft).1 == Err(e) <==>
            if key !in b.threads then e == UnknownThread
            else if !IsIdentifier(Sequenced(MESSAGE_ID_PREFIX, b.messageCounters[key] + 1)) then e == InvalidMessageId
            else draft.createdAt < b.threads[key].lastMessageAt && e == BeforeLastMessage
  {
    hide IsIdentifier, Sequenced, InThread;
  }

  /** The same of a reply, before it gets as far as a publish. */
  lemma ReplyRefusedFor(ops: seq<Op>, reply: AgentReply, e: BusError)
    ensures var b := DoAll(ops);
            ReplyRefusal(b, reply) == Some(e) <==>
            if forall i | 0 <= i < |b.all| :: MessageKeyOf(b.all[i]) != RefKey(reply.inReplyTo) then
              e == UnknownInReplyTo
            else
              e == ReplyTargetMustBeRequest &&
              exists i :: 0 <= i < |b.all| && MessageKeyOf(b.all[i]) == RefKey(reply.inReplyTo)
                  && b.all[i].messageKind != Request
  {
    BusTheorem(ops);
    var b := DoAll(ops);
    hide DoAll, NumbersRise, ListsAgree, RepliesFollow, ThreadsNumbered, Timed;
    assert IndexAgrees(b.all, b.byKey);
  }

  /** Exactly when a reply gets as far as a request does, in every reachable state: the log has a
      request under the key that the reply names. */
  lemma ReplyGoesOnIff(ops: seq<Op>, reply: AgentReply)
    ensures var b := DoAll(ops);
            ReplyRefusal(b, reply).None? <==>
            exists i :: 0 <= i < |b.all| && MessageKeyOf(b.all[i]) == RefKey(reply.inReplyTo)
                && b.all[i].messageKind == Request
  {
    BusTheorem(ops);
    var b := DoAll(ops);
    hide DoAll, NumbersRise, ListsAgree, RepliesFollow, ThreadsNumbered, Timed;
    assert IndexAgrees(b.all, b.byKey);
  }

  // ----- Counter and allocator ------------------------------------------------------------------------

  /** A publish that moves its thread's counter and is then refused. */
  predicate Refused(b: Bus, draft: AgentMessage) {
    Publish(b, draft).1.Err? && Publish(b, draft).1.error != UnknownThread
  }

  /** This operation uses up a number of thread k without logging a message. */
  predicate Wastes(b: Bus, op: Op, k: ThreadKey) {
    match op
    case OpenThread(_) => false
    case PublishRequest(r) => KeyOf(RequestDraft(r)) == k && Refused(b, RequestDraft(r))
    case PublishReply(r) => ReplyRefusal(b, r).None? && KeyOf(ReplyDraft(r)) == k && Refused(b, ReplyDraft(r))
  }

  function WastedIn(ops: seq<Op>, k: ThreadKey): nat {
    if ops == [] then 0
    else
      var before := ops[..|ops| - 1];
      WastedIn(before, k) + if Wastes(DoAll(before), ops[|ops| - 1], k) then 1 else 0
  }

  /** The messages are numbered from 1 without gaps. */
  ghost predicate NoGaps(messages: seq<AgentMessage>) {
    forall i | 0 <= i < |messages| :: messages[i].messageId == Sequenced(MESSAGE_ID_PREFIX, i + 1)
  }

  /** A thread's counter is the number of its messages and of its wasted numbers. */
  ghost predicate Counted(b: Bus, k: ThreadKey, wasted: nat) {
    if k !in b.threads then wasted == 0
    else
      && k in b.messageCounters && k in b.byThread
      && b.messageCounters[k] == |b.byThread[k]| + wasted
      && (wasted == 0 ==> NoGaps(b.byThread[k]))
  }

  lemma PublishCounted(b: Bus, draft: AgentMessage, k: ThreadKey, wasted: nat)
    requires ListsAgree(b) && Counted(b, k, wasted)
    ensures Counted(Publish(b, draft).0, k, wasted + if KeyOf(draft) == k && Refused(b, draft) then 1 else 0)
  {
    hide InThread, IsIdentifier, Sequenced;
  }

  lemma OpenCounted(b: Bus, o: Opening, k: ThreadKey, wasted: nat)
    requires Consistent(b) && Counted(b, k, wasted)
    ensures Counted(Open(b, o).0, k, wasted)
  {
    OpenLists(b, o, k);
    hide Consistent, Open, Sequenced;
  }

  lemma CountedStep(b: Bus, op: Op, k: ThreadKey, wasted: nat)
    requires Consistent(b) && Counted(b, k, wasted)
    ensures Counted(Do(b, op), k, wasted + if Wastes(b, op, k) then 1 else 0)
  {
    hide ListsAgree, ThreadsNumbered, NumbersRise, Timed, IndexAgrees, RepliesFollow, Open, Publish, Counted, Refused;
    match op
    case OpenThread(o) => OpenCounted(b, o, k, wasted);
    case PublishRequest(r) => PublishCounted(b, RequestDraft(r), k, wasted);
    case PublishReply(r) => PublishCounted(b, ReplyDraft(r), k, wasted);
  }

  /** Over any run: a thread's counter is the number of its messages plus the number of
      publishes refused after the counter had moved; without such a publish the ids are 1, 2, 3,
      and so on, which is what the allocator of the database-backed bus takes. */
  lemma {:induction false} CounterTheorem(ops: seq<Op>, k: ThreadKey)
    ensures Counted(DoAll(ops), k, WastedIn(ops, k))
  {
    if ops != [] {
      BusTheorem(ops[..|ops| - 1]);
      CounterTheorem(ops[..|ops| - 1], k);
      hide Consistent, Do, Counted, Wastes;
      CountedStep(DoAll(ops[..|ops| - 1]), ops[|ops| - 1], k, WastedIn(ops[..|ops| - 1], k));
    }
  }

  /** How many numbers have been wasted since the thread's last message. */
  function WastedSince(ops: seq<Op>, k: ThreadKey): nat {
    if ops == [] then 0
    else
      var before, op := ops[..|ops| - 1], ops[|ops| - 1];
      SinceAfter(DoAll(before), op, k, WastedSince(before, k))
  }

  function SinceAfter(b: Bus, op: Op, k: ThreadKey, since: nat): nat {
    if Wastes(b, op, k) then since + 1
    else if k in b.byThread && k in Do(b, op).byThread && Do(b, op).byThread[k] != b.byThread[k] then 0
    else since
  }

  function LastNumber(messages: seq<AgentMessage>): int {
    if messages == [] then 0 else MessageNumber(messages[|messages| - 1])
  }

  /** A thread's ids are well formed, their numbers rise, and its counter is the last of them
      plus the numbers wasted since. */
  ghost predicate Tracks(b: Bus, k: ThreadKey, since: nat) {
    if k !in b.threads then since == 0
    else
      && k in b.messageCounters && k in b.byThread
      && Rising(b.byThread[k])
      && b.messageCounters[k] == LastNumber(b.byThread[k]) + since
  }

  ghost predicate Rising(messages: seq<AgentMessage>) {
    && (forall i | 0 <= i < |messages| :: IsIdentifier(messages[i].messageId) && MessageNumber(messages[i]) >= 0)
    && (forall i, j | 0 <= i < j < |messages| :: MessageNumber(messages[i]) < MessageNumber(messages[j]))
  }

  lemma RisingAppend(messages: seq<AgentMessage>, m: AgentMessage)
    requires Rising(messages) && IsIdentifier(m.messageId) && MessageNumber(m) > LastNumber(messages) >= 0
    ensures Rising(messages + [m])
  {
    hide MessageNumber, IsIdentifier;
  }

  lemma AcceptedId(b: Bus, draft: AgentMessage)
    requires Publish(b, draft).1.Ok?
    ensures IsIdentifier(Publish(b, draft).1.value.messageId)
  {
    hide IsIdentifier, Sequenced;
  }

  lemma PublishTracks(b: Bus, draft: AgentMessage, since: nat)
    requires ListsAgree(b) && Tracks(b, KeyOf(draft), since)
    ensures var (b', r) := Publish(b, draft);
            Tracks(b', KeyOf(draft), if r.Ok? then 0 else if r.error != UnknownThread then since + 1 else since)
  {
    PublishOutcome(b, draft);
    var (b', r) := Publish(b, draft);
    hide MessageNumber, IsIdentifier, InThread, Rising;
    if r.Ok? {
      AcceptedId(b, draft);
      hide Publish;
      LastIsNatural(b.byThread[KeyOf(draft)]);
      RisingAppend(b.byThread[KeyOf(draft)], r.value);
    }
  }

  lemma LastIsNatural(messages: seq<AgentMessage>)
    requires Rising(messages)
    ensures LastNumber(messages) >= 0
  {
  }

  /** A publish in one thread leaves what is kept of another alone. */
  lemma PublishElsewhere(b: Bus, draft: AgentMessage, k: ThreadKey)
    requires KeyOf(draft) != k
    ensures var b' := Publish(b, draft).0;
            && (k in b'.threads <==> k in b.threads) && (k in b'.byThread <==> k in b.byThread)
            && (k in b'.messageCounters <==> k in b.messageCounters)
            && (k in b.byThread ==> b'.byThread[k] == b.byThread[k])
            && (k in b.messageCounters ==> b'.messageCounters[k] == b.messageCounters[k])
  {
    hide IsIdentifier, Sequenced;
  }

  lemma PublishInThread(b: Bus, draft: AgentMessage)
    requires ListsAgree(b)
    ensures var (b', r) := Publish(b, draft);
            var k := KeyOf(draft);
            && (r.Ok? ==> k in b.byThread && k in b'.byThread && b'.byThread[k] == b.byThread[k] + [r.value])
            && (r.Err? ==> b'.byThread == b.byThread)
  {
    hide IsIdentifier, Sequenced, InThread;
  }

  lemma DraftTracks(b: Bus, draft: AgentMessage, op: Op, k: ThreadKey, since: nat)
    requires ListsAgree(b) && Tracks(b, k, since)
    requires Do(b, op) == Publish(b, draft).0 && (Wastes(b, op, k) <==> KeyOf(draft) == k && Refused(b, draft))
    ensures Tracks(Do(b, op), k, SinceAfter(b, op, k, since))
  {
    PublishInThread(b, draft);
    if KeyOf(draft) == k {
      PublishTracks(b, draft, since);
    } else {
      PublishElsewhere(b, draft, k);
    }
    hide Publish, Do, Wastes, ListsAgree, Rising, MessageNumber;
  }

  lemma OpenLists(b: Bus, o: Opening, k: ThreadKey)
    requires Consistent(b)
    ensures var b' := Open(b, o).0;
            if k in b.threads then
              && k in b'.threads && k in b.byThread && k in b'.byThread && k in b.messageCounters
                 && k in b'.messageCounters
              && b'.byThread[k] == b.byThread[k] && b'.messageCounters[k] == b.messageCounters[k]
            else
              && k !in b.byThread
              && (k in b'.threads ==> k in b'.byThread && b'.byThread[k] == [] && k in b'.messageCounters
                                      && b'.messageCounters[k] == 0)
  {
    OpenOutcome(b, o);
    hide NumbersRise, Timed, IndexAgrees, RepliesFollow, Open, InThread, Sequenced, NumberOf;
  }

  lemma OpenTracks(b: Bus, o: Opening, k: ThreadKey, since: nat)
    requires Consistent(b) && Tracks(b, k, since)
    ensures var op := OpenThread(o); Tracks(Do(b, op), k, SinceAfter(b, op, k, since))
  {
    OpenLists(b, o, k);
    hide Consistent, Open, ListsAgree, MessageNumber, IsIdentifier;
  }

  lemma StepTracks(b: Bus, op: Op, k: ThreadKey, since: nat)
    requires Consistent(b) && Tracks(b, k, since)
    ensures Tracks(Do(b, op), k, SinceAfter(b, op, k, since))
  {
    hide Publish, Tracks, ListsAgree, ThreadsNumbered, NumbersRise, Timed, IndexAgrees, RepliesFollow, Refused;
    match op
    case OpenThread(o) => OpenTracks(b, o, k, since);
    case PublishRequest(r) => DraftTracks(b, RequestDraft(r), op, k, since);
    case PublishReply(r) =>
      if ReplyRefusal(b, r).None? {
        DraftTracks(b, ReplyDraft(r), op, k, since);
      }
  }

  lemma {:induction false} RunTracks(ops: seq<Op>, k: ThreadKey)
    ensures Tracks(DoAll(ops), k, WastedSince(ops, k))
  {
    if ops != [] {
      BusTheorem(ops[..|ops| - 1]);
      RunTracks(ops[..|ops| - 1], k);
      hide Consistent, Do, Tracks, SinceAfter;
      StepTracks(DoAll(ops[..|ops| - 1]), ops[|ops| - 1], k, WastedSince(ops[..|ops| - 1], k));
    }
  }

  function Ids(messages: seq<AgentMessage>): seq<string> {
    seq(|messages|, i requires 0 <= i < |messages| => messages[i].messageId)
  }

  lemma RisingAllocates(messages: seq<AgentMessage>)
    requires Rising(messages)
    ensures LastNumber(messages) >= 0
    ensures Allocate(MESSAGE_ID_PREFIX, Ids(messages)) == Some(Sequenced(MESSAGE_ID_PREFIX, LastNumber(messages) + 1))
  {
    var ids := Ids(messages);
    forall i | 0 <= i < |ids| ensures NumberOf(MESSAGE_ID_PREFIX, ids[i]) == Some(MessageNumber(messages[i])) {
      assert ids[i] == messages[i].messageId;
    }
    hide NumberOf, Allocate, Sequenced, IsIdentifier;
    AllocatesAfterLast(MESSAGE_ID_PREFIX, ids);
  }

  /** Over any run: the id that a thread's next message gets is the one that the allocator of
      the database-backed bus takes for the thread's stored ids, exactly if no publish has
      been refused after the counter moved since the thread's last message. */
  lemma AllocatorTheorem(ops: seq<Op>, draft: AgentMessage)
    requires Publish(DoAll(ops), draft).1.Ok?
    ensures var b, key := DoAll(ops), KeyOf(draft);
            && key in b.byThread
            && (Allocate(MESSAGE_ID_PREFIX, Ids(b.byThread[key])) == Some(Publish(b, draft).1.value.messageId) <==>
                WastedSince(ops, key) == 0)
  {
    var b, key := DoAll(ops), KeyOf(draft);
    RunTracks(ops, key);
    NextId(b, draft);
    hide DoAll, Publish, WastedSince, Rising, MessageNumber, Allocate, Sequenced, LastNumber;
    RisingAllocates(b.byThread[key]);
    SameIdSameNumber(LastNumber(b.byThread[key]) + 1, b.messageCounters[key] + 1);
  }

  lemma SameIdSameNumber(m: nat, n: nat)
    ensures Sequenced(MESSAGE_ID_PREFIX, m) == Sequenced(MESSAGE_ID_PREFIX, n) <==> m == n
  {
    hide Sequenced;
    if Sequenced(MESSAGE_ID_PREFIX, m) == Sequenced(MESSAGE_ID_PREFIX, n) {
      SequencedInjective(MESSAGE_ID_PREFIX, m, n);
    }
  }

  lemma NextId(b: Bus, draft: AgentMessage)
    requires Publish(b, draft).1.Ok?
    ensures var key := KeyOf(draft);
            && key in b.threads && key in b.messageCounters && key in b.byThread
            && Publish(b, draft).1.value.messageId == Sequenced(MESSAGE_ID_PREFIX, b.messageCounters[key] + 1)
  {
    hide IsIdentifier, Sequenced;
  }

  /** After a publish refused for its time there is a gap: the thread's next message gets a
      number that the allocator would not choose. */
  lemma FailureLeavesGap(b: Bus, early: AgentMessage, next: AgentMessage)
    requires Counted(b, KeyOf(early), 0) && KeyOf(next) == KeyOf(early)
    requires Publish(b, early).1 == Err(BeforeLastMessage)
    requires var b1 := Publish(b, early).0; Publish(b1, next).1.Ok?
    ensures var key, b1 := KeyOf(early), Publish(b, early).0;
            && b1.byThread == b.byThread
            && Publish(b1, next).1.value.messageId == Sequenced(MESSAGE_ID_PREFIX, |b.byThread[key]| + 2)
            && Publish(b1, next).1.value.messageId != Sequenced(MESSAGE_ID_PREFIX, |b.byThread[key]| + 1)
  {
    var n := |b.byThread[KeyOf(early)]|;
    SequencedNumber(MESSAGE_ID_PREFIX, n + 1);
    SequencedNumber(MESSAGE_ID_PREFIX, n + 2);
    hide IsIdentifier, Sequenced, NumberOf;
  }
}
