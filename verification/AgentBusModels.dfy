/** The messages and threads of the agent bus (core/agent_bus_models.py). Identifiers and
    bodies are taken as already normalised; times are reals. */
module AgentBusModels {
  import opened Wrappers

  datatype AgentMessageRef = AgentMessageRef(projectId: string, threadId: string, messageId: string)

  datatype MessageKind = Request | Reply

  datatype AgentMessage = AgentMessage(
    projectId: string,
    threadId: string,
    messageId: string,
    senderRole: string,
    recipientRole: string,
    messageKind: MessageKind,
    body: string,
    createdAt: real,
    inReplyTo: Option<AgentMessageRef>
  )

  /** (project_id, thread_id) */
  type ThreadKey = (string, string)

  function KeyOf(m: AgentMessage): ThreadKey {
    (m.projectId, m.threadId)
  }

  /** The messages of one thread, in order. */
  function InThread(log: seq<AgentMessage>, key: ThreadKey): seq<AgentMessage> {
    if log == [] then []
    else
      var last := log[|log| - 1];
      InThread(log[..|log| - 1], key) + (if KeyOf(last) == key then [last] else [])
  }

  lemma InThreadAppend(log: seq<AgentMessage>, m: AgentMessage, key: ThreadKey)
    ensures InThread(log + [m], key) == if KeyOf(m) == key then InThread(log, key) + [m] else InThread(log, key)
  {
    assert (log + [m])[..|log|] == log;
    assert InThread(log, key) + [] == InThread(log, key);
  }
}
