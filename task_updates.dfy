/** The protocol library's task updater, reduced to the effects it records:
    every call appends one effect to `trace`. */
module TaskUpdates {
  import opened Results
  import opened A2A

  datatype Effect =
    | TaskSubmitted
    | WorkStarted
    | ArtifactAdded(parts: seq<Part>)
    | TaskCompleted
    | StatusUpdated(state: TaskState, message: Option<Message>)

  class TaskUpdater {
    const taskId: string
    const contextId: string
    var trace: seq<Effect>

    constructor(taskId: string, contextId: string)
      ensures this.taskId == taskId && this.contextId == contextId
      ensures trace == []
    {
      this.taskId := taskId;
      this.contextId := contextId;
      trace := [];
    }

    /** `new_agent_message`: an agent-authored message on this updater's task. */
    function NewAgentMessage(parts: seq<Part>): (m: Message)
      ensures m.role == Agent && m.parts == parts
      ensures m.taskId == Some(taskId) && m.contextId == Some(contextId)
    {
      Message(Agent, parts, Some(contextId), Some(taskId))
    }

    method Submit()
      modifies this
      ensures trace == old(trace) + [TaskSubmitted]
    {
      trace := trace + [TaskSubmitted];
    }

    method StartWork()
      modifies this
      ensures trace == old(trace) + [WorkStarted]
    {
      trace := trace + [WorkStarted];
    }

    method AddArtifact(parts: seq<Part>)
      modifies this
      ensures trace == old(trace) + [ArtifactAdded(parts)]
    {
      trace := trace + [ArtifactAdded(parts)];
    }

    method Complete()
      modifies this
      ensures trace == old(trace) + [TaskCompleted]
    {
      trace := trace + [TaskCompleted];
    }

    method UpdateStatus(state: TaskState, message: Option<Message>)
      modifies this
      ensures trace == old(trace) + [StatusUpdated(state, message)]
    {
      trace := trace + [StatusUpdated(state, message)];
    }
  }
}
