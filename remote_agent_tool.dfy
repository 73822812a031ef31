/** The tool through which the host agent talks to the remote calendar
    agent (a2adk/a2atool.py): one message exchange per call, the
    session-state bookkeeping that threads a non-terminal task into the
    next request, and the auth-required suspension with its polling loop.
    The remote agent is a function from request to response; polling reads
    the remote agent's successive answers from a sequence. */
module RemoteAgentTool {
  import opened Results
  import opened A2A
  import opened Text
  import opened TaskUpdates

  const TaskIdKey: string := "task_id"
  const TaskSuspendedKey: string := "task_suspended"
  const DependentTaskKey: string := "dependent_task"
  const CheckingOutputText: string := "Checking calendar agent output"

  /** A value in the session state dictionary; a task is stored by value. */
  datatype StateValue = NoneValue | BoolValue(b: bool) | StringValue(s: string) | TaskSnapshot(task: Task)

  type State = map<string, StateValue>

  /** `state.get(key)`. */
  function StateGet(state: State, key: string): StateValue
  {
    if key in state then state[key] else NoneValue
  }

  /** Python truthiness of a state value; a dumped task is a non-empty dict. */
  predicate Truthy(v: StateValue)
  {
    match v
    case NoneValue => false
    case BoolValue(b) => b
    case StringValue(s) => s != ""
    case TaskSnapshot(_) => true
  }

  datatype ToolError =
    | InvalidTaskId            // the stored task id is neither None nor a string
    | MissingStatusMessage     // a task reply without artifact text and without a status message
    | MissingDependentTask     // suspended, but no dependent task stored
    | InvalidDependentTask     // the stored dependent task does not validate as a task
    | DependentTaskFailed      // a poll got an error response
    | StillPolling             // the remote agent's answers ran out before completion

  datatype SendResult = TaskResult(task: Task) | MessageResult(message: Message)

  /** A `message/send` response: success with a task or a message, or a
      JSON-RPC error. */
  datatype SendResponse = SendSuccess(result: SendResult) | SendError(code: int, message: string)

  /** A `tasks/get` response. */
  datatype GetTaskResponse = GetTaskSuccess(task: Task) | GetTaskError(code: int)

  /** The agent card fields the tool keeps. */
  datatype RemoteCard = RemoteCard(name: string, description: string, pushNotifications: Option<bool>)

  /** The outgoing request of a call: a user message with the tool's text,
      on the session's context and the remembered task, if any. */
  function RequestFor(message: string, sessionId: string, state: State): (r: Result<Message, ToolError>)
    ensures r.Failure? <==> StateGet(state, TaskIdKey).BoolValue? || StateGet(state, TaskIdKey).TaskSnapshot?
    ensures r.Success? ==>
              r.value.role == User && r.value.parts == [TextPart(message)] && r.value.contextId == Some(sessionId)
    ensures r.Success? ==>
              (r.value.taskId.Some? <==> StateGet(state, TaskIdKey).StringValue?)
              && (r.value.taskId.Some? ==> r.value.taskId.value == StateGet(state, TaskIdKey).s)
  {
    match StateGet(state, TaskIdKey)
    case NoneValue => Success(Message(User, [TextPart(message)], Some(sessionId), None))
    case StringValue(id) => Success(Message(User, [TextPart(message)], Some(sessionId), Some(id)))
    case _ => Failure(InvalidTaskId)
  }

  /** The texts of all artifacts' text parts, artifact by artifact. */
  function ArtifactTexts(artifacts: seq<Artifact>): (texts: seq<string>)
    ensures texts == [] <==> forall k :: 0 <= k < |artifacts| ==> TextParts(artifacts[k].parts) == []
    decreases |artifacts|
  {
    if artifacts == [] then []
    else ArtifactTexts(artifacts[..|artifacts| - 1]) + TextParts(artifacts[|artifacts| - 1].parts)
  }

  /** What the call takes from a response: the reply text pieces, the task
      to remember and the task to suspend on. */
  datatype Reply = Reply(content: seq<string>, nextTaskId: Option<string>, suspended: Option<Task>)

  function ReplyTo(response: SendResponse): (r: Result<Reply, ToolError>)
    ensures response.SendError? ==> r == Success(Reply([], None, None))
    ensures response.SendSuccess? && response.result.MessageResult? ==>
              r == Success(Reply(TextParts(response.result.message.parts), None, None))
    ensures response.SendSuccess? && response.result.TaskResult? ==>
              var task := response.result.task;
              (r.Failure? <==> ArtifactTexts(task.artifacts) == [] && task.status.message.None?)
              && (r.Failure? ==> r.error == MissingStatusMessage)
              && (r.Success? ==>
                    (r.value.content == if ArtifactTexts(task.artifacts) != [] then ArtifactTexts(task.artifacts)
                                        else TextParts(task.status.message.value.parts))
                    && r.value.nextTaskId == (if task.status.state == Completed then None else Some(task.id))
                    && r.value.suspended == (if task.status.state == AuthRequired then Some(task) else None))
  {
    match response
    case SendError(_, _) => Success(Reply([], None, None))
    case SendSuccess(MessageResult(m)) => Success(Reply(TextParts(m.parts), None, None))
    case SendSuccess(TaskResult(task)) =>
      var fromArtifacts := ArtifactTexts(task.artifacts);
      if fromArtifacts == [] && task.status.message.None? then Failure(MissingStatusMessage)
      else
        var content := if fromArtifacts != [] then fromArtifacts else TextParts(task.status.message.value.parts);
        Success(Reply(content,
                      if task.status.state == Completed then None else Some(task.id),
                      if task.status.state == AuthRequired then Some(task) else None))
  }

  /** The session state after a successful call. */
  function StateAfter(state: State, reply: Reply): (s: State)
    ensures TaskIdKey in s && s[TaskIdKey] == (if reply.nextTaskId.Some? then StringValue(reply.nextTaskId.value) else NoneValue)
    ensures reply.suspended.Some? ==>
              TaskSuspendedKey in s && s[TaskSuspendedKey] == BoolValue(true)
              && DependentTaskKey in s && s[DependentTaskKey] == TaskSnapshot(reply.suspended.value)
    ensures reply.suspended.None? ==>
              forall k :: k != TaskIdKey ==> (k in s <==> k in state) && (k in s ==> s[k] == state[k])
    ensures forall k :: k != TaskIdKey && k != TaskSuspendedKey && k != DependentTaskKey ==>
              (k in s <==> k in state) && (k in s ==> s[k] == state[k])
  {
    var suspended :=
      if reply.suspended.Some? then
        state[TaskSuspendedKey := BoolValue(true)][DependentTaskKey := TaskSnapshot(reply.suspended.value)]
      else state;
    suspended[TaskIdKey := if reply.nextTaskId.Some? then StringValue(reply.nextTaskId.value) else NoneValue]
  }

  /** The tool's session state and the updater of the task being served. */
  class ToolContext {
    const sessionId: string
    const updater: TaskUpdater
    var state: State

    constructor(sessionId: string, updater: TaskUpdater, state: State)
      ensures this.sessionId == sessionId && this.updater == updater && this.state == state
    {
      this.sessionId := sessionId;
      this.updater := updater;
      this.state := state;
    }
  }

  /** Collects the text of every artifact in order, as both handlers do. */
  method CollectArtifactTexts(artifacts: seq<Artifact>) returns (content: seq<string>)
    ensures content == ArtifactTexts(artifacts)
  {
    content := [];
    for i := 0 to |artifacts|
      invariant content == ArtifactTexts(artifacts[..i])
    {
      assert artifacts[..i + 1][..i] == artifacts[..i];
      content := content + TextParts(artifacts[i].parts);
    }
    assert artifacts[..|artifacts|] == artifacts;
  }

  predicate IsTaskComplete(task: Task)
  {
    task.status.state == Completed
  }

  /** How polling a dependent task ends. */
  datatype PollOutcome = Done(task: Task) | PollFailed | OutOfAnswers(task: Task)

  /** Polling `task` against the remote agent's successive answers: the
      outcome and the ids queried, one query per answer consumed. */
  function Poll(task: Task, answers: seq<GetTaskResponse>): (r: (PollOutcome, seq<string>))
    ensures |r.1| <= |answers|
    ensures IsTaskComplete(task) ==> r == (Done(task), [])
    ensures r.0.Done? ==> IsTaskComplete(r.0.task)
    ensures |r.1| >= 1 <==> !IsTaskComplete(task) && answers != []
    ensures |r.1| >= 1 ==> r.1[0] == task.id
    ensures r.0.PollFailed? ==> |r.1| >= 1 && answers[|r.1| - 1].GetTaskError?
    ensures r.0.OutOfAnswers? ==> |r.1| == |answers| && !IsTaskComplete(r.0.task)
    ensures |r.1| >= 1 && answers[|r.1| - 1].GetTaskError? ==> r.0.PollFailed?
    ensures forall k :: 0 <= k < |r.1| - 1 ==> answers[k].GetTaskSuccess?
    ensures r.0.Done? && r.1 == [] ==> r.0.task == task
    ensures r.0.Done? && r.1 != [] ==>
              answers[|r.1| - 1].GetTaskSuccess? && r.0.task == answers[|r.1| - 1].task
    decreases |answers|
  {
    if IsTaskComplete(task) then (Done(task), [])
    else if answers == [] then (OutOfAnswers(task), [])
    else
      match answers[0]
      case GetTaskError(_) => (PollFailed, [task.id])
      case GetTaskSuccess(next) =>
        var rest := Poll(next, answers[1..]);
        (rest.0, [task.id] + rest.1)
  }

  /** Every query after the first asks for the task of the previous
      answer: the poll follows the task the remote agent reports. */
  lemma {:induction false} PollFollowsAnswers(task: Task, answers: seq<GetTaskResponse>)
    ensures var queried := Poll(task, answers).1;
            forall k :: 0 <= k < |queried| - 1 ==>
              answers[k].GetTaskSuccess? && queried[k + 1] == answers[k].task.id
    decreases |answers|
  {
    if !IsTaskComplete(task) && answers != [] && answers[0].GetTaskSuccess? {
      var next := answers[0].task;
      PollFollowsAnswers(next, answers[1..]);
      var rest := Poll(next, answers[1..]).1;
      var queried := Poll(task, answers).1;
      assert queried == [task.id] + rest;
      forall k | 0 <= k < |queried| - 1
        ensures answers[k].GetTaskSuccess? && queried[k + 1] == answers[k].task.id
      {
        assert queried[k + 1] == rest[k];
        if k > 0 {
          assert answers[1..][k - 1] == answers[k];
        }
      }
    } else {
      assert |Poll(task, answers).1| <= 1;
    }
  }

  /** The loop invariant of the polling loop: what was queried so far
      followed by what polling the current task yields is the whole poll. */
  predicate PollResumes(task0: Task, answers: seq<GetTaskResponse>, i: nat, current: Task, queried: seq<string>)
    requires i <= |answers|
  {
    var rest := Poll(current, answers[i..]);
    Poll(task0, answers) == (rest.0, queried + rest.1)
  }

  lemma PollResumesStep(task0: Task, answers: seq<GetTaskResponse>, i: nat, current: Task, queried: seq<string>)
    requires i < |answers| && answers[i].GetTaskSuccess? && !IsTaskComplete(current)
    requires PollResumes(task0, answers, i, current, queried)
    ensures PollResumes(task0, answers, i + 1, answers[i].task, queried + [current.id])
  {
    assert answers[i..][0] == answers[i] && answers[i..][1..] == answers[i + 1..];
    var rest := Poll(answers[i].task, answers[i + 1..]);
    assert queried + ([current.id] + rest.1) == (queried + [current.id]) + rest.1;
  }

  class A2ATool {
    const agentEndpoint: string
    const name: string
    const description: string
    const isLongRunning: Option<bool>

    /** The tool takes its name, description and long-running flag from the
        remote agent's card. */
    constructor(agentUrl: string, card: RemoteCard)
      ensures agentEndpoint == agentUrl
      ensures name == card.name && description == card.description && isLongRunning == card.pushNotifications
    {
      agentEndpoint := agentUrl;
      name := card.name;
      description := card.description;
      isLongRunning := card.pushNotifications;
    }

    /** `__call__`: sends the message and returns the reply text; the
        session state remembers a non-terminal task and, for an
        auth-required one, the suspension. */
    method Call(message: string, ctx: ToolContext, send: Message -> SendResponse) returns (r: Result<string, ToolError>)
      modifies ctx
      ensures var request := RequestFor(message, ctx.sessionId, old(ctx.state));
              request.Failure? ==> r == Failure(request.error) && ctx.state == old(ctx.state)
      ensures var request := RequestFor(message, ctx.sessionId, old(ctx.state));
              request.Success? && ReplyTo(send(request.value)).Failure? ==>
                r == Failure(ReplyTo(send(request.value)).error) && ctx.state == old(ctx.state)
      ensures var request := RequestFor(message, ctx.sessionId, old(ctx.state));
              request.Success? && ReplyTo(send(request.value)).Success? ==>
                var reply := ReplyTo(send(request.value)).value;
                r == Success(Join(reply.content, "\n")) && ctx.state == StateAfter(old(ctx.state), reply)
    {
      var taskId: Option<string>;
      match StateGet(ctx.state, TaskIdKey) {
        case NoneValue => taskId := None;
        case StringValue(id) => taskId := Some(id);
        case _ => return Failure(InvalidTaskId);
      }
      var request := Message(User, [TextPart(message)], Some(ctx.sessionId), taskId);
      var reply := ReadReply(send(request));
      if reply.Failure? {
        return Failure(reply.error);
      }
      if reply.value.suspended.Some? {
        ctx.state := ctx.state[TaskSuspendedKey := BoolValue(true)];
        ctx.state := ctx.state[DependentTaskKey := TaskSnapshot(reply.value.suspended.value)];
      }
      var nextTaskId := reply.value.nextTaskId;
      ctx.state := ctx.state[TaskIdKey := if nextTaskId.Some? then StringValue(nextTaskId.value) else NoneValue];
      r := Success(Join(reply.value.content, "\n"));
    }

    /** The reply half of `__call__`: the content is grown from the
        artifacts' text, falling back to the status message; a task that
        is not completed is remembered, an auth-required one suspended on. */
    method ReadReply(response: SendResponse) returns (reply: Result<Reply, ToolError>)
      ensures reply == ReplyTo(response)
    {
      var nextTaskId: Option<string> := None;
      var suspended: Option<Task> := None;
      var content: seq<string> := [];
      if response.SendSuccess? {
        if response.result.TaskResult? {
          var task := response.result.task;
          content := CollectArtifactTexts(task.artifacts);
          if content == [] {
            if task.status.message.None? {
              return Failure(MissingStatusMessage);
            }
            content := TextParts(task.status.message.value.parts);
          }
          if task.status.state != Completed {
            nextTaskId := Some(task.id);
          }
          if task.status.state == AuthRequired {
            suspended := Some(task);
          }
        } else {
          content := TextParts(response.result.message.parts);
        }
      }
      reply := Success(Reply(content, nextTaskId, suspended));
    }

    /** `_is_task_complete`. */
    function IsComplete(task: Task): (b: bool)
      ensures b <==> task.status.state == Completed
    {
      IsTaskComplete(task)
    }

    /** `_wait_for_dependent_task`: queries the remote agent for the current
        task until it is completed; an error answer aborts. */
    method WaitForDependentTask(dependentTask: Task, answers: seq<GetTaskResponse>)
      returns (outcome: PollOutcome, queried: seq<string>)
      ensures (outcome, queried) == Poll(dependentTask, answers)
    {
      var current := dependentTask;
      queried := [];
      var i := 0;
      assert answers[0..] == answers;
      assert [] + Poll(current, answers).1 == Poll(current, answers).1;
      while !IsComplete(current)
        invariant 0 <= i <= |answers|
        invariant PollResumes(dependentTask, answers, i, current, queried)
        decreases |answers| - i
      {
        if i == |answers| {
          assert answers[i..] == [] && queried + [] == queried;
          return OutOfAnswers(current), queried;
        }
        if answers[i].GetTaskError? {
          assert answers[i..][0] == answers[i];
          return PollFailed, queried + [current.id];
        }
        PollResumesStep(dependentTask, answers, i, current, queried);
        queried := queried + [current.id];
        current := answers[i].task;
        i := i + 1;
      }
      assert queried + [] == queried;
      outcome := Done(current);
    }

    /** `_auth_required_task`: when the session is suspended on an
        auth-required task, relays that state, waits for the task to
        complete, announces the check, clears the suspension and returns
        the task's artifact text. */
    method AuthRequiredTask(ctx: ToolContext, answers: seq<GetTaskResponse>)
      returns (r: Result<Option<string>, ToolError>, queried: seq<string>)
      modifies ctx, ctx.updater
      ensures SuspendedTask(old(ctx.state)).Failure? ==>
                r == Failure(SuspendedTask(old(ctx.state)).error) && queried == []
                && ctx.state == old(ctx.state) && ctx.updater.trace == old(ctx.updater.trace)
      ensures SuspendedTask(old(ctx.state)) == Success(None) ==>
                r == Success(None) && queried == []
                && ctx.state == old(ctx.state) && ctx.updater.trace == old(ctx.updater.trace)
      ensures SuspendedTask(old(ctx.state)).Success? && SuspendedTask(old(ctx.state)).value.Some? ==>
                var task := SuspendedTask(old(ctx.state)).value.value;
                var poll := Poll(task, answers);
                var relay := StatusUpdated(AuthRequired, task.status.message);
                queried == poll.1
                && (poll.0.PollFailed? ==>
                      r == Failure(DependentTaskFailed) && ctx.state == old(ctx.state)
                      && ctx.updater.trace == old(ctx.updater.trace) + [relay])
                && (poll.0.OutOfAnswers? ==>
                      r == Failure(StillPolling) && ctx.state == old(ctx.state)
                      && ctx.updater.trace == old(ctx.updater.trace) + [relay])
                && (poll.0.Done? ==>
                      r == Success(Some(Join(ArtifactTexts(poll.0.task.artifacts), "\n")))
                      && ctx.state == ResumedState(old(ctx.state))
                      && ctx.updater.trace
                         == old(ctx.updater.trace) + [relay, CheckingUpdate(ctx.updater)])
    {
      queried := [];
      if !Truthy(StateGet(ctx.state, TaskSuspendedKey)) {
        return Success(None), queried;
      }
      if DependentTaskKey !in ctx.state {
        return Failure(MissingDependentTask), queried;
      }
      if !ctx.state[DependentTaskKey].TaskSnapshot? {
        return Failure(InvalidDependentTask), queried;
      }
      var dependentTask := ctx.state[DependentTaskKey].task;
      if dependentTask.status.state != AuthRequired {
        return Success(None), queried;
      }
      var updater := ctx.updater;
      updater.UpdateStatus(dependentTask.status.state, dependentTask.status.message);
      var outcome;
      outcome, queried := WaitForDependentTask(dependentTask, answers);
      if outcome.PollFailed? {
        return Failure(DependentTaskFailed), queried;
      }
      if outcome.OutOfAnswers? {
        return Failure(StillPolling), queried;
      }
      var task := outcome.task;
      updater.UpdateStatus(Working, Some(updater.NewAgentMessage([TextPart(CheckingOutputText)])));
      ctx.state := ctx.state[TaskSuspendedKey := BoolValue(false)];
      ctx.state := ctx.state[DependentTaskKey := NoneValue];
      var content := CollectArtifactTexts(task.artifacts);
      r := Success(Some(Join(content, "\n")));
    }
  }

  /** The task a suspended session waits on: none unless the suspension
      flag is set and the stored task is still auth-required. */
  function SuspendedTask(state: State): (r: Result<Option<Task>, ToolError>)
    ensures !Truthy(StateGet(state, TaskSuspendedKey)) ==> r == Success(None)
    ensures r.Success? && r.value.Some? ==>
              Truthy(StateGet(state, TaskSuspendedKey)) && DependentTaskKey in state
              && state[DependentTaskKey] == TaskSnapshot(r.value.value)
              && r.value.value.status.state == AuthRequired
    ensures r.Failure? ==>
              Truthy(StateGet(state, TaskSuspendedKey))
              && (r.error == MissingDependentTask <==> DependentTaskKey !in state)
              && (r.error == InvalidDependentTask <==> DependentTaskKey in state && !state[DependentTaskKey].TaskSnapshot?)
    ensures Truthy(StateGet(state, TaskSuspendedKey)) && DependentTaskKey !in state ==>
              r == Failure(MissingDependentTask)
    ensures Truthy(StateGet(state, TaskSuspendedKey)) && DependentTaskKey in state
            && !state[DependentTaskKey].TaskSnapshot? ==>
              r == Failure(InvalidDependentTask)
    ensures Truthy(StateGet(state, TaskSuspendedKey)) && DependentTaskKey in state
            && state[DependentTaskKey].TaskSnapshot? ==>
              var t := state[DependentTaskKey].task;
              r == Success(if t.status.state == AuthRequired then Some(t) else None)
  {
    if !Truthy(StateGet(state, TaskSuspendedKey)) then Success(None)
    else if DependentTaskKey !in state then Failure(MissingDependentTask)
    else match state[DependentTaskKey]
      case TaskSnapshot(task) => if task.status.state == AuthRequired then Success(Some(task)) else Success(None)
      case _ => Failure(InvalidDependentTask)
  }

  /** The state once the dependent task has completed: no longer suspended. */
  function ResumedState(state: State): (s: State)
    ensures TaskSuspendedKey in s && s[TaskSuspendedKey] == BoolValue(false)
    ensures DependentTaskKey in s && s[DependentTaskKey] == NoneValue
    ensures forall k :: k != TaskSuspendedKey && k != DependentTaskKey ==>
              (k in s <==> k in state) && (k in s ==> s[k] == state[k])
  {
    state[TaskSuspendedKey := BoolValue(false)][DependentTaskKey := NoneValue]
  }

  function CheckingUpdate(u: TaskUpdater): Effect
  {
    StatusUpdated(Working, Some(u.NewAgentMessage([TextPart(CheckingOutputText)])))
  }

  // ---------------------------------------------------------------------
  // Properties across calls

  /** A reply on a non-terminal task makes the next request reference that
      task; a completed task, a message or an error makes it reference none. */
  lemma NextRequestReferencesOpenTask(state: State, response: SendResponse, sessionId: string, next: string)
    requires ReplyTo(response).Success?
    ensures var after := StateAfter(state, ReplyTo(response).value);
            var request := RequestFor(next, sessionId, after);
            request.Success?
            && (request.value.taskId.Some? <==>
                  response.SendSuccess? && response.result.TaskResult?
                  && response.result.task.status.state != Completed)
            && (request.value.taskId.Some? ==> request.value.taskId.value == response.result.task.id)
  {
  }

  /** An auth-required task reply suspends the session on exactly that task,
      which the auth-required handler then picks up. */
  lemma AuthRequiredReplySuspends(state: State, response: SendResponse)
    requires response.SendSuccess? && response.result.TaskResult?
    requires response.result.task.status.state == AuthRequired
    requires ReplyTo(response).Success?
    ensures SuspendedTask(StateAfter(state, ReplyTo(response).value)) == Success(Some(response.result.task))
  {
  }

  /** After the handler resumes, the session no longer counts as suspended. */
  lemma ResumedStateIsNotSuspended(state: State)
    ensures SuspendedTask(ResumedState(state)) == Success(None)
  {
  }

  /** A non-auth-required reply leaves the suspension keys as they were. */
  lemma OtherRepliesKeepSuspension(state: State, response: SendResponse)
    requires ReplyTo(response).Success? && ReplyTo(response).value.suspended.None?
    ensures SuspendedTask(StateAfter(state, ReplyTo(response).value)) == SuspendedTask(state)
  {
    var after := StateAfter(state, ReplyTo(response).value);
    assert StateGet(after, TaskSuspendedKey) == StateGet(state, TaskSuspendedKey);
  }

  /** Polling consumes answers only while the task is not completed: a run
      that completes never asks again after the completing answer. */
  lemma {:induction false} PollStopsAtCompletion(task: Task, answers: seq<GetTaskResponse>, more: seq<GetTaskResponse>)
    requires Poll(task, answers).0.Done? || Poll(task, answers).0.PollFailed?
    ensures Poll(task, answers + more) == Poll(task, answers)
    decreases |answers|
  {
    if !IsTaskComplete(task) {
      assert (answers + more)[0] == answers[0];
      if answers[0].GetTaskSuccess? {
        assert (answers + more)[1..] == answers[1..] + more;
        PollStopsAtCompletion(answers[0].task, answers[1..], more);
      }
    }
  }
}
