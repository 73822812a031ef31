/** The executor that runs a framework agent behind the Agent2Agent server
    (a2adk/adk_agent_executor.py): construction (memory tools, service
    defaults), get-or-create of the session, the translation of one run's
    event stream into task-updater effects, `execute` and `cancel`.
    The framework's runner is abstract: a run is the sequence of events it
    yields. */
module AgentExecution {
  import opened Results
  import A2A
  import Genai
  import opened PartConversion
  import opened TaskUpdates
  import opened Sessions

  /** The user id every session of this executor is filed under. */
  const UserId: string := "self"
  /** The function call that is announced to the client. */
  const CalendarCallName: string := "message_calendar_agent"
  const CalendarUpdateText: string := "Messaging the calendar agent"

  // ---------------------------------------------------------------------
  // Construction

  /** A tool on the agent's list; the two memory tools are told apart by
      class, every other tool only by its name. */
  datatype Tool = LoadMemoryTool | PreloadMemoryTool | OtherTool(name: string)

  predicate HasLoadMemoryTool(tools: seq<Tool>)
  {
    exists i :: 0 <= i < |tools| && tools[i].LoadMemoryTool?
  }

  predicate HasPreloadMemoryTool(tools: seq<Tool>)
  {
    exists i :: 0 <= i < |tools| && tools[i].PreloadMemoryTool?
  }

  /** The tool list after the constructor's augmentation: each memory tool
      is appended when no tool of its class is present; a missing list
      becomes the two memory tools. */
  function WithMemoryTools(tools: Option<seq<Tool>>): (r: seq<Tool>)
    ensures HasLoadMemoryTool(r) && HasPreloadMemoryTool(r)
    ensures tools.None? ==> r == [LoadMemoryTool, PreloadMemoryTool]
    ensures tools.Some? ==> |tools.value| <= |r| && r[..|tools.value|] == tools.value
    ensures tools.Some? ==>
              |r| == |tools.value| + (if HasLoadMemoryTool(tools.value) then 0 else 1)
                                   + (if HasPreloadMemoryTool(tools.value) then 0 else 1)
    ensures tools.Some? ==>
              forall i :: |tools.value| <= i < |r| ==> r[i] in [LoadMemoryTool, PreloadMemoryTool]
  {
    match tools
    case None =>
      var r := [LoadMemoryTool, PreloadMemoryTool];
      assert r[0].LoadMemoryTool? && r[1].PreloadMemoryTool?;
      r
    case Some(ts) =>
      var withLoad := if HasLoadMemoryTool(ts) then ts else ts + [LoadMemoryTool];
      assert HasLoadMemoryTool(withLoad) by {
        if !HasLoadMemoryTool(ts) { assert withLoad[|ts|].LoadMemoryTool?; }
      }
      assert HasPreloadMemoryTool(withLoad) == HasPreloadMemoryTool(ts) by {
        if !HasLoadMemoryTool(ts) {
          if HasPreloadMemoryTool(withLoad) {
            var i :| 0 <= i < |withLoad| && withLoad[i].PreloadMemoryTool?;
            assert i < |ts| && ts[i] == withLoad[i];
          }
          if HasPreloadMemoryTool(ts) {
            var i :| 0 <= i < |ts| && ts[i].PreloadMemoryTool?;
            assert withLoad[i] == ts[i];
          }
        }
      }
      var r := if HasPreloadMemoryTool(withLoad) then withLoad else withLoad + [PreloadMemoryTool];
      assert HasPreloadMemoryTool(r) by {
        if !HasPreloadMemoryTool(withLoad) { assert r[|withLoad|].PreloadMemoryTool?; }
      }
      assert HasLoadMemoryTool(r) by {
        var i :| 0 <= i < |withLoad| && withLoad[i].LoadMemoryTool?;
        assert r[i] == withLoad[i];
      }
      r
  }

  /** A backend service handed to the constructor. */
  datatype Service = InMemoryService | ConfiguredService(name: string)

  /** `service if service else InMemory...()`. */
  function OrInMemory(s: Option<Service>): Service
  {
    s.GetOr(InMemoryService)
  }

  /** Given and not the in-memory implementation. */
  predicate IsPersistent(s: Option<Service>)
  {
    s.Some? && !s.value.InMemoryService?
  }

  class Agent {
    const name: string
    var tools: Option<seq<Tool>>

    constructor(name: string, tools: Option<seq<Tool>>)
      ensures this.name == name && this.tools == tools
    {
      this.name := name;
      this.tools := tools;
    }
  }

  // ---------------------------------------------------------------------
  // One run's events and the effects they produce

  datatype FunctionCall = FunctionCall(name: string)

  /** A framework event: whether it is the run's final response, its
      function calls, and its content parts (None when the event carries no
      content). */
  datatype AgentEvent = AgentEvent(finalResponse: bool, calls: seq<FunctionCall>, parts: Option<seq<Genai.Part>>)

  /** Exceptions that abort a run: an event without content where its parts
      are read, or an untranslatable part of the incoming message. */
  datatype RunError = MissingContent | Conversion(error: ConversionError)

  /** How a run ends: completed by a final response, the stream ran out
      without one, or an exception propagated. */
  datatype RunOutcome = RunCompleted | StreamEnded | Raised(error: RunError)

  datatype RunResult = RunResult(outcome: RunOutcome, effects: seq<Effect>)

  datatype Step = Continue(effects: seq<Effect>) | Stop(outcome: RunOutcome, effects: seq<Effect>)

  predicate IsWorkingUpdate(e: Effect)
  {
    e.StatusUpdated? && e.state == A2A.Working
  }

  function CalendarUpdate(u: TaskUpdater): Effect
  {
    StatusUpdated(A2A.Working, Some(u.NewAgentMessage([A2A.TextPart(CalendarUpdateText)])))
  }

  /** How many of `calls` go to the calendar agent, counted from the front. */
  function CalendarCallCount(calls: seq<FunctionCall>): nat
  {
    if calls == [] then 0
    else (if calls[0].name == CalendarCallName then 1 else 0) + CalendarCallCount(calls[1..])
  }

  lemma {:induction false} CalendarCallCountAppend(calls: seq<FunctionCall>, c: FunctionCall)
    ensures CalendarCallCount(calls + [c]) == CalendarCallCount(calls) + (if c.name == CalendarCallName then 1 else 0)
  {
    if calls == [] {
      assert calls + [c] == [c] && [c][1..] == [];
    } else {
      assert (calls + [c])[0] == calls[0] && (calls + [c])[1..] == calls[1..] + [c];
      CalendarCallCountAppend(calls[1..], c);
    }
  }

  /** The updates of a function-call event: one per call to the calendar
      agent, nothing for other calls. */
  function CallUpdates(calls: seq<FunctionCall>, u: TaskUpdater): (effects: seq<Effect>)
    ensures |effects| == CalendarCallCount(calls) <= |calls|
    ensures forall k :: 0 <= k < |effects| ==> effects[k] == CalendarUpdate(u)
    ensures effects == [] <==> forall j :: 0 <= j < |calls| ==> calls[j].name != CalendarCallName
    decreases |calls|
  {
    if calls == [] then []
    else
      var init := calls[..|calls| - 1];
      assert init + [calls[|calls| - 1]] == calls;
      CalendarCallCountAppend(init, calls[|calls| - 1]);
      CallUpdates(init, u)
      + (if calls[|calls| - 1].name == CalendarCallName then [CalendarUpdate(u)] else [])
  }

  /** The classification of one event, first match wins. */
  function StepOf(e: AgentEvent, u: TaskUpdater): Step
  {
    if e.finalResponse then
      if e.parts.None? then Stop(Raised(MissingContent), [])
      else Stop(RunCompleted, [ArtifactAdded(ToA2AParts(e.parts.value)), TaskCompleted])
    else if |e.calls| > 0 then Continue(CallUpdates(e.calls, u))
    else if e.parts.None? then Stop(Raised(MissingContent), [])
    else Continue([StatusUpdated(A2A.Working, Some(u.NewAgentMessage(ToA2AParts(e.parts.value))))])
  }

  /** The effects of processing `events` in order, up to the first final
      response or exception. */
  function Translate(events: seq<AgentEvent>, u: TaskUpdater): RunResult
    decreases |events|
  {
    if events == [] then RunResult(StreamEnded, [])
    else
      match StepOf(events[0], u)
      case Stop(outcome, effects) => RunResult(outcome, effects)
      case Continue(effects) =>
        var rest := Translate(events[1..], u);
        RunResult(rest.outcome, effects + rest.effects)
  }

  /** The loop invariant of `RunEvents`: `emitted` followed by what the
      rest of the stream yields is the whole run. */
  predicate Resumes(events: seq<AgentEvent>, i: nat, emitted: seq<Effect>, u: TaskUpdater)
    requires i <= |events|
  {
    var rest := Translate(events[i..], u);
    Translate(events, u) == RunResult(rest.outcome, emitted + rest.effects)
  }

  /** Handling event i when it stops the run ends the run right there. */
  lemma ResumeStop(events: seq<AgentEvent>, i: nat, emitted: seq<Effect>, u: TaskUpdater)
    requires i < |events| && Resumes(events, i, emitted, u) && StepOf(events[i], u).Stop?
    ensures Translate(events, u) == RunResult(StepOf(events[i], u).outcome, emitted + StepOf(events[i], u).effects)
  {
    assert events[i..][0] == events[i];
  }

  /** Handling event i when the run goes on re-establishes the invariant at i + 1. */
  lemma ResumeContinue(events: seq<AgentEvent>, i: nat, emitted: seq<Effect>, u: TaskUpdater)
    requires i < |events| && Resumes(events, i, emitted, u) && StepOf(events[i], u).Continue?
    ensures Resumes(events, i + 1, emitted + StepOf(events[i], u).effects, u)
  {
    assert events[i..][0] == events[i] && events[i..][1..] == events[i + 1..];
    var rest := Translate(events[i + 1..], u);
    var eff := StepOf(events[i], u).effects;
    assert emitted + (eff + rest.effects) == (emitted + eff) + rest.effects;
  }

  /** An event that the run gets past without ending. */
  predicate Passes(e: AgentEvent, u: TaskUpdater)
  {
    StepOf(e, u).Continue?
  }

  /** Every effect of a run is a `working` update, except that a completed
      run ends with exactly one artifact followed by the completion. */
  lemma {:induction false} TranslateShape(events: seq<AgentEvent>, u: TaskUpdater)
    ensures var r := Translate(events, u);
            r.outcome == RunCompleted ==>
              |r.effects| >= 2 && r.effects[|r.effects| - 1] == TaskCompleted
              && r.effects[|r.effects| - 2].ArtifactAdded?
              && forall k :: 0 <= k < |r.effects| - 2 ==> IsWorkingUpdate(r.effects[k])
    ensures var r := Translate(events, u);
            r.outcome != RunCompleted ==> forall k :: 0 <= k < |r.effects| ==> IsWorkingUpdate(r.effects[k])
  {
    if events != [] {
      TranslateShape(events[1..], u);
      var s := StepOf(events[0], u);
      if s.Continue? {
        assert forall k :: 0 <= k < |s.effects| ==> IsWorkingUpdate(s.effects[k]);
      }
    }
  }

  /** Once a prefix of the stream has ended the run, later events change
      nothing: they are never consumed. */
  lemma {:induction false} TranslateStopsEarly(a: seq<AgentEvent>, b: seq<AgentEvent>, u: TaskUpdater)
    requires Translate(a, u).outcome != StreamEnded
    ensures Translate(a + b, u) == Translate(a, u)
  {
    assert a != [];
    assert (a + b)[0] == a[0];
    if StepOf(a[0], u).Continue? {
      assert (a + b)[1..] == a[1..] + b;
      TranslateStopsEarly(a[1..], b, u);
    }
  }

  /** A run completes exactly when some final response with content is
      reached after events that all pass; then the artifact holds that
      event's converted parts and nothing after it is consumed. */
  lemma {:induction false} CompletesAtFinalResponse(events: seq<AgentEvent>, i: nat, u: TaskUpdater)
    requires i < |events| && events[i].finalResponse && events[i].parts.Some?
    requires forall j :: 0 <= j < i ==> Passes(events[j], u)
    ensures Translate(events, u).outcome == RunCompleted
    ensures Translate(events, u) == Translate(events[..i + 1], u)
    ensures var eff := Translate(events, u).effects;
            |eff| >= 2 && eff[|eff| - 2] == ArtifactAdded(ToA2AParts(events[i].parts.value))
  {
    if i > 0 {
      assert events[1..][i - 1] == events[i];
      CompletesAtFinalResponse(events[1..], i - 1, u);
      assert events[..i + 1][1..] == events[1..][..i];
    }
  }

  /** Conversely, a completed run reached a final response with content. */
  lemma {:induction false} CompletedRunHasFinalResponse(events: seq<AgentEvent>, u: TaskUpdater)
    requires Translate(events, u).outcome == RunCompleted
    ensures exists i :: 0 <= i < |events| && events[i].finalResponse && events[i].parts.Some?
                        && forall j :: 0 <= j < i ==> Passes(events[j], u)
  {
    if StepOf(events[0], u).Continue? {
      CompletedRunHasFinalResponse(events[1..], u);
      var i :| 0 <= i < |events[1..]| && events[1..][i].finalResponse && events[1..][i].parts.Some?
               && forall j :: 0 <= j < i ==> Passes(events[1..][j], u);
      assert events[i + 1] == events[1..][i];
      assert forall j :: 0 <= j < i + 1 ==> Passes(events[j], u) by {
        forall j | 0 <= j < i + 1 ensures Passes(events[j], u) {
          if j > 0 { assert events[j] == events[1..][j - 1]; }
        }
      }
    } else {
      assert events[0].finalResponse && events[0].parts.Some?;
    }
  }

  function WorkingUpdateFor(e: AgentEvent, u: TaskUpdater): Effect
    requires e.parts.Some?
  {
    StatusUpdated(A2A.Working, Some(u.NewAgentMessage(ToA2AParts(e.parts.value))))
  }

  /** N plain events (not final, no function calls, with content) before a final response produce exactly N `working`
      updates carrying their converted parts, in order, then one artifact
      and the completion. */
  lemma {:induction false} PlainEventsThenFinal(events: seq<AgentEvent>, u: TaskUpdater)
    requires |events| >= 1
    requires forall j :: 0 <= j < |events| - 1 ==>
               !events[j].finalResponse && |events[j].calls| == 0 && events[j].parts.Some?
    requires events[|events| - 1].finalResponse && events[|events| - 1].parts.Some?
    ensures Translate(events, u).outcome == RunCompleted
    ensures var eff := Translate(events, u).effects;
            |eff| == |events| + 1
            && (forall j :: 0 <= j < |events| - 1 ==> eff[j] == WorkingUpdateFor(events[j], u))
            && eff[|events| - 1] == ArtifactAdded(ToA2AParts(events[|events| - 1].parts.value))
            && eff[|events|] == TaskCompleted
  {
    if |events| > 1 {
      var rest := events[1..];
      assert forall j :: 0 <= j < |rest| - 1 ==> rest[j] == events[j + 1];
      PlainEventsThenFinal(rest, u);
      var eff := Translate(events, u).effects;
      assert eff == [WorkingUpdateFor(events[0], u)] + Translate(rest, u).effects;
    }
  }

  // ---------------------------------------------------------------------
  // `execute`

  /** What `execute` reads from its request context. */
  datatype RequestContext = RequestContext(
    taskId: string, contextId: string, currentTask: Option<A2A.Task>, messageParts: seq<A2A.Part>)

  datatype ServerError = UnsupportedOperationError

  /** The lifecycle effects `execute` emits before the run: `submit` only
      for a new task, then `start_work`. */
  function LifecycleEffects(context: RequestContext): seq<Effect>
  {
    (if context.currentTask.None? then [TaskSubmitted] else []) + [WorkStarted]
  }

  /** The whole trace of `execute`. */
  function ExecuteResult(context: RequestContext, events: seq<AgentEvent>, u: TaskUpdater): RunResult
  {
    match ToGenaiParts(context.messageParts)
    case Failure(err) => RunResult(Raised(Conversion(err)), LifecycleEffects(context))
    case Success(_) =>
      var run := Translate(events, u);
      RunResult(run.outcome, LifecycleEffects(context) + run.effects)
  }

  /** `submit` happens iff there is no current task and comes first;
      `start_work` follows it; neither occurs again later in the trace. */
  lemma SubmitAndStartPrecedeUpdates(context: RequestContext, events: seq<AgentEvent>, u: TaskUpdater)
    ensures var eff := ExecuteResult(context, events, u).effects;
            var n := if context.currentTask.None? then 1 else 0;
            |eff| > n
            && (eff[0] == TaskSubmitted <==> context.currentTask.None?)
            && eff[n] == WorkStarted
            && forall k :: n < k < |eff| ==> eff[k] != TaskSubmitted && eff[k] != WorkStarted
  {
    var lifecycle := LifecycleEffects(context);
    var n := if context.currentTask.None? then 1 else 0;
    assert |lifecycle| == n + 1 && lifecycle[n] == WorkStarted;
    if ToGenaiParts(context.messageParts).Success? {
      var run := Translate(events, u).effects;
      RunHasNoLifecycleEffects(events, u);
      var eff := lifecycle + run;
      forall k | n < k < |eff| ensures eff[k] != TaskSubmitted && eff[k] != WorkStarted {
        var j := k - n - 1;
        assert 0 <= j < |run| && eff[k] == run[j];
        assert run[j] != TaskSubmitted && run[j] != WorkStarted;
      }
    }
  }

  /** The event-driven part of a run never submits or starts the task. */
  lemma RunHasNoLifecycleEffects(events: seq<AgentEvent>, u: TaskUpdater)
    ensures forall k :: 0 <= k < |Translate(events, u).effects| ==>
              Translate(events, u).effects[k] != TaskSubmitted && Translate(events, u).effects[k] != WorkStarted
  {
    TranslateShape(events, u);
  }

  /** The body of the event loop for one event: the updates it sends and
      whether the loop stops there. */
  method HandleEvent(e: AgentEvent, updater: TaskUpdater) returns (step: Step)
    modifies updater
    ensures step == StepOf(e, updater)
    ensures updater.trace == old(updater.trace) + step.effects
  {
    if e.finalResponse {
      if e.parts.None? {
        return Stop(Raised(MissingContent), []);
      }
      updater.AddArtifact(ToA2AParts(e.parts.value));
      updater.Complete();
      return Stop(RunCompleted, [ArtifactAdded(ToA2AParts(e.parts.value)), TaskCompleted]);
    } else if |e.calls| > 0 {
      AnnounceCalls(e.calls, updater);
      return Continue(CallUpdates(e.calls, updater));
    } else if e.parts.None? {
      return Stop(Raised(MissingContent), []);
    } else {
      updater.UpdateStatus(A2A.Working, Some(updater.NewAgentMessage(ToA2AParts(e.parts.value))));
      return Continue([WorkingUpdateFor(e, updater)]);
    }
  }

  /** The loop over a function-call event's calls: one update for each
      call to the calendar agent. */
  method AnnounceCalls(calls: seq<FunctionCall>, updater: TaskUpdater)
    modifies updater
    ensures updater.trace == old(updater.trace) + CallUpdates(calls, updater)
  {
    ghost var start := updater.trace;
    for j := 0 to |calls|
      invariant updater.trace == start + CallUpdates(calls[..j], updater)
    {
      assert calls[..j + 1][..j] == calls[..j];
      if calls[j].name == CalendarCallName {
        updater.UpdateStatus(A2A.Working, Some(updater.NewAgentMessage([A2A.TextPart(CalendarUpdateText)])));
      }
    }
    assert calls[..|calls|] == calls;
  }

  /** The event loop of `_process_request`: each event in turn, until one
      stops the run. */
  method RunEvents(updater: TaskUpdater, events: seq<AgentEvent>) returns (outcome: RunOutcome)
    modifies updater
    ensures updater.trace == old(updater.trace) + Translate(events, updater).effects
    ensures outcome == Translate(events, updater).outcome
  {
    ghost var start := updater.trace;
    ghost var emitted: seq<Effect> := [];
    var i := 0;
    while i < |events|
      invariant 0 <= i <= |events|
      invariant updater.trace == start + emitted
      invariant Resumes(events, i, emitted, updater)
    {
      var step := HandleEvent(events[i], updater);
      if step.Stop? {
        ResumeStop(events, i, emitted, updater);
        outcome := step.outcome;
        return;
      }
      ResumeContinue(events, i, emitted, updater);
      emitted := emitted + step.effects;
      i := i + 1;
    }
    assert events[i..] == [];
    outcome := StreamEnded;
  }

  class ADKAgentExecutor {
    const agent: Agent
    const appName: string
    const artifactService: Service
    const sessionService: SessionService
    const memoryService: Service
    const saveAsArtifacts: bool

    /** Adds the memory tools for a persistent memory service, fills in the
        in-memory defaults and decides whether input blobs become
        artifacts. */
    constructor(agent: Agent, artifactService: Option<Service>, sessionService: SessionService?,
                memoryService: Option<Service>)
      modifies agent
      ensures this.agent == agent && appName == agent.name
      ensures agent.tools == if IsPersistent(memoryService) then Some(WithMemoryTools(old(agent.tools)))
                             else old(agent.tools)
      ensures this.artifactService == OrInMemory(artifactService)
      ensures this.memoryService == OrInMemory(memoryService)
      ensures sessionService != null ==> this.sessionService == sessionService
      ensures sessionService == null ==>
                fresh(this.sessionService) && this.sessionService.inMemory && this.sessionService.sessions == map[]
      ensures saveAsArtifacts <==> IsPersistent(artifactService)
    {
      if memoryService.Some? && !memoryService.value.InMemoryService? {
        if agent.tools.None? {
          agent.tools := Some([LoadMemoryTool, PreloadMemoryTool]);
        } else {
          if !HasLoadMemoryTool(agent.tools.value) {
            agent.tools := Some(agent.tools.value + [LoadMemoryTool]);
          }
          if !HasPreloadMemoryTool(agent.tools.value) {
            agent.tools := Some(agent.tools.value + [PreloadMemoryTool]);
          }
        }
      }
      this.agent := agent;
      appName := agent.name;
      this.artifactService := OrInMemory(artifactService);
      if sessionService != null {
        this.sessionService := sessionService;
      } else {
        this.sessionService := new SessionService.InMemory();
      }
      this.memoryService := OrInMemory(memoryService);
      saveAsArtifacts := artifactService.Some? && !artifactService.value.InMemoryService?;
    }

    /** `_upsert_session`: the stored session when there is one; otherwise
        the session that `create_session` stores. */
    method UpsertSession(sessionId: string) returns (s: Session)
      modifies sessionService
      ensures var key := SessionKey(appName, UserId, sessionId);
              key in sessionService.sessions && s == sessionService.sessions[key]
      ensures var key := SessionKey(appName, UserId, sessionId);
              key in old(sessionService.sessions) ==> sessionService.sessions == old(sessionService.sessions)
      ensures var key := SessionKey(appName, UserId, sessionId);
              key !in old(sessionService.sessions) ==>
                sessionService.sessions == old(sessionService.sessions)[key := Session(sessionId, appName, UserId, [])]
    {
      var found := sessionService.GetSession(appName, UserId, sessionId);
      if found.Some? {
        s := found.value;
      } else {
        s := sessionService.CreateSession(appName, UserId, sessionId);
      }
    }

    /** `_process_request`: resolves the session, then feeds each event of
        the run to the task updater until the final response. */
    method ProcessRequest(sessionId: string, updater: TaskUpdater, events: seq<AgentEvent>)
      returns (outcome: RunOutcome)
      modifies sessionService, updater
      ensures var key := SessionKey(appName, UserId, sessionId);
              key in sessionService.sessions
              && (key in old(sessionService.sessions) ==> sessionService.sessions == old(sessionService.sessions))
      ensures updater.trace == old(updater.trace) + Translate(events, updater).effects
      ensures outcome == Translate(events, updater).outcome
    {
      var session := UpsertSession(sessionId);
      outcome := RunEvents(updater, events);
    }

    /** `execute`: a fresh task updater on the request's task, `submit` for a
        new task, `start_work`, the incoming parts converted, then the run. */
    method Execute(context: RequestContext, events: seq<AgentEvent>) returns (updater: TaskUpdater, outcome: RunOutcome)
      modifies sessionService
      ensures fresh(updater) && updater.taskId == context.taskId && updater.contextId == context.contextId
      ensures updater.trace == ExecuteResult(context, events, updater).effects
      ensures outcome == ExecuteResult(context, events, updater).outcome
      ensures ToGenaiParts(context.messageParts).Failure? ==> unchanged(sessionService)
      ensures ToGenaiParts(context.messageParts).Success? ==>
                SessionKey(appName, UserId, context.contextId) in sessionService.sessions
    {
      updater := new TaskUpdater(context.taskId, context.contextId);
      if context.currentTask.None? {
        updater.Submit();
      }
      updater.StartWork();
      var newMessage := ToGenaiParts(context.messageParts);
      if newMessage.Failure? {
        outcome := Raised(Conversion(newMessage.error));
        return;
      }
      outcome := ProcessRequest(context.contextId, updater, events);
    }

    /** `cancel` is not supported: it always raises. */
    function Cancel(context: RequestContext): (r: Result<(), ServerError>)
      ensures r == Failure(UnsupportedOperationError)
    {
      Failure(UnsupportedOperationError)
    }
  }
}
