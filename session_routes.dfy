/** The HTTP handlers that expose stored sessions to the web front end
    (a2adk/routes/session.py): listing the sessions of an application and
    user, and turning one session's events into chat messages. Responses
    are the structured values before JSON encoding. */
module SessionRoutes {
  import opened Results
  import Genai
  import opened Sessions

  /** `request.app.state.session_service`: either a session service or an
      object of some other class. */
  datatype ServiceSlot = SessionServiceSlot(service: SessionService) | NotASessionService

  /** The error responses: the explicit 500 of a missing session service,
      and the exceptions that reading a session can raise. */
  datatype RouteError =
    | HttpError(statusCode: int, detail: string)
    | MissingSession                      // `get_session` returned None
    | MalformedEvent(eventId: string)     // an event without content or without parts

  const ServiceUnavailable: RouteError := HttpError(500, "Session service is not available.")

  /** One entry of a message's parts; every framework part has a `text`
      attribute, possibly None. */
  datatype MessagePart = TextEntry(text: Option<string>)

  datatype SessionMessage = SessionMessage(messageId: string, role: string, timestamp: real, parts: seq<MessagePart>)

  /** An event whose content can be read: content present, at least one part. */
  predicate Readable(e: SessionEvent)
  {
    e.content.Some? && |e.content.value.parts| > 0
  }

  /** A readable event that becomes a message: its first part has text. */
  predicate Shown(e: SessionEvent)
  {
    Readable(e) && Genai.HasText(e.content.value.parts[0])
  }

  function RoleName(role: Option<string>): (name: string)
    ensures name == "user" <==> role == Some("user")
    ensures name != "user" ==> name == "agent"
  {
    if role == Some("user") then "user" else "agent"
  }

  function PartEntries(parts: seq<Genai.Part>): (entries: seq<MessagePart>)
    ensures |entries| == |parts|
    ensures forall j :: 0 <= j < |parts| ==> entries[j] == TextEntry(parts[j].text)
  {
    seq(|parts|, j requires 0 <= j < |parts| => TextEntry(parts[j].text))
  }

  /** The message of a shown event. */
  function ToMessage(e: SessionEvent): (m: SessionMessage)
    requires Readable(e)
    ensures m.messageId == e.id && m.timestamp == e.timestamp
    ensures m.role == RoleName(e.content.value.role)
    ensures |m.parts| == |e.content.value.parts| > 0
  {
    SessionMessage(e.id, RoleName(e.content.value.role), e.timestamp, PartEntries(e.content.value.parts))
  }

  /** What one event contributes: an error, nothing, or one message. */
  function EventMessage(e: SessionEvent): (r: Result<Option<SessionMessage>, RouteError>)
    ensures r.Failure? <==> !Readable(e)
    ensures r.Success? ==> (r.value.Some? <==> Shown(e))
    ensures r.Success? && r.value.Some? ==> r.value.value == ToMessage(e)
  {
    if !Readable(e) then Failure(MalformedEvent(e.id))
    else if Genai.HasText(e.content.value.parts[0]) then Success(Some(ToMessage(e)))
    else Success(None)
  }

  /** The messages of a sequence of events, event by event. */
  function Messages(events: seq<SessionEvent>): (r: Result<seq<SessionMessage>, RouteError>)
    ensures r.Success? ==> |r.value| <= |events|
    ensures r.Success? ==> forall i :: 0 <= i < |r.value| ==> |r.value[i].parts| > 0
    decreases |events|
  {
    if events == [] then Success([])
    else
      var init := Messages(events[..|events| - 1]);
      if init.Failure? then init
      else match EventMessage(events[|events| - 1])
        case Failure(err) => Failure(err)
        case Success(None) => init
        case Success(Some(m)) => Success(init.value + [m])
  }

  /** The shown events, in order: the reference the messages are checked
      against. */
  function ShownEvents(events: seq<SessionEvent>): (shown: seq<SessionEvent>)
    ensures forall i :: 0 <= i < |shown| ==> shown[i] in events && Shown(shown[i])
    decreases |events|
  {
    if events == [] then []
    else ShownEvents(events[..|events| - 1]) + (if Shown(events[|events| - 1]) then [events[|events| - 1]] else [])
  }

  /** Reading fails exactly when some event is unreadable, and the error
      names the first such event. */
  lemma {:induction false} MessagesFailIffUnreadable(events: seq<SessionEvent>)
    ensures Messages(events).Failure? <==> exists i :: 0 <= i < |events| && !Readable(events[i])
    ensures Messages(events).Failure? ==>
              exists i :: 0 <= i < |events| && !Readable(events[i])
                          && (forall j :: 0 <= j < i ==> Readable(events[j]))
                          && Messages(events).error == MalformedEvent(events[i].id)
    decreases |events|
  {
    if events != [] {
      var init := events[..|events| - 1];
      var last := events[|events| - 1];
      MessagesFailIffUnreadable(init);
      assert forall i :: 0 <= i < |init| ==> init[i] == events[i];
      if Messages(init).Failure? {
        var i :| 0 <= i < |init| && !Readable(init[i]) && (forall j :: 0 <= j < i ==> Readable(init[j]))
                 && Messages(init).error == MalformedEvent(init[i].id);
        assert events[i] == init[i];
      } else if !Readable(last) {
        assert !Readable(events[|events| - 1]);
      } else {
        forall i | 0 <= i < |events| ensures Readable(events[i]) {
          if i < |init| { assert events[i] == init[i]; }
        }
      }
    }
  }

  /** On success the messages are the shown events, converted, in order. */
  lemma {:induction false} MessagesAreShownEvents(events: seq<SessionEvent>)
    requires Messages(events).Success?
    ensures var shown := ShownEvents(events);
            var msgs := Messages(events).value;
            |msgs| == |shown| && forall i :: 0 <= i < |shown| ==> Readable(shown[i]) && msgs[i] == ToMessage(shown[i])
    decreases |events|
  {
    if events != [] {
      MessagesAreShownEvents(events[..|events| - 1]);
    }
  }

  /** What a page shows for one message: it is user-authored exactly when
      the event's role was 'user', and its first entry carries the text
      that qualified it. */
  lemma MessageQualified(e: SessionEvent)
    requires Shown(e)
    ensures ToMessage(e).role == "user" <==> e.content.value.role == Some("user")
    ensures ToMessage(e).parts[0] == TextEntry(e.content.value.parts[0].text)
    ensures ToMessage(e).parts[0].text.Some? && ToMessage(e).parts[0].text.value != ""
  {
  }

  /** `get_session_messages`: the session's messages, or the error the
      handler ends with. */
  method GetSessionMessages(slot: ServiceSlot, appName: string, userId: string, sessionId: string)
    returns (r: Result<seq<SessionMessage>, RouteError>)
    ensures slot.NotASessionService? ==> r == Failure(ServiceUnavailable)
    ensures slot.SessionServiceSlot? && slot.service.GetSession(appName, userId, sessionId).None? ==>
              r == Failure(MissingSession)
    ensures slot.SessionServiceSlot? && slot.service.GetSession(appName, userId, sessionId).Some? ==>
              r == Messages(slot.service.GetSession(appName, userId, sessionId).value.events)
  {
    if slot.NotASessionService? {
      return Failure(ServiceUnavailable);
    }
    var session := slot.service.GetSession(appName, userId, sessionId);
    if session.None? {
      return Failure(MissingSession);
    }
    var events := session.value.events;
    var messages: seq<SessionMessage> := [];
    for i := 0 to |events|
      invariant Messages(events[..i]) == Success(messages)
    {
      assert events[..i + 1][..i] == events[..i];
      var event := events[i];
      if event.content.None? || |event.content.value.parts| == 0 {
        MessagesKeepFailure(events[..i + 1], events[i + 1..]);
        assert events[..i + 1] + events[i + 1..] == events;
        return Failure(MalformedEvent(event.id));
      }
      if Genai.HasText(event.content.value.parts[0]) {
        var entries: seq<MessagePart> := [];
        for j := 0 to |event.content.value.parts|
          invariant entries == PartEntries(event.content.value.parts[..j])
        {
          entries := entries + [TextEntry(event.content.value.parts[j].text)];
        }
        assert event.content.value.parts[..|event.content.value.parts|] == event.content.value.parts;
        var message := SessionMessage(event.id, RoleName(event.content.value.role), event.timestamp, entries);
        if |message.parts| > 0 {
          messages := messages + [message];
        }
      }
    }
    assert events[..|events|] == events;
    r := Success(messages);
  }

  /** Once reading fails, later events do not matter. */
  lemma {:induction false} MessagesKeepFailure(a: seq<SessionEvent>, b: seq<SessionEvent>)
    requires Messages(a).Failure?
    ensures Messages(a + b) == Messages(a)
    decreases |b|
  {
    if b == [] {
      assert a + b == a;
    } else {
      var ab := a + b;
      assert ab[..|ab| - 1] == a + b[..|b| - 1];
      MessagesKeepFailure(a, b[..|b| - 1]);
    }
  }

  /** `list_sessions`: the sessions of the application and user. */
  function ListSessionsRoute(slot: ServiceSlot, appName: string, userId: string): (r: Result<set<Session>, RouteError>)
    reads if slot.SessionServiceSlot? then {slot.service} else {}
    ensures slot.NotASessionService? <==> r == Failure(ServiceUnavailable)
    ensures slot.SessionServiceSlot? ==> r == Success(slot.service.ListSessions(appName, userId))
  {
    if slot.NotASessionService? then Failure(ServiceUnavailable)
    else Success(slot.service.ListSessions(appName, userId))
  }
}
