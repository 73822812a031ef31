/** The agent framework's session service, abstracted to a map from
    (application, user, session id) to sessions. */
module Sessions {
  import opened Results
  import Genai

  datatype SessionKey = SessionKey(appName: string, userId: string, sessionId: string)

  /** Event content: an optional role and the ordered parts. */
  datatype Content = Content(role: Option<string>, parts: seq<Genai.Part>)

  datatype SessionEvent = SessionEvent(id: string, timestamp: real, content: Option<Content>)

  datatype Session = Session(id: string, appName: string, userId: string, events: seq<SessionEvent>)

  class SessionService {
    const inMemory: bool
    var sessions: map<SessionKey, Session>

    constructor InMemory()
      ensures inMemory && sessions == map[]
    {
      inMemory := true;
      sessions := map[];
    }

    constructor Backend(stored: map<SessionKey, Session>)
      ensures !inMemory && sessions == stored
    {
      inMemory := false;
      sessions := stored;
    }

    /** `get_session`: the stored session, or None. */
    function GetSession(appName: string, userId: string, sessionId: string): (s: Option<Session>)
      reads this
      ensures s.Some? <==> SessionKey(appName, userId, sessionId) in sessions
      ensures s.Some? ==> s.value == sessions[SessionKey(appName, userId, sessionId)]
    {
      var key := SessionKey(appName, userId, sessionId);
      if key in sessions then Some(sessions[key]) else None
    }

    /** `list_sessions`: the sessions filed under the application and user. */
    function ListSessions(appName: string, userId: string): (r: set<Session>)
      reads this
      ensures forall key :: key in sessions && key.appName == appName && key.userId == userId ==> sessions[key] in r
      ensures forall s :: s in r ==>
                exists key :: key in sessions && key.appName == appName && key.userId == userId && sessions[key] == s
    {
      set key | key in sessions && key.appName == appName && key.userId == userId :: sessions[key]
    }

    /** `create_session`: stores and returns a new session without events. */
    method CreateSession(appName: string, userId: string, sessionId: string) returns (s: Session)
      modifies this
      ensures s == Session(sessionId, appName, userId, [])
      ensures sessions == old(sessions)[SessionKey(appName, userId, sessionId) := s]
    {
      s := Session(sessionId, appName, userId, []);
      sessions := sessions[SessionKey(appName, userId, sessionId) := s];
    }
  }
}
