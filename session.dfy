/** Per-connection session state and the registry of live sessions
    (`server/core/session.py`). The module-level dict `active_sessions` becomes
    the `activeSessions` field of a registry object. */
module Session {
  import opened Protocol
  import opened Runtime

  /** The handle `current_audio_stream` may hold; the relay never sets it. */
  datatype AudioStream = AudioStream(id: nat)

  /** One connection's state; the handler updates its fields in place. */
  class SessionState {
    var isReceivingResponse: bool
    var interrupted: bool
    var currentToolExecution: ToolTask?
    var currentAudioStream: Option<AudioStream>
    var genaiSession: UpstreamSession?
    var receivedModelResponse: bool

    /** All flags false and all handles empty. */
    ghost predicate Cleared()
      reads this
    {
      && !isReceivingResponse
      && !interrupted
      && currentToolExecution == null
      && currentAudioStream == None
      && genaiSession == null
      && !receivedModelResponse
    }

    /** `SessionState()` with the dataclass defaults. */
    constructor ()
      ensures Cleared()
    {
      isReceivingResponse := false;
      interrupted := false;
      currentToolExecution := null;
      currentAudioStream := None;
      genaiSession := null;
      receivedModelResponse := false;
    }
  }

  /** `active_sessions`: connection id to session state. */
  class SessionRegistry {
    var activeSessions: map<string, SessionState>

    constructor ()
      ensures activeSessions == map[]
    {
      activeSessions := map[];
    }

    /** `create_session`: a fresh, cleared session stored under `id`,
        replacing whatever was stored there; no other key changes. */
    method CreateSession(id: string) returns (s: SessionState)
      modifies this`activeSessions
      ensures fresh(s) && s.Cleared()
      ensures activeSessions == old(activeSessions)[id := s]
    {
      s := new SessionState();
      activeSessions := activeSessions[id := s];
    }

    /** `get_session`: the session stored under `id`, or `None`; the map is not touched. */
    method GetSession(id: string) returns (r: Option<SessionState>)
      ensures r.Some? <==> id in activeSessions
      ensures r.Some? ==> r.value == activeSessions[id]
    {
      if id in activeSessions {
        r := Some(activeSessions[id]);
      } else {
        r := None;
      }
    }

    /** `remove_session`: deletes `id` if present; an absent id is not an error. */
    method RemoveSession(id: string)
      modifies this`activeSessions
      ensures activeSessions == old(activeSessions) - {id}
      ensures id !in old(activeSessions) ==> activeSessions == old(activeSessions)
    {
      if id in activeSessions {
        activeSessions := activeSessions - {id};
      }
    }
  }

  /** After `create_session(id)`, `get_session(id)` yields exactly the session
      created, and every other key keeps its entry. */
  method CreateThenGet(registry: SessionRegistry, id: string) returns (s: SessionState, r: Option<SessionState>)
    modifies registry`activeSessions
    ensures r == Some(s) && s.Cleared()
    ensures forall k :: k != id ==> (k in registry.activeSessions <==> k in old(registry.activeSessions))
    ensures forall k :: k != id && k in old(registry.activeSessions) ==> registry.activeSessions[k] == old(registry.activeSessions[k])
  {
    s := registry.CreateSession(id);
    r := registry.GetSession(id);
  }

  /** After `remove_session(id)`, `get_session(id)` yields `None`; removing
      again changes nothing; every other key keeps its entry. */
  method RemoveThenGet(registry: SessionRegistry, id: string) returns (r: Option<SessionState>)
    modifies registry`activeSessions
    ensures r == None
    ensures registry.activeSessions == old(registry.activeSessions) - {id}
    ensures forall k :: k != id && k in old(registry.activeSessions) ==>
      k in registry.activeSessions && registry.activeSessions[k] == old(registry.activeSessions[k])
  {
    registry.RemoveSession(id);
    var removedOnce := registry.activeSessions;
    registry.RemoveSession(id);
    assert registry.activeSessions == removedOnce;
    r := registry.GetSession(id);
  }
}
