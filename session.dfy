/**
 * `SessionManager` (components/session.js): the client's mirror of the remote session,
 * the state derived from it, the request/response handling of its three calls with the
 * network abstracted into a reply parameter, the periodic-sync guard, cleanup, the
 * summary, validation and the listener registry.
 */
module Session {
  import opened Wrappers
  import opened Text
  import opened Records
  import opened SessionProgress

  /** `sessionState`: the derived flags, the current center and field, and the progress. */
  datatype SessionState = SessionState(
    isActive: Value,
    isComplete: Value,
    currentCostCenter: Value,
    currentField: Value,
    progress: Progress)

  /** The state of a manager with no session, as the constructor and `cleanup` set it. */
  const InitialState := SessionState(Bool(false), Bool(false), Null, Null, NoProgress)

  /** The state derived from an update and the progress computed from that same update
      (not from the merged session). */
  function StateFrom(sessionData: JsObject, progress: Progress): (st: SessionState)
    ensures Get(sessionData, IsActive) == Undefined ==> st.isActive == Bool(true)
    ensures Get(sessionData, IsActive) != Undefined ==> st.isActive == Get(sessionData, IsActive)
    ensures Truthy(st.isComplete) <==> Truthy(Get(sessionData, IsComplete))
    ensures !Truthy(Get(sessionData, CurrentCostCenter)) ==> st.currentCostCenter == Null
    ensures !Truthy(Get(sessionData, CurrentField)) ==> st.currentField == Null
    ensures Truthy(Get(sessionData, IsComplete)) ==> st.isComplete == Get(sessionData, IsComplete)
    ensures !Truthy(Get(sessionData, IsComplete)) ==> st.isComplete == Bool(false)
    ensures Truthy(Get(sessionData, CurrentCostCenter)) ==> st.currentCostCenter == Get(sessionData, CurrentCostCenter)
    ensures Truthy(Get(sessionData, CurrentField)) ==> st.currentField == Get(sessionData, CurrentField)
    ensures st.progress == progress
  {
    SessionState(
      if Get(sessionData, IsActive) != Undefined then Get(sessionData, IsActive) else Bool(true),
      Or(Get(sessionData, IsComplete), Bool(false)),
      Or(Get(sessionData, CurrentCostCenter), Null),
      Or(Get(sessionData, CurrentField), Null),
      progress)
  }

  const NoSessionId := Error("Session ID não fornecido")

  /** `sessionId || this.currentSession?.sessionId`: the explicit id wins when truthy. */
  function ResolveId(explicit: Value, current: Option<JsObject>): (id: Value)
    ensures Truthy(explicit) ==> id == explicit
    ensures !Truthy(explicit) ==> id == GetOpt(current, SessionId)
  {
    Or(explicit, GetOpt(current, SessionId))
  }

  /** The outcome of a request that was sent: a reply that is not ok throws the HTTP status
      line, one without `success && data` throws its error or the fallback, and otherwise
      `data` is used. */
  function ReplyData<T>(reply: Reply<T>, fallback: string): (r: Result<T, Error>)
    ensures r.Success? <==> reply.ok && reply.body.success && reply.body.data.Some?
    ensures r.Success? ==> r.value == reply.body.data.value
    ensures !reply.ok ==> r == Failure(HttpError(reply.status, reply.statusText))
    ensures reply.ok && r.Failure? ==> r.error.message == ErrorOr(reply.body.error, fallback)
  {
    if !reply.ok then Failure(HttpError(reply.status, reply.statusText))
    else if reply.body.success && reply.body.data.Some? then Success(reply.body.data.value)
    else Failure(Error(ErrorOr(reply.body.error, fallback)))
  }

  const MessageFallback := "Falha ao enviar mensagem"
  const CommandFallback := "Falha ao executar comando"
  const StateFallback := "Falha ao obter estado da sessão"

  /** The session update `sendMessage` derives from a reply's data: the updated center
      wins over the next one, and `isComplete` is always written. */
  function MessageUpdate(d: ExchangeData): (u: JsObject)
    ensures u.Keys == {CurrentCostCenter, IsComplete}
    ensures d.updatedCenter.Some? ==> u[CurrentCostCenter] == CenterRef(d.updatedCenter.value)
    ensures d.updatedCenter.None? && d.nextCenter.Some? ==> u[CurrentCostCenter] == CenterRef(d.nextCenter.value)
    ensures d.updatedCenter.None? && d.nextCenter.None? ==> u[CurrentCostCenter] == Undefined
    ensures u[IsComplete] == Bool(d.finished)
  {
    var center :=
      if d.updatedCenter.Some? then CenterRef(d.updatedCenter.value)
      else if d.nextCenter.Some? then CenterRef(d.nextCenter.value)
      else Undefined;
    map[CurrentCostCenter := center, IsComplete := Bool(d.finished)]
  }

  /** The periodic-sync guard: a session exists, it is active and it is not complete. */
  predicate SyncWanted(session: Option<JsObject>, st: SessionState) {
    session.Some? && Truthy(st.isActive) && !Truthy(st.isComplete)
  }

  /** A listener, compared by identity. */
  datatype Callback = Callback(id: nat)

  /** `listeners.filter(listener => listener !== callback)`. */
  function Without(listeners: seq<Callback>, callback: Callback): (r: seq<Callback>)
    ensures forall x :: x in r <==> x in listeners && x != callback
    ensures |r| <= |listeners|
  {
    if listeners == [] then []
    else (if listeners[0] == callback then [] else [listeners[0]]) + Without(listeners[1..], callback)
  }

  /** The summary `getSessionSummary` returns for an existing session. */
  datatype SessionSummary = SessionSummary(
    sessionId: Value,
    userId: Value,
    createdAt: Value,
    costCentersCount: nat,
    progress: Progress,
    currentCostCenter: string,
    isComplete: Value,
    isActive: Value)

  /** `costCenters?.length || 0`: arrays and strings have a length, other values none. */
  function LengthOr0(v: Value): (n: nat)
    ensures v.CenterList? ==> n == |v.centers|
    ensures !v.CenterList? && !v.Str? ==> n == 0
  {
    match v
    case CenterList(cs) => |cs|
    case Str(s) => |s|
    case _ => 0
  }

  /** `currentCostCenter?.name || 'Nenhum'`. */
  function CenterNameOr(v: Value): (name: string)
    ensures name != ""
    ensures v.CenterRef? && v.center.name != "" ==> name == v.center.name
    ensures !v.CenterRef? ==> name == "Nenhum"
  {
    if v.CenterRef? && v.center.name != "" then v.center.name else "Nenhum"
  }

  const RequiredFields := [SessionId, CostCenters]
  const InvalidSession := "Dados da sessão inválidos. Campos obrigatórios ausentes: "

  /** The required fields that are falsy in `sessionData`, in the order they are required. */
  function MissingFields(sessionData: JsObject, required: seq<Field>): (missing: seq<Field>)
    ensures forall f :: f in missing <==> f in required && !Truthy(Get(sessionData, f))
    ensures |missing| <= |required|
  {
    if required == [] then []
    else
      var head := if Truthy(Get(sessionData, required[0])) then [] else [required[0]];
      head + MissingFields(sessionData, required[1..])
  }

  function FieldNames(fs: seq<Field>): (names: seq<string>)
    ensures |names| == |fs| && forall i :: 0 <= i < |fs| ==> names[i] == FieldName(fs[i])
  {
    seq(|fs|, i requires 0 <= i < |fs| => FieldName(fs[i]))
  }

  /** `validateSession`: true when `sessionId` and `costCenters` are both truthy; otherwise
      an error listing the missing ones, `sessionId` first. */
  function ValidateSession(sessionData: JsObject): (r: Result<bool, Error>)
    ensures r.Success? <==> Truthy(Get(sessionData, SessionId)) && Truthy(Get(sessionData, CostCenters))
    ensures r.Success? ==> r.value
    ensures r.Failure? ==>
      r.error.message == InvalidSession + Join(FieldNames(MissingFields(sessionData, RequiredFields)), ", ")
  {
    var missing := MissingFields(sessionData, RequiredFields);
    if |missing| > 0 then
      assert missing[0] in missing;
      Failure(Error(InvalidSession + Join(FieldNames(missing), ", ")))
    else
      assert SessionId in RequiredFields && CostCenters in RequiredFields;
      Success(true)
  }

  // ---------------------------------------------------------------------------
  // Properties of the session logic

  /** After a message reply the state is active with zero progress, `isComplete` is the
      reply's `finished` flag (so an unfinished reply clears it) and the current center is
      the updated one, else the next one, else null. Sync therefore runs again exactly when
      the reply is not finished. */
  lemma MessageStateAndSync(session: JsObject, d: ExchangeData)
    ensures var st := StateFrom(MessageUpdate(d), NoProgress);
      st.isActive == Bool(true) && st.isComplete == Bool(d.finished) && st.progress == NoProgress &&
      st.currentCostCenter ==
        (if d.updatedCenter.Some? then CenterRef(d.updatedCenter.value)
         else if d.nextCenter.Some? then CenterRef(d.nextCenter.value) else Null) &&
      (SyncWanted(Some(Spread(Some(session), MessageUpdate(d))), st) <==> !d.finished)
  {
  }

  /** The progress is taken from the update, not from the merged session: an update
      without `costCenters` keeps the session's centers but reports zero progress. */
  lemma ProgressIgnoresMergedSession(session: JsObject, update: JsObject)
    requires CostCenters !in update
    ensures Get(Spread(Some(session), update), CostCenters) == Get(session, CostCenters)
    ensures ProgressResult(Some(update)) == Success(NoProgress)
  {
  }

  /** The missing fields are listed `sessionId` first, then `costCenters`. */
  lemma MissingFieldsOrder(sessionData: JsObject)
    ensures MissingFields(sessionData, RequiredFields) ==
      (if Truthy(Get(sessionData, SessionId)) then [] else [SessionId])
      + (if Truthy(Get(sessionData, CostCenters)) then [] else [CostCenters])
  {
    assert RequiredFields[1..] == [CostCenters];
    assert RequiredFields[1..][1..] == [];
  }

  /** Filtering distributes over concatenation, so the listeners that remain keep their
      relative order. */
  lemma {:induction false} WithoutConcat(a: seq<Callback>, b: seq<Callback>, callback: Callback)
    ensures Without(a + b, callback) == Without(a, callback) + Without(b, callback)
  {
    if a == [] {
      assert a + b == b;
    } else {
      assert (a + b)[1..] == a[1..] + b;
      WithoutConcat(a[1..], b, callback);
    }
  }

  /** Removing a callback that is not registered changes nothing. */
  lemma {:induction false} WithoutAbsent(listeners: seq<Callback>, callback: Callback)
    requires callback !in listeners
    ensures Without(listeners, callback) == listeners
  {
    if listeners != [] {
      assert callback !in listeners[1..];
      WithoutAbsent(listeners[1..], callback);
    }
  }

  /** Removing twice is removing once. */
  lemma WithoutIdempotent(listeners: seq<Callback>, callback: Callback)
    ensures Without(Without(listeners, callback), callback) == Without(listeners, callback)
  {
    WithoutAbsent(Without(listeners, callback), callback);
  }

  /** Adding a callback and then removing it leaves the other listeners as they were, but
      also drops any earlier registration of the same callback. */
  lemma AddThenRemove(listeners: seq<Callback>, callback: Callback)
    ensures Without(listeners + [callback], callback) == Without(listeners, callback)
  {
    WithoutConcat(listeners, [callback], callback);
    assert Without([callback], callback) == [] by {
      assert [callback][1..] == [];
    }
  }

  class SessionManager {
    var currentSession: Option<JsObject>
    var sessionState: SessionState
    /** `eventListeners`: a missing event type has no listeners. */
    var listeners: map<string, seq<Callback>>

    /** A manager with no session, the initial state and no listeners. */
    constructor ()
      ensures currentSession == None && sessionState == InitialState && listeners == map[]
    {
      currentSession := None;
      sessionState := InitialState;
      listeners := map[];
    }

    /** The listeners `triggerSessionEvent(eventType)` calls, in registration order. */
    function Subscribers(eventType: string): (cbs: seq<Callback>)
      reads this
      ensures eventType !in listeners ==> cbs == []
    {
      if eventType in listeners then listeners[eventType] else []
    }

    predicate ShouldSync()
      reads this
    {
      SyncWanted(currentSession, sessionState)
    }

    /** `initialize(session)`: a given session is adopted and its state derived. */
    method Initialize(session: Option<JsObject>) returns (thrown: Option<Error>, fired: seq<string>)
      modifies this
      ensures session.None? ==> currentSession == old(currentSession) && sessionState == old(sessionState) && thrown.None? && fired == []
      ensures session.Some? ==> currentSession == session
      ensures session.Some? ==> (thrown.None? <==> CentersIsList(session.value))
      ensures session.Some? && thrown.None? ==>
        sessionState == StateFrom(session.value, ProgressOfData(session)) && fired == ["stateUpdated"]
      ensures thrown.Some? ==> sessionState == old(sessionState) && fired == []
      ensures listeners == old(listeners)
    {
      thrown, fired := None, [];
      if session.Some? {
        currentSession := session;
        thrown, fired := UpdateSessionState(session);
        assert Spread(session, session.value) == session.value;
      }
    }

    /** `updateSessionState(sessionData)`: merges the update into the session, then derives
      the state from the update alone. When the progress computation throws, the merge has
      already happened and the state is left as it was. */
    method UpdateSessionState(sessionData: Option<JsObject>) returns (thrown: Option<Error>, fired: seq<string>)
      modifies this
      ensures sessionData.None? ==> currentSession == old(currentSession) && sessionState == old(sessionState)
      ensures sessionData.None? ==> thrown.None? && fired == []
      ensures sessionData.Some? ==> currentSession == Some(Spread(old(currentSession), sessionData.value))
      ensures thrown.None? <==> ProgressResult(sessionData).Success?
      ensures sessionData.Some? && thrown.None? ==>
        sessionState == StateFrom(sessionData.value, ProgressOfData(sessionData)) && fired == ["stateUpdated"]
      ensures thrown.Some? ==> thrown.value == ForEachError && sessionState == old(sessionState) && fired == []
      ensures listeners == old(listeners)
    {
      if sessionData.None? {
        return None, [];
      }
      currentSession := Some(Spread(currentSession, sessionData.value));
      var progress := SessionProgress.CalculateProgress(sessionData);
      if progress.Failure? {
        return Some(progress.error), [];
      }
      sessionState := StateFrom(sessionData.value, progress.value);
      thrown, fired := None, ["stateUpdated"];
    }

    /** `getSessionState(sessionId)`: without an id nothing is sent and nothing fires;
      otherwise the reply's session data is merged in, and every failure after the request
      fires `sessionError`. */
    method GetSessionState(sessionId: Value, reply: Reply<JsObject>)
      returns (sent: bool, r: Result<JsObject, Error>, fired: seq<string>)
      modifies this
      ensures sent <==> Truthy(ResolveId(sessionId, old(currentSession)))
      ensures !sent ==> r == Failure(NoSessionId) && fired == []
      ensures sent && ReplyData(reply, StateFallback).Failure? ==> r == ReplyData(reply, StateFallback)
      ensures !sent || ReplyData(reply, StateFallback).Failure? ==>
        currentSession == old(currentSession) && sessionState == old(sessionState)
      ensures sent && ReplyData(reply, StateFallback).Success? ==>
        var d := ReplyData(reply, StateFallback).value;
        currentSession == Some(Spread(old(currentSession), d)) &&
        (r.Success? <==> CentersIsList(d)) &&
        (r.Success? ==> r.value == d && sessionState == StateFrom(d, ProgressOfData(Some(d)))) &&
        (r.Failure? ==> r.error == ForEachError && sessionState == old(sessionState))
      ensures sent ==> (r.Success? <==> fired == ["stateUpdated"]) && (r.Failure? <==> fired == ["sessionError"])
      ensures listeners == old(listeners)
    {
      var id := ResolveId(sessionId, currentSession);
      if !Truthy(id) {
        return false, Failure(NoSessionId), [];
      }
      sent := true;
      var outcome := ReplyData(reply, StateFallback);
      if outcome.Failure? {
        return sent, outcome, ["sessionError"];
      }
      var thrown, updated := UpdateSessionState(Some(outcome.value));
      if thrown.Some? {
        return sent, Failure(thrown.value), ["sessionError"];
      }
      r, fired := Success(outcome.value), updated;
    }

    /** `sendMessage(message, sessionId)`: on success the session takes `MessageUpdate` of
      the reply's data and the whole reply body is returned; on failure nothing changes. */
    method SendMessage(message: string, sessionId: Value, reply: Reply<ExchangeData>)
      returns (sent: bool, r: Result<Body<ExchangeData>, Error>, fired: seq<string>)
      modifies this
      ensures sent <==> Truthy(ResolveId(sessionId, old(currentSession)))
      ensures !sent ==> r == Failure(NoSessionId) && fired == []
      ensures sent && ReplyData(reply, MessageFallback).Failure? ==>
        r == Failure(ReplyData(reply, MessageFallback).error) && fired == ["sessionError"]
      ensures sent && ReplyData(reply, MessageFallback).Success? ==>
        r == Success(reply.body) && fired == ["stateUpdated", "messageResponse"]
      ensures r.Success? ==>
        currentSession == Some(Spread(old(currentSession), MessageUpdate(reply.body.data.value))) &&
        sessionState == StateFrom(MessageUpdate(reply.body.data.value), NoProgress)
      ensures r.Failure? ==> currentSession == old(currentSession) && sessionState == old(sessionState)
      ensures listeners == old(listeners)
    {
      var id := ResolveId(sessionId, currentSession);
      if !Truthy(id) {
        return false, Failure(NoSessionId), [];
      }
      sent := true;
      var outcome := ReplyData(reply, MessageFallback);
      if outcome.Failure? {
        return sent, Failure(outcome.error), ["sessionError"];
      }
      var update := MessageUpdate(outcome.value);
      var thrown, updated := UpdateSessionState(Some(update));
      assert thrown.None? by { assert ProgressOfData(Some(update)) == NoProgress; }
      r, fired := Success(reply.body), updated + ["messageResponse"];
    }

    /** `sendCommand(command, sessionId)`: changes no state; returns the reply body. */
    method SendCommand(command: string, sessionId: Value, reply: Reply<ExchangeData>)
      returns (sent: bool, r: Result<Body<ExchangeData>, Error>, fired: seq<string>)
      ensures sent <==> Truthy(ResolveId(sessionId, currentSession))
      ensures !sent ==> r == Failure(NoSessionId) && fired == []
      ensures sent && ReplyData(reply, CommandFallback).Failure? ==>
        r == Failure(ReplyData(reply, CommandFallback).error) && fired == ["sessionError"]
      ensures sent && ReplyData(reply, CommandFallback).Success? ==>
        r == Success(reply.body) && fired == ["commandResponse"]
    {
      var id := ResolveId(sessionId, currentSession);
      if !Truthy(id) {
        return false, Failure(NoSessionId), [];
      }
      var outcome := ReplyData(reply, CommandFallback);
      if outcome.Failure? {
        return true, Failure(outcome.error), ["sessionError"];
      }
      return true, Success(reply.body), ["commandResponse"];
    }

    /** One tick of the periodic sync: fetches the state only when the guard holds, and
      swallows any error. A good reply is merged as `getSessionState` merges it; a failed
      one leaves the session and its state as they were. */
    method SyncTick(reply: Reply<JsObject>) returns (sent: bool)
      modifies this
      ensures !old(ShouldSync()) ==> !sent && currentSession == old(currentSession) && sessionState == old(sessionState)
      ensures old(ShouldSync()) ==> sent == Truthy(GetOpt(old(currentSession), SessionId))
      ensures !sent || ReplyData(reply, StateFallback).Failure? ==>
        currentSession == old(currentSession) && sessionState == old(sessionState)
      ensures sent && ReplyData(reply, StateFallback).Success? ==>
        var d := ReplyData(reply, StateFallback).value;
        currentSession == Some(Spread(old(currentSession), d)) &&
        (CentersIsList(d) ==> sessionState == StateFrom(d, ProgressOfData(Some(d)))) &&
        (!CentersIsList(d) ==> sessionState == old(sessionState))
      ensures listeners == old(listeners)
    {
      sent := false;
      if ShouldSync() {
        var r, fired;
        sent, r, fired := GetSessionState(Undefined, reply);
      }
    }

    /** `cleanup()`: no session and the initial state; listeners stay registered. */
    method Cleanup() returns (fired: seq<string>)
      modifies this
      ensures currentSession == None && sessionState == InitialState
      ensures !ShouldSync()
      ensures listeners == old(listeners)
      ensures fired == ["sessionCleaned"]
    {
      currentSession := None;
      sessionState := InitialState;
      fired := ["sessionCleaned"];
    }

    /** `getSessionSummary()`: null without a session. */
    function Summary(): (s: Option<SessionSummary>)
      reads this
      ensures s.None? <==> currentSession.None?
      ensures s.Some? ==>
        s.value.sessionId == Get(currentSession.value, SessionId) &&
        s.value.userId == Get(currentSession.value, UserId) &&
        s.value.createdAt == Get(currentSession.value, CreatedAt) &&
        s.value.costCentersCount == LengthOr0(Get(currentSession.value, CostCenters)) &&
        s.value.progress == sessionState.progress &&
        s.value.currentCostCenter == CenterNameOr(sessionState.currentCostCenter) &&
        s.value.isComplete == sessionState.isComplete && s.value.isActive == sessionState.isActive
    {
      match currentSession
      case None => None
      case Some(session) =>
        Some(SessionSummary(
          Get(session, SessionId), Get(session, UserId), Get(session, CreatedAt),
          LengthOr0(Get(session, CostCenters)), sessionState.progress,
          CenterNameOr(sessionState.currentCostCenter), sessionState.isComplete, sessionState.isActive))
    }

    /** `addEventListener(eventType, callback)`: appends, even when already registered. */
    method AddEventListener(eventType: string, callback: Callback)
      modifies this
      ensures listeners == old(listeners)[eventType := old(Subscribers(eventType)) + [callback]]
      ensures currentSession == old(currentSession) && sessionState == old(sessionState)
    {
      listeners := listeners[eventType := Subscribers(eventType) + [callback]];
    }

    /** `removeEventListener(eventType, callback)`: drops every registration of the
      callback for that event type. */
    method RemoveEventListener(eventType: string, callback: Callback)
      modifies this
      ensures eventType !in old(listeners) ==> listeners == old(listeners)
      ensures eventType in old(listeners) ==>
        listeners == old(listeners)[eventType := Without(old(listeners)[eventType], callback)]
      ensures callback !in Subscribers(eventType)
      ensures currentSession == old(currentSession) && sessionState == old(sessionState)
    {
      if eventType !in listeners {
        return;
      }
      listeners := listeners[eventType := Without(listeners[eventType], callback)];
    }
  }
}
