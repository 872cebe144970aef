/**
 * The two controllers of the page: `ChatManager` (components/chat.js), which keeps the
 * transcript and talks to the session manager, and `CostCenterApp` (assets/js/app.js),
 * which keeps the cost-center selection and starts sessions. They reach each other and
 * the session manager through globals; here those are parameters (`null` when absent).
 *
 * The session record the app creates is one object shared by the app and the chat, and
 * the chat's reply handling changes it in place; it is therefore a class of its own.
 */
module Client {
  import opened Wrappers
  import opened Text
  import opened Records
  import opened SessionProgress
  import opened Session
  import opened Transcript
  import opened Selection

  /** A session object held by reference: the app and the chat share one. */
  class SessionRecord {
    var fields: JsObject

    constructor (fields: JsObject)
      ensures this.fields == fields
    {
      this.fields := fields;
    }
  }

  /** The contents of a possibly null session reference. */
  function Snapshot(r: SessionRecord?): Option<JsObject>
    reads r
  {
    if r == null then None else Some(r.fields)
  }

  /** What the chat sees of the app: absent, or present with its current session. */
  function View(app: CostCenterApp?): AppView
    reads app, if app != null then {app.currentSession} else {}
  {
    if app == null then NoApp else AppWith(Snapshot(app.currentSession))
  }

  /** The app's session object, the one thing of the app a reply changes. */
  function AppRecord(app: CostCenterApp?): set<object>
    reads app
  {
    if app != null && app.currentSession != null then {app.currentSession} else {}
  }

  /** The result of a request made through the session manager: no manager, no session id,
      or the reply's outcome as `sendMessage` and `sendCommand` report it. */
  function RequestOutcome(hasManager: bool, sessionId: Value, reply: Reply<ExchangeData>, fallback: string)
    : (r: Result<Body<ExchangeData>, Error>)
    ensures !hasManager ==> r == Failure(NoManager)
    ensures hasManager && !Truthy(sessionId) ==> r == Failure(NoSessionId)
    ensures hasManager && Truthy(sessionId) ==>
      (r.Success? <==> ReplyData(reply, fallback).Success?) &&
      (r.Success? ==> r.value == reply.body) &&
      (r.Failure? ==> r.error == ReplyData(reply, fallback).error)
  {
    if !hasManager then Failure(NoManager)
    else if !Truthy(sessionId) then Failure(NoSessionId)
    else
      match ReplyData(reply, fallback)
      case Failure(e) => Failure(e)
      case Success(_) => Success(reply.body)
  }

  /** The session-manager session after the chat's synchronisation check: replaced by the
      chat's session when the two ids differ. */
  function Synced(managerSession: Option<JsObject>, chatSession: Option<JsObject>): (r: Option<JsObject>)
    ensures GetOpt(r, SessionId) == GetOpt(chatSession, SessionId)
    ensures GetOpt(managerSession, SessionId) == GetOpt(chatSession, SessionId) ==> r == managerSession
  {
    if GetOpt(managerSession, SessionId) != GetOpt(chatSession, SessionId) then chatSession else managerSession
  }

  function YesNo(b: bool): string {
    if b then "Sim" else "Não"
  }

  /** `currentCenter?.name || 'Não definido'`. */
  function CenterNameText(center: Value): string {
    if center.CenterRef? && center.center.name != "" then center.center.name else "Não definido"
  }

  /** `currentCenter?.id || 'N/A'`. */
  function CenterIdText(center: Value): string {
    if center.CenterRef? && center.center.id != 0 then IntToString(center.center.id) else "N/A"
  }

  /** The text `showDebugInfo` posts. */
  const DebugTitle := "🔍 **Estado de Debug:**\n        \n**Sessão:** "
  const DebugCenter := "\n**Centro Atual:** "
  const DebugComplete := "\n**Completa:** "
  const DebugMessages := "\n**Mensagens:** "
  const DebugManager := "\n**SessionManager Sincronizado:** "
  const DebugApp := "\n**App Sincronizado:** "
  const DebugHint := "\n\nDigite \"reset sessão\" se houver problemas de sincronização."

  function DebugText(session: Option<JsObject>, messageCount: nat, managerSync: bool, appSync: bool): string {
    var center := GetOpt(session, CurrentCostCenter);
    DebugTitle + ValueText(Or(GetOpt(session, SessionId), Str("Não definida")))
    + DebugCenter + CenterNameText(center) + " (ID: " + CenterIdText(center) + ")"
    + DebugComplete + YesNo(Truthy(GetOpt(session, IsComplete)))
    + DebugMessages + NatToString(messageCount)
    + DebugManager + YesNo(managerSync)
    + DebugApp + YesNo(appSync)
    + DebugHint
  }

  /** The first line of the bar `updateProgress` shows. */
  function CenterLine(center: Value): string {
    match center
    case CenterRef(c) => "Centro: " + c.name + " (ID: " + IntToString(c.id) + ")"
    case _ => if Truthy(center) then "Centro: undefined (ID: undefined)" else "Centro: Não definido"
  }

  /** The percentage text of `updateProgress`: no field is ever counted as completed, so
      the bar reads 0%, or `NaN%` when the selected centers have no fields (0 / 0). */
  function ProgressLine(totalFields: nat): string {
    if totalFields == 0 then "NaN% completo" else "0% completo"
  }

  /** The two texts `updateProgress` writes. */
  datatype ProgressView = ProgressView(center: string, progress: string)

  /** The body of the session-creation request. */
  datatype StartPayload = StartPayload(costCenters: seq<CostCenter>, selectedCenters: seq<int>, userId: Value)

  // ---------------------------------------------------------------------------
  // Chat

  class ChatManager {
    var messages: seq<Message>
    var currentSession: SessionRecord?
    /** `messageHistory`, keyed by session id. */
    var history: map<Value, seq<Message>>

    constructor ()
      ensures messages == [] && currentSession == null && history == map[]
    {
      messages, currentSession, history := [], null, map[];
    }

    function Session(): Option<JsObject>
      reads this, currentSession
    {
      Snapshot(currentSession)
    }

    /** `addMessage(messageData)`: a malformed draft or a repeat of the last bot message is
      dropped; otherwise it is appended, and logged under the bound session's id. */
    method AddMessage(d: MessageData)
      modifies this
      ensures messages == AddResult(old(messages), d)
      ensures history == Logged(old(history), Session(), Accepted(old(messages), [d]))
      ensures currentSession == old(currentSession)
    {
      AcceptedOne(messages, d);
      if Accepts(messages, d) {
        var m := ToMessage(d);
        messages := messages + [m];
        if currentSession != null {
          var id := Get(currentSession.fields, SessionId);
          history := history[id := HistoryOf(history, id) + [m]];
        }
      }
    }

    /** Adds the drafts one after the other. */
    method AddDrafts(ds: seq<MessageData>)
      modifies this
      ensures messages == AddAll(old(messages), ds)
      ensures history == Logged(old(history), Session(), Accepted(old(messages), ds))
      ensures currentSession == old(currentSession)
    {
      ghost var m0 := messages;
      assert AddAll(m0, []) == m0;
      var i := 0;
      while i < |ds|
        invariant 0 <= i <= |ds|
        invariant messages == AddAll(m0, ds[..i])
        invariant history == Logged(old(history), Session(), Accepted(m0, ds[..i]))
        invariant currentSession == old(currentSession)
      {
        AddMessage(ds[i]);
        assert ds[..i] + [ds[i]] == ds[..i + 1];
        AddAllSnoc(m0, ds[..i], ds[i]);
        AcceptedOne(AddAll(m0, ds[..i]), ds[i]);
        LoggedConcat(old(history), Session(), Accepted(m0, ds[..i]), Accepted(AddAll(m0, ds[..i]), [ds[i]]));
        i := i + 1;
      }
      assert ds[..i] == ds;
    }

    /** `clearMessages()`: empties the transcript; the history is kept. */
    method ClearMessages()
      modifies this
      ensures messages == [] && history == old(history) && currentSession == old(currentSession)
    {
      messages := [];
    }

    /** `initialize(session)`: binds the session; when its history is not empty the
      transcript is cleared (the stored messages are only redrawn); then the welcome
      message is added. */
    method Initialize(session: SessionRecord?, now: Time)
      modifies this
      ensures currentSession == session
      ensures session == null ==> messages == old(messages) && history == old(history)
      ensures session != null ==>
        var base := if HistoryOf(old(history), Get(session.fields, SessionId)) != [] then [] else old(messages);
        var d := Draft("bot", WelcomeText(session.fields), now);
        messages == AddResult(base, d) && history == Logged(old(history), Some(session.fields), Accepted(base, [d]))
    {
      currentSession := session;
      if session != null {
        if HistoryOf(history, Get(session.fields, SessionId)) != [] {
          ClearMessages();
        }
        AddMessage(Draft("bot", WelcomeText(session.fields), now));
      }
    }

    /** `showDebugInfo()`: posts the state of the chat and whether the session manager and
      the app hold the same session id. */
    method ShowDebugInfo(now: Time, sm: SessionManager?, app: CostCenterApp?)
      modifies this
      ensures
        var text := DebugText(old(Session()), |old(messages)|,
          (if sm == null then Undefined else GetOpt(old(sm.currentSession), SessionId)) == GetOpt(old(Session()), SessionId),
          (if app == null then Undefined else GetOpt(old(Snapshot(app.currentSession)), SessionId)) == GetOpt(old(Session()), SessionId));
        messages == AddResult(old(messages), Draft("system", text, now)) &&
        history == Logged(old(history), Session(), Accepted(old(messages), [Draft("system", text, now)]))
      ensures currentSession == old(currentSession)
    {
      var session := Session();
      var managerId := if sm == null then Undefined else GetOpt(sm.currentSession, SessionId);
      var appId := if app == null then Undefined else GetOpt(Snapshot(app.currentSession), SessionId);
      var text := DebugText(session, |messages|, managerId == GetOpt(session, SessionId), appId == GetOpt(session, SessionId));
      AddMessage(Draft("system", text, now));
    }

    /** `handleSessionReset()`: posts the reset notice, then unbinds the session from the
      chat, the session manager and the app. */
    method HandleSessionReset(now: Time, sm: SessionManager?, app: CostCenterApp?)
      modifies this, sm, app
      ensures messages == AddResult(old(messages), Draft("system", ResetText, now))
      ensures history == Logged(old(history), old(Session()), Accepted(old(messages), [Draft("system", ResetText, now)]))
      ensures currentSession == null
      ensures sm != null ==>
        sm.currentSession == None && sm.sessionState == old(sm.sessionState) && sm.listeners == old(sm.listeners)
      ensures app != null ==>
        app.currentSession == null && app.screen == old(app.screen) && app.costCenters == old(app.costCenters) &&
        app.selected == old(app.selected) && app.startDisabled == old(app.startDisabled) &&
        app.errorMessage == old(app.errorMessage)
    {
      AddMessage(Draft("system", ResetText, now));
      currentSession := null;
      if sm != null {
        sm.currentSession := None;
      }
      if app != null {
        app.currentSession := null;
      }
    }

    /** What `handleSendMessage` does once the outcome of the request is known: the drafts
      of `ReplyDrafts`, and, between the bot message and the completion notices, the
      reply applied to the app's session. */
    method HandleReply(message: string, now: Time, result: Result<Body<ExchangeData>, Error>,
                       session: Option<JsObject>, app: CostCenterApp?, ghost view: AppView)
      requires session.Some? && session == Session()
      requires view == View(app)
      modifies this, AppRecord(app)
      ensures messages == AddAll(old(messages), ReplyDrafts(message, now, result, session, view))
      ensures history == Logged(old(history), session, Accepted(old(messages), ReplyDrafts(message, now, result, session, view)))
      ensures currentSession == old(currentSession)
      ensures app != null && old(app.currentSession) != null ==>
        old(app.currentSession).fields == AppAfterReply(old(app.currentSession.fields), result)
    {
      if result.Success? && result.value.data.Some? && app != null && app.currentSession != null {
        var d := result.value.data.value;
        var first := AuditDrafts(message, d.botMessage, session, now) + [Fields("bot", d.botMessage, now)];
        var second := (if d.finished && d.nextCenter.None? then [Draft("success", FinishedText, now)] else [])
          + SpecialDrafts(result.value, now);
        assert ReplyDrafts(message, now, result, session, View(app)) == first + second;
        ApplyReply(first, d, second, session, app.currentSession);
      } else {
        AddDrafts(ReplyDrafts(message, now, result, session, View(app)));
      }
    }

    /** The reply handling of `handleSendMessage` when the app holds a session: the
      drafts up to the bot message, then the reply applied to the app's session, then the
      notices. */
    method ApplyReply(first: seq<MessageData>, d: ExchangeData, second: seq<MessageData>, session: Option<JsObject>,
                      record: SessionRecord)
      requires session.Some? && session == Session()
      modifies this, record
      ensures messages == AddAll(old(messages), first + second)
      ensures history == Logged(old(history), session, Accepted(old(messages), first + second))
      ensures currentSession == old(currentSession)
      ensures record.fields == ApplyExchange(old(record.fields), d)
    {
      ghost var m0, h0 := messages, history;
      AddDrafts(first);
      ghost var m1, h1 := messages, history;
      record.fields := ApplyExchange(record.fields, d);
      LoggedSameId(h1, Session(), session, Accepted(m1, second));
      AddDrafts(second);
      AddAllConcat(m0, first, second);
      LoggedConcat(h0, session, Accepted(m0, first), Accepted(m1, second));
    }

    /** `handleSendMessage()`: with a non-empty trimmed input and a bound session, posts the
      user's message, aligns the session manager with the chat's session, sends the message
      and posts what the reply calls for. */
    method HandleSendMessage(input: string, now: Time, sm: SessionManager?, app: CostCenterApp?, reply: Reply<ExchangeData>)
      returns (outcome: Option<Result<Body<ExchangeData>, Error>>)
      modifies this, sm, AppRecord(app)
      ensures currentSession == old(currentSession)
      ensures Trim(input) == [] || old(Session()).None? ==>
        outcome.None? && messages == old(messages) && history == old(history)
      ensures Trim(input) != [] && old(Session()).Some? ==>
        outcome == Some(RequestOutcome(sm != null, Get(old(Session()).value, SessionId), reply, MessageFallback))
      ensures outcome.Some? ==>
        var ds := SendDrafts(input, now, outcome.value, old(Session()), old(View(app)));
        messages == AddAll(old(messages), ds) && history == Logged(old(history), old(Session()), Accepted(old(messages), ds))
      ensures sm != null && outcome.None? ==>
        sm.currentSession == old(sm.currentSession) && sm.sessionState == old(sm.sessionState)
      ensures sm != null && outcome.Some? ==>
        (sm.currentSession, sm.sessionState) ==
          ManagerAfterSend(old(sm.currentSession), old(sm.sessionState), old(Session()).value, outcome.value)
      ensures sm != null ==> sm.listeners == old(sm.listeners)
      ensures app != null && old(app.currentSession) != null ==>
        old(app.currentSession).fields ==
          if outcome.Some? then AppAfterReply(old(app.currentSession.fields), outcome.value) else old(app.currentSession.fields)
    {
      var message := Trim(input);
      if message == [] || currentSession == null {
        return None;
      }
      var session := Session();
      ghost var view := View(app);
      var result := Exchange(message, now, session.value, sm, app, reply);
      outcome := Some(result);
      assert SendDrafts(input, now, result, session, view) ==
        [Draft("user", message, now)] + ReplyDrafts(message, now, result, session, view);
    }

    /** The exchange of `handleSendMessage` once its guard has passed: the user's message is
      posted, the message is sent through the synchronised session manager and the reply
      is handled. */
    method Exchange(message: string, now: Time, session: JsObject, sm: SessionManager?, app: CostCenterApp?,
                    reply: Reply<ExchangeData>)
      returns (result: Result<Body<ExchangeData>, Error>)
      requires Session() == Some(session)
      modifies this, sm, AppRecord(app)
      ensures currentSession == old(currentSession)
      ensures result == RequestOutcome(sm != null, Get(session, SessionId), reply, MessageFallback)
      ensures var ds := [Draft("user", message, now)] + ReplyDrafts(message, now, result, Some(session), old(View(app)));
        messages == AddAll(old(messages), ds) && history == Logged(old(history), Some(session), Accepted(old(messages), ds))
      ensures sm != null ==>
        (sm.currentSession, sm.sessionState) == ManagerAfterSend(old(sm.currentSession), old(sm.sessionState), session, result) &&
        sm.listeners == old(sm.listeners)
      ensures app != null && old(app.currentSession) != null ==>
        old(app.currentSession).fields == AppAfterReply(old(app.currentSession.fields), result)
    {
      ghost var m0, h0, view := messages, history, View(app);
      var user := Draft("user", message, now);
      AddMessage(user);
      result := SendThrough(message, session, sm, reply);
      HandleReply(message, now, result, Some(session), app, view);
      SendGlue(m0, h0, Some(session), user, ReplyDrafts(message, now, result, Some(session), view));
    }

    /** `sendQuickReply(reply)`: sends the sentence the button stands for. */
    method SendQuickReply(button: string, now: Time, sm: SessionManager?, app: CostCenterApp?, reply: Reply<ExchangeData>)
      returns (outcome: Option<Result<Body<ExchangeData>, Error>>)
      modifies this, sm, AppRecord(app)
      ensures currentSession == old(currentSession)
      ensures Trim(QuickReplyText(button)) == [] || old(Session()).None? ==>
        outcome.None? && messages == old(messages) && history == old(history)
      ensures old(Session()).Some? && Trim(QuickReplyText(button)) != [] ==>
        outcome == Some(RequestOutcome(sm != null, Get(old(Session()).value, SessionId), reply, MessageFallback))
      ensures outcome.Some? ==>
        var ds := SendDrafts(QuickReplyText(button), now, outcome.value, old(Session()), old(View(app)));
        messages == AddAll(old(messages), ds) && history == Logged(old(history), old(Session()), Accepted(old(messages), ds))
      ensures sm != null && outcome.Some? ==>
        (sm.currentSession, sm.sessionState) ==
          ManagerAfterSend(old(sm.currentSession), old(sm.sessionState), old(Session()).value, outcome.value)
      ensures sm != null && outcome.None? ==>
        sm.currentSession == old(sm.currentSession) && sm.sessionState == old(sm.sessionState)
      ensures sm != null ==> sm.listeners == old(sm.listeners)
      ensures app != null && old(app.currentSession) != null ==>
        old(app.currentSession).fields ==
          if outcome.Some? then AppAfterReply(old(app.currentSession.fields), outcome.value) else old(app.currentSession.fields)
    {
      outcome := HandleSendMessage(QuickReplyText(button), now, sm, app, reply);
    }

    /** `handleCommand(command)`: nothing without a session; `debug estado` and `reset
      sessão` (in any case) stay local; any other command is posted and sent, and the
      drafts of `CommandDrafts` follow. */
    method HandleCommand(command: string, now: Time, sm: SessionManager?, app: CostCenterApp?, reply: Reply<ExchangeData>)
      returns (outcome: Option<Result<Body<ExchangeData>, Error>>)
      modifies this, sm, app
      ensures old(currentSession) == null ==>
        outcome.None? && messages == old(messages) && history == old(history) && currentSession == old(currentSession)
      ensures old(currentSession) != null && CommandRoute(command) == ShowDebug ==>
        var text := DebugText(old(Session()), |old(messages)|,
          (if sm == null then Undefined else GetOpt(old(sm.currentSession), SessionId)) == GetOpt(old(Session()), SessionId),
          (if app == null then Undefined else GetOpt(old(Snapshot(app.currentSession)), SessionId)) == GetOpt(old(Session()), SessionId));
        outcome.None? && currentSession == old(currentSession) &&
        messages == AddResult(old(messages), Draft("system", text, now)) &&
        history == Logged(old(history), old(Session()), Accepted(old(messages), [Draft("system", text, now)]))
      ensures old(currentSession) != null && CommandRoute(command) == ResetSession ==>
        outcome.None? && currentSession == null &&
        messages == AddResult(old(messages), Draft("system", ResetText, now)) &&
        history == Logged(old(history), old(Session()), Accepted(old(messages), [Draft("system", ResetText, now)]))
      ensures old(currentSession) != null && CommandRoute(command) == SendToServer ==>
        outcome == Some(RequestOutcome(sm != null,
          if sm == null then Undefined else GetOpt(old(sm.currentSession), SessionId), reply, CommandFallback)) &&
        messages == AddAll(old(messages), CommandDrafts(command, now, outcome.value)) &&
        history == Logged(old(history), old(Session()), Accepted(old(messages), CommandDrafts(command, now, outcome.value))) &&
        currentSession == old(currentSession)
      ensures old(currentSession) != null && CommandRoute(command) == ResetSession && sm != null ==> sm.currentSession == None
      ensures old(currentSession) != null && CommandRoute(command) == ResetSession && app != null ==>
        app.currentSession == null && app.screen == old(app.screen) && app.costCenters == old(app.costCenters) &&
        app.selected == old(app.selected) && app.startDisabled == old(app.startDisabled) &&
        app.errorMessage == old(app.errorMessage)
      ensures sm != null && (old(currentSession) == null || CommandRoute(command) != ResetSession) ==>
        sm.currentSession == old(sm.currentSession)
      ensures sm != null ==> sm.sessionState == old(sm.sessionState) && sm.listeners == old(sm.listeners)
      ensures app != null && (old(currentSession) == null || CommandRoute(command) != ResetSession) ==> unchanged(app)
    {
      if currentSession == null {
        return None;
      }
      match CommandRoute(command)
      case ShowDebug =>
        ShowDebugInfo(now, sm, app);
        return None;
      case ResetSession =>
        HandleSessionReset(now, sm, app);
        return None;
      case SendToServer =>
        var result := RunCommand(command, now, sm, reply);
        outcome := Some(result);
    }

    /** The part of `handleCommand` that goes to the server: the command is sent through the
      session manager, or fails when there is none, and the drafts of `CommandDrafts` are
      posted. */
    method RunCommand(command: string, now: Time, sm: SessionManager?, reply: Reply<ExchangeData>)
      returns (result: Result<Body<ExchangeData>, Error>)
      modifies this
      ensures result == RequestOutcome(sm != null, if sm == null then Undefined else GetOpt(sm.currentSession, SessionId),
        reply, CommandFallback)
      ensures messages == AddAll(old(messages), CommandDrafts(command, now, result))
      ensures history == Logged(old(history), old(Session()), Accepted(old(messages), CommandDrafts(command, now, result)))
      ensures currentSession == old(currentSession)
    {
      if sm == null {
        result := Failure(NoManager);
      } else {
        var sent, r, fired := sm.SendCommand(command, Undefined, reply);
        result := r;
      }
      AddDrafts(CommandDrafts(command, now, result));
    }

    /** `exportChatHistory()`: the bound session's history. */
    function ExportChatHistory(now: Time): (r: Result<ChatExport, Error>)
      reads this, currentSession
      ensures r.Failure? <==> currentSession == null
      ensures r.Success? ==> r.value.messages == HistoryOf(history, Get(currentSession.fields, SessionId))
    {
      ExportChat(Session(), history, now)
    }
  }

  /** Only the session id decides where a message is logged. */
  lemma LoggedSameId(history: map<Value, seq<Message>>, a: Option<JsObject>, b: Option<JsObject>, ms: seq<Message>)
    requires a.Some? && b.Some? && Get(a.value, SessionId) == Get(b.value, SessionId)
    ensures Logged(history, a, ms) == Logged(history, b, ms)
  {
  }

  /** The session manager's session and state after `handleSendMessage` went through it:
      first aligned with the chat's session, then updated by a successful reply. */
  function ManagerAfterSend(before: Option<JsObject>, state: SessionState, session: JsObject,
                            result: Result<Body<ExchangeData>, Error>): (Option<JsObject>, SessionState)
  {
    var synced := Synced(before, Some(session));
    if result.Success? && result.value.data.Some? then
      var update := MessageUpdate(result.value.data.value);
      (Some(Spread(synced, update)), StateFrom(update, NoProgress))
    else
      (synced, state)
  }

  /** The app's session after a reply: changed only by a successful reply with data. */
  function AppAfterReply(fields: JsObject, result: Result<Body<ExchangeData>, Error>): JsObject {
    if result.Success? && result.value.data.Some? then ApplyExchange(fields, result.value.data.value) else fields
  }

  /** The request part of `handleSendMessage`: when the session manager's session id
    differs from the chat's, the manager takes the chat's session; then the message is sent
    through the manager, or fails when there is none. */
  method SendThrough(message: string, session: JsObject, sm: SessionManager?, reply: Reply<ExchangeData>)
    returns (result: Result<Body<ExchangeData>, Error>)
    modifies sm
    ensures result == RequestOutcome(sm != null, Get(session, SessionId), reply, MessageFallback)
    ensures sm != null ==>
      (sm.currentSession, sm.sessionState) == ManagerAfterSend(old(sm.currentSession), old(sm.sessionState), session, result) &&
      sm.listeners == old(sm.listeners)
  {
    if sm == null {
      return Failure(NoManager);
    }
    if GetOpt(sm.currentSession, SessionId) != Get(session, SessionId) {
      sm.currentSession := Some(session);
    }
    var sent, r, fired := sm.SendMessage(message, Undefined, reply);
    result := r;
  }

  /** Posting the user's message and then the reply drafts is posting them together. */
  lemma SendGlue(m0: seq<Message>, h0: map<Value, seq<Message>>, session: Option<JsObject>, user: MessageData,
                 rest: seq<MessageData>)
    ensures AddAll(AddResult(m0, user), rest) == AddAll(m0, [user] + rest)
    ensures Logged(Logged(h0, session, Accepted(m0, [user])), session, Accepted(AddResult(m0, user), rest)) ==
      Logged(h0, session, Accepted(m0, [user] + rest))
  {
    AcceptedOne(m0, user);
    AddAllConcat(m0, [user], rest);
    LoggedConcat(h0, session, Accepted(m0, [user]), Accepted(AddResult(m0, user), rest));
  }

  /** Adding a single draft is `AddResult`. */
  lemma AcceptedOne(messages: seq<Message>, d: MessageData)
    ensures AddAll(messages, [d]) == AddResult(messages, d)
    ensures Accepted(messages, [d]) == if Accepts(messages, d) then [ToMessage(d)] else []
  {
    AddAllSnoc(messages, [], d);
    assert [] + [d] == [d];
  }

  // ---------------------------------------------------------------------------
  // Application controller

  class CostCenterApp {
    var currentSession: SessionRecord?
    /** `currentScreen`. */
    var screen: string
    var costCenters: seq<CostCenter>
    /** `selectedCenters`, in insertion order. */
    var selected: seq<int>
    /** Whether the start button is disabled. */
    var startDisabled: bool
    /** The text of the error screen. */
    var errorMessage: string

    /** Every loaded center has its three lists, and a selection holds an id once. */
    predicate Valid()
      reads this
    {
      (forall c :: c in costCenters ==> HasAllLists(c)) && Distinct(selected)
    }

    /** The constructor followed by `loadDefaultCostCenters`: the fetched centers, or the
      defaults when the fetch fails. */
    constructor (fetched: Option<seq<CostCenter>>)
      ensures Valid()
      ensures currentSession == null && screen == "setup" && costCenters == LoadedCenters(fetched)
      ensures selected == [] && startDisabled && errorMessage == ""
    {
      currentSession := null;
      screen := "setup";
      costCenters := LoadedCenters(fetched);
      selected := [];
      startDisabled := true;
      errorMessage := "";
    }

    /** `toggleCostCenter(centerId)`: selects or unselects the id; the start button is
      disabled exactly when nothing is selected. */
    method ToggleCostCenter(id: int)
      requires Valid()
      modifies this
      ensures Valid()
      ensures selected == Toggled(old(selected), id)
      ensures id in selected <==> id !in old(selected)
      ensures startDisabled <==> selected == []
      ensures currentSession == old(currentSession) && screen == old(screen) && costCenters == old(costCenters)
      ensures errorMessage == old(errorMessage)
    {
      selected := Toggled(selected, id);
      startDisabled := selected == [];
    }

    /** The field count of `updateProgress`: for each selected id, in selection order, the
      list lengths of the center with that id. */
    method CountSelectedFields() returns (total: nat)
      requires Valid()
      ensures total == SelectedFieldCount(costCenters, selected)
    {
      total := 0;
      var i := 0;
      while i < |selected|
        invariant 0 <= i <= |selected|
        invariant total == SelectedFieldCount(costCenters, selected[..i])
      {
        var center := FindCenter(costCenters, selected[i]);
        if center.Some? {
          var c := center.value;
          total := total + |c.routineExpenses.value|;
          total := total + |c.employeeExpenses.value|;
          total := total + |c.equipmentExpenses.value|;
        }
        assert selected[..i + 1][..i] == selected[..i];
        i := i + 1;
      }
      assert selected[..i] == selected;
    }

    /** `updateProgress()`: nothing without a session; otherwise the current-center line and
      the percentage line. */
    method UpdateProgress() returns (view: Option<ProgressView>)
      requires Valid()
      ensures currentSession == null ==> view.None?
      ensures currentSession != null ==>
        view == Some(ProgressView(CenterLine(Get(currentSession.fields, CurrentCostCenter)),
          ProgressLine(SelectedFieldCount(costCenters, selected))))
    {
      if currentSession == null {
        return None;
      }
      var total := CountSelectedFields();
      view := Some(ProgressView(CenterLine(Get(currentSession.fields, CurrentCostCenter)), ProgressLine(total)));
    }

    /** `startSession()`: with an empty selection nothing happens. Otherwise the selected
      centers are posted; a failure shows the error screen, a success creates the session
      record, posts the start welcome into the chat (still bound to its previous session),
      shows the chat, and hands the record to the chat and the session manager. */
    method StartSession(now: Time, userInput: string, reply: Reply<StartData>, chat: ChatManager?, sm: SessionManager?)
      returns (payload: Option<StartPayload>)
      requires Valid()
      modifies this, chat, sm
      ensures Valid()
      ensures selected == old(selected) && costCenters == old(costCenters) && startDisabled == old(startDisabled)
      ensures old(selected) == [] ==>
        payload.None? && currentSession == old(currentSession) && screen == old(screen) && errorMessage == old(errorMessage)
      ensures old(selected) != [] ==>
        payload == Some(StartPayload(SelectedCenters(costCenters, selected), selected, Or(Str(userInput), Undefined)))
      ensures old(selected) != [] && StartOutcome(reply).Failure? ==>
        screen == "error" && errorMessage == "Erro ao iniciar sessão: " + StartOutcome(reply).error.message &&
        currentSession == old(currentSession)
      ensures old(selected) != [] && StartOutcome(reply).Success? ==>
        currentSession != null && fresh(currentSession) && screen == "chat" && errorMessage == old(errorMessage) &&
        currentSession.fields == NewSessionRecord(StartOutcome(reply).value, now, SelectedCenters(costCenters, selected))
      ensures old(selected) != [] && StartOutcome(reply).Success? && chat != null ==>
        chat.currentSession == currentSession &&
        (chat.messages, chat.history) ==
          StartedTranscript(old(chat.messages), old(chat.history), old(chat.Session()), currentSession.fields, now)
      ensures old(selected) != [] && StartOutcome(reply).Success? && sm != null ==>
        sm.currentSession == Some(currentSession.fields) &&
        sm.sessionState == StateFrom(currentSession.fields, ProgressOfData(Some(currentSession.fields)))
      ensures (old(selected) == [] || StartOutcome(reply).Failure?) && chat != null ==>
        chat.messages == old(chat.messages) && chat.history == old(chat.history) && chat.currentSession == old(chat.currentSession)
      ensures (old(selected) == [] || StartOutcome(reply).Failure?) && sm != null ==>
        sm.currentSession == old(sm.currentSession) && sm.sessionState == old(sm.sessionState)
      ensures sm != null ==> sm.listeners == old(sm.listeners)
    {
      if selected == [] {
        return None;
      }
      var chosen := SelectedCenters(costCenters, selected);
      payload := Some(StartPayload(chosen, selected, Or(Str(userInput), Undefined)));
      var outcome := StartOutcome(reply);
      if outcome.Failure? {
        errorMessage := "Erro ao iniciar sessão: " + outcome.error.message;
        screen := "error";
        return;
      }
      Open(NewSessionRecord(outcome.value, now, chosen), now, chat, sm);
    }

    /** The successful end of `startSession`: the new record becomes the app's session, the
      start welcome is posted, the chat is shown and `initializeChat` hands the record to the
      chat and the session manager. */
    method Open(record: JsObject, now: Time, chat: ChatManager?, sm: SessionManager?)
      requires CentersIsList(record)
      modifies this, chat, sm
      ensures currentSession != null && fresh(currentSession) && currentSession.fields == record && screen == "chat"
      ensures selected == old(selected) && costCenters == old(costCenters) && startDisabled == old(startDisabled)
      ensures errorMessage == old(errorMessage)
      ensures chat != null ==>
        chat.currentSession == currentSession &&
        (chat.messages, chat.history) == StartedTranscript(old(chat.messages), old(chat.history), old(chat.Session()), record, now)
      ensures sm != null ==>
        sm.currentSession == Some(record) && sm.sessionState == StateFrom(record, ProgressOfData(Some(record)))
      ensures sm != null ==> sm.listeners == old(sm.listeners)
    {
      var session := new SessionRecord(record);
      if chat != null {
        StartChat(chat, session, now);
      }
      currentSession := session;
      screen := "chat";
      if sm != null {
        HandOver(sm, record);
      }
    }

    /** `resetToSetup()`: back to the setup screen with no session and no selection. */
    method ResetToSetup()
      requires Valid()
      modifies this
      ensures Valid()
      ensures currentSession == null && selected == [] && startDisabled && screen == "setup"
      ensures costCenters == old(costCenters) && errorMessage == old(errorMessage)
    {
      currentSession := null;
      selected := [];
      startDisabled := true;
      screen := "setup";
    }
  }

  /** The chat's transcript and history after a start: the start welcome is posted while
      the chat is still bound to `bound`, then the chat is initialised with the new record. */
  function StartedTranscript(messages: seq<Message>, history: map<Value, seq<Message>>, bound: Option<JsObject>,
                             record: JsObject, now: Time): (seq<Message>, map<Value, seq<Message>>)
  {
    var first := Draft("bot", StartWelcome(record), now);
    var m1 := AddResult(messages, first);
    var h1 := Logged(history, bound, Accepted(messages, [first]));
    var base := if HistoryOf(h1, Get(record, SessionId)) != [] then [] else m1;
    var second := Draft("bot", WelcomeText(record), now);
    (AddResult(base, second), Logged(h1, Some(record), Accepted(base, [second])))
  }

  /** The chat side of a successful start (`startSession` posting the welcome, then
      `initializeChat`). */
  method StartChat(chat: ChatManager, session: SessionRecord, now: Time)
    modifies chat
    ensures chat.currentSession == session
    ensures (chat.messages, chat.history) ==
      StartedTranscript(old(chat.messages), old(chat.history), old(chat.Session()), session.fields, now)
  {
    chat.AddMessage(Draft("bot", StartWelcome(session.fields), now));
    chat.Initialize(session, now);
  }

  /** The session manager side of a successful start: initialised with the record, then
      given it as its current session. */
  method HandOver(sm: SessionManager, record: JsObject)
    requires CentersIsList(record)
    modifies sm
    ensures sm.currentSession == Some(record)
    ensures sm.sessionState == StateFrom(record, ProgressOfData(Some(record)))
    ensures sm.listeners == old(sm.listeners)
  {
    var thrown, fired := sm.Initialize(Some(record));
    sm.currentSession := Some(record);
  }

  // ---------------------------------------------------------------------------
  // Properties

  /** When the new session carries a question, the chat's greeting repeats the start
      welcome and is dropped: the transcript shows the question once. */
  lemma QuestionShownOnce(messages: seq<Message>, record: JsObject, now: Time)
    requires Get(record, CurrentQuestion).Str? && Get(record, CurrentQuestion).s != ""
    ensures var first := Draft("bot", StartWelcome(record), now);
      var second := Draft("bot", WelcomeText(record), now);
      AddResult(AddResult(messages, first), second) == AddResult(messages, first)
  {
    var first := Draft("bot", StartWelcome(record), now);
    var second := Draft("bot", WelcomeText(record), now);
    var m1 := AddResult(messages, first);
    assert StartWelcome(record) == WelcomeText(record);
    assert |m1| > 0 && m1[|m1| - 1].kind == "bot" && m1[|m1| - 1].content == StartWelcome(record);
    assert RepeatsLastBot(m1, ToMessage(second));
  }

  /** Without a question both greetings are shown, the start welcome first. */
  lemma BothGreetingsWithoutQuestion(messages: seq<Message>, record: JsObject, now: Time)
    requires !Truthy(Get(record, CurrentQuestion))
    ensures var first := Draft("bot", StartWelcome(record), now);
      var second := Draft("bot", WelcomeText(record), now);
      AddResult(AddResult(messages, first), second) == AddResult(messages, first) + [ToMessage(second)]
  {
    var first := Draft("bot", StartWelcome(record), now);
    var second := Draft("bot", WelcomeText(record), now);
    var m1 := AddResult(messages, first);
    assert StartWelcome(record)[0] == 'S';
    var rest := NatToString(LengthOr0(Get(record, CostCenters))) + CentersLoaded;
    assert WelcomeText(record) == "Olá! " + ("Vamos começar a coleta de dados para os centros de custo selecionados. " + rest);
    assert WelcomeText(record)[0] == 'O';
    assert m1[|m1| - 1].content == StartWelcome(record);
    assert !RepeatsLastBot(m1, ToMessage(second));
  }

  /** The progress bar of the app never moves: 0%, or `NaN%` with no fields. */
  lemma ProgressBarNeverMoves(totalFields: nat)
    ensures ProgressLine(totalFields) == "0% completo" || ProgressLine(totalFields) == "NaN% completo"
    ensures ProgressLine(totalFields) == "NaN% completo" <==> totalFields == 0
  {
  }

  /** After the synchronisation check the session manager holds a session with the chat's
      id, so a message goes out under the chat's session id. */
  lemma SyncAlignsIds(managerSession: Option<JsObject>, chatSession: JsObject)
    ensures ResolveId(Undefined, Synced(managerSession, Some(chatSession))) == Get(chatSession, SessionId)
  {
  }
}
