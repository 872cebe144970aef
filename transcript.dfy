/**
 * The transcript logic of `ChatManager` (components/chat.js) as values: which message
 * drafts `addMessage` accepts, what each exchange appends, the per-session history, the
 * update applied to the app's session after a reply, the consistency heuristics, the
 * command and quick-reply tables and the text export.
 */
module Transcript {
  import opened Wrappers
  import opened Text
  import opened Records
  import opened Session

  /** A stored message; `kind` is the message's `type`. */
  datatype Message = Message(kind: string, content: string, timestamp: Time)

  /** The argument of `addMessage`: not an object at all, or an object whose `content`
      may be null or undefined. */
  datatype MessageData =
    | NotAnObject
    | Fields(kind: string, content: Option<string>, timestamp: Time)

  function Draft(kind: string, content: string, now: Time): MessageData {
    Fields(kind, Some(content), now)
  }

  /** The object checks of `addMessage`: an object with a truthy `type` and a content that
      is neither null nor undefined. */
  predicate WellFormed(d: MessageData) {
    d.Fields? && d.kind != "" && d.content.Some?
  }

  function ToMessage(d: MessageData): Message
    requires d.Fields? && d.content.Some?
  {
    Message(d.kind, d.content.value, d.timestamp)
  }

  /** A bot message whose content equals that of the last message, itself a bot message. */
  predicate RepeatsLastBot(messages: seq<Message>, m: Message) {
    m.kind == "bot" && |messages| > 0 &&
    messages[|messages| - 1].kind == "bot" && messages[|messages| - 1].content == m.content
  }

  predicate Accepts(messages: seq<Message>, d: MessageData) {
    WellFormed(d) && !RepeatsLastBot(messages, ToMessage(d))
  }

  /** `messages` after `addMessage(d)`: the message is pushed at the end, or dropped when
      malformed or a repeat of the preceding bot message. */
  function AddResult(messages: seq<Message>, d: MessageData): (r: seq<Message>)
    ensures Accepts(messages, d) ==> r == messages + [ToMessage(d)]
    ensures !Accepts(messages, d) ==> r == messages
    ensures WellFormed(d) && d.kind != "bot" ==> r == messages + [ToMessage(d)]
    ensures WellFormed(d) && d.kind == "bot" && r == messages ==>
      |messages| > 0 && messages[|messages| - 1] .kind == "bot" && messages[|messages| - 1].content == d.content.value
  {
    if Accepts(messages, d) then messages + [ToMessage(d)] else messages
  }

  /** `messages` after adding each draft in turn. */
  function AddAll(messages: seq<Message>, ds: seq<MessageData>): seq<Message> {
    if ds == [] then messages else AddResult(AddAll(messages, ds[..|ds| - 1]), ds[|ds| - 1])
  }

  /** The messages that adding the drafts in turn actually appends. */
  function Accepted(messages: seq<Message>, ds: seq<MessageData>): seq<Message> {
    if ds == [] then []
    else
      var before := AddAll(messages, ds[..|ds| - 1]);
      var last := ds[|ds| - 1];
      Accepted(messages, ds[..|ds| - 1]) + (if Accepts(before, last) then [ToMessage(last)] else [])
  }

  /** `messageHistory.get(id) || []`. */
  function HistoryOf(history: map<Value, seq<Message>>, sessionId: Value): seq<Message> {
    if sessionId in history then history[sessionId] else []
  }

  /** The history after `ms` were accepted while `session` was bound: they go to the end of
      that session's list, created on first use; without a session nothing is recorded. */
  function Logged(history: map<Value, seq<Message>>, session: Option<JsObject>, ms: seq<Message>)
    : (h: map<Value, seq<Message>>)
    ensures session.Some? ==>
      HistoryOf(h, Get(session.value, SessionId)) == HistoryOf(history, Get(session.value, SessionId)) + ms
    ensures forall id :: (session.None? || id != Get(session.value, SessionId)) ==>
      HistoryOf(h, id) == HistoryOf(history, id) && (id in h <==> id in history)
  {
    if session.None? || ms == [] then history
    else
      var id := Get(session.value, SessionId);
      history[id := HistoryOf(history, id) + ms]
  }

  /** No two consecutive messages are equal bot messages. */
  predicate NoBotRepeat(messages: seq<Message>) {
    forall i :: 0 < i < |messages| ==> !RepeatsLastBot(messages[..i], messages[i])
  }

  // ---------------------------------------------------------------------------
  // Drafts of one exchange

  const SendErrorPrefix := "Erro ao enviar mensagem: "
  const CommandErrorPrefix := "Erro ao executar comando: "
  const NoManager := Error("Session Manager não disponível")
  const FinishedText := "🎉 Sessão finalizada com sucesso! Você pode exportar os dados agora."
  const CenterDoneText := "✅ Centro de custo finalizado!"
  const RecoveryText := "⚠️ Detectada inconsistência no fluxo. Tente usar o comando \"mostrar resumo\" ou recarregue a página se o problema persistir."
  const ResetText := "⚠️ Resetando sessão... Recarregue a página para começar uma nova sessão."

  /** `^\d+(\.\d+)?$`: digits, optionally followed by a dot and more digits. */
  predicate IsNumeric(s: string) {
    if '.' !in s then |s| > 0 && AllDigits(s)
    else
      var k := IndexOf(s, '.');
      0 < k < |s| - 1 && AllDigits(s[..k]) && AllDigits(s[k + 1..])
  }

  predicate AllDigits(s: string) {
    forall i :: 0 <= i < |s| ==> IsDigit(s[i])
  }

  /** The heuristics of `validateResponseConsistency`. */
  datatype Inconsistency =
    | NumberAskedAgain   // a number was sent, the bot asks for a number again
    | ConfirmIgnored     // a confirmation was sent, the bot asks for a value again
    | CenterMismatch     // a value was registered without naming the current center

  /** The phrases of a bot message that asks for a number. */
  const NumberRequest := "informe um valor numérico"
  const NumberWord := "valor numérico"

  function BotSays(botMessage: Option<string>, phrase: string): bool {
    botMessage.Some? && Contains(botMessage.value, phrase)
  }

  /** `currentCostCenter.name`: the name of a center; any other value has no `name`, and
      searching for `undefined` searches for that word. */
  function ExpectedName(center: Value): string {
    if center.CenterRef? then center.center.name else "undefined"
  }

  function Inconsistencies(user: string, botMessage: Option<string>, session: Option<JsObject>): (r: seq<Inconsistency>)
    ensures ConfirmIgnored in r <==>
      (Contains(user, "confirmo") || Contains(user, "próximo")) && BotSays(botMessage, NumberWord)
    ensures NumberAskedAgain in r <==> IsNumeric(user) && BotSays(botMessage, NumberRequest)
  {
    var center := GetOpt(session, CurrentCostCenter);
    (if IsNumeric(user) && BotSays(botMessage, NumberRequest) then [NumberAskedAgain] else [])
    + (if (Contains(user, "confirmo") || Contains(user, "próximo")) && BotSays(botMessage, NumberWord)
       then [ConfirmIgnored] else [])
    + (if Truthy(center) && BotSays(botMessage, "Registrado") && !Contains(botMessage.value, ExpectedName(center))
       then [CenterMismatch] else [])
  }

  /** Only an ignored confirmation reaches the transcript; the other findings are logged. */
  function AuditDrafts(user: string, botMessage: Option<string>, session: Option<JsObject>, now: Time)
    : (ds: seq<MessageData>)
    ensures ds == [] || ds == [Draft("system", RecoveryText, now)]
    ensures ds != [] <==> ConfirmIgnored in Inconsistencies(user, botMessage, session)
  {
    if ConfirmIgnored in Inconsistencies(user, botMessage, session) then [Draft("system", RecoveryText, now)] else []
  }

  /** `handleSpecialResponse(response)`: completion, then center done, then the reply's
      error. */
  function SpecialDrafts(body: Body<ExchangeData>, now: Time): (ds: seq<MessageData>)
    ensures |ds| <= 2
    ensures Draft("success", FinishedText, now) in ds <==>
      body.data.Some? && body.data.value.finished && body.data.value.nextCenter.None?
    ensures Draft("success", CenterDoneText, now) in ds <==> body.data.Some? && body.data.value.nextCenter.Some?
    ensures body.error.Some? && body.error.value != "" ==> |ds| > 0 && ds[|ds| - 1] == Draft("system", "⚠️ " + body.error.value, now)
    ensures forall k :: 0 <= k < |ds| && ds[k].Fields? && ds[k].kind == "system" ==> body.error.Some? && body.error.value != ""
  {
    var finished := body.data.Some? && body.data.value.finished && body.data.value.nextCenter.None?;
    var centerDone := body.data.Some? && body.data.value.nextCenter.Some?;
    var error := body.error.Some? && body.error.value != "";
    var ds := (if finished then [Draft("success", FinishedText, now)] else [])
      + (if centerDone then [Draft("success", CenterDoneText, now)] else [])
      + (if error then [Draft("system", "⚠️ " + body.error.value, now)] else []);
    ds
  }

  /** What the chat sees of the application controller: none, or one with its session. */
  datatype AppView = NoApp | AppWith(session: Option<JsObject>)

  /** The `TypeError` message when the app's session is null: the first write or read of
      that null session fails. */
  function NullSessionError(d: ExchangeData): string {
    if d.updatedCenter.Some? || d.nextCenter.Some? then NullSetCenter
    else if d.finished then NullSetComplete
    else NullReadCenter
  }

  const NullSetCenter := "Cannot set properties of null (setting 'currentCostCenter')"
  const NullSetComplete := "Cannot set properties of null (setting 'isComplete')"
  const NullReadCenter := "Cannot read properties of null (reading 'currentCostCenter')"

  /** The app's session after a reply: `nextCenter` overrides `updatedCenter`, and
      `isComplete` is only ever set to true. */
  function ApplyExchange(session: JsObject, d: ExchangeData): (r: JsObject)
    ensures d.nextCenter.Some? ==> Get(r, CurrentCostCenter) == CenterRef(d.nextCenter.value)
    ensures d.nextCenter.None? && d.updatedCenter.Some? ==> Get(r, CurrentCostCenter) == CenterRef(d.updatedCenter.value)
    ensures d.nextCenter.None? && d.updatedCenter.None? ==> Get(r, CurrentCostCenter) == Get(session, CurrentCostCenter)
    ensures Get(r, IsComplete) == if d.finished then Bool(true) else Get(session, IsComplete)
    ensures forall f :: f != CurrentCostCenter && f != IsComplete ==> Get(r, f) == Get(session, f)
  {
    var s1 := if d.updatedCenter.Some? then session[CurrentCostCenter := CenterRef(d.updatedCenter.value)] else session;
    var s2 := if d.nextCenter.Some? then s1[CurrentCostCenter := CenterRef(d.nextCenter.value)] else s1;
    if d.finished then s2[IsComplete := Bool(true)] else s2
  }

  const UndefinedData := "Cannot read properties of undefined (reading 'botMessage')"
  const UndefinedResult := "Cannot read properties of undefined (reading 'result')"

  /** The drafts `handleSendMessage` adds after the user's message, given the outcome of
      `sendMessage` (or the missing manager) and the app it sees. */
  function ReplyDrafts(user: string, now: Time, outcome: Result<Body<ExchangeData>, Error>,
                       session: Option<JsObject>, app: AppView): (ds: seq<MessageData>)
    ensures outcome.Failure? ==> ds == [Draft("system", SendErrorPrefix + outcome.error.message, now)]
  {
    match outcome
    case Failure(e) => [Draft("system", SendErrorPrefix + e.message, now)]
    case Success(body) =>
      match body.data
      case None => [Draft("system", SendErrorPrefix + UndefinedData, now)]
      case Some(d) =>
        AuditDrafts(user, d.botMessage, session, now) + [Fields("bot", d.botMessage, now)] +
        match app
        case NoApp => SpecialDrafts(body, now)
        case AppWith(None) => [Draft("system", SendErrorPrefix + NullSessionError(d), now)]
        case AppWith(Some(_)) =>
          (if d.finished && d.nextCenter.None? then [Draft("success", FinishedText, now)] else [])
          + SpecialDrafts(body, now)
  }

  /** The drafts of one `handleSendMessage` call; nothing at all for an empty trimmed input
      or without a session. */
  function SendDrafts(input: string, now: Time, outcome: Result<Body<ExchangeData>, Error>,
                      session: Option<JsObject>, app: AppView): (ds: seq<MessageData>)
    ensures Trim(input) == [] || session.None? ==> ds == []
    ensures Trim(input) != [] && session.Some? ==> |ds| > 0 && ds[0] == Draft("user", Trim(input), now)
  {
    var message := Trim(input);
    if message == [] || session.None? then []
    else [Draft("user", message, now)] + ReplyDrafts(message, now, outcome, session, app)
  }

  /** The drafts `handleCommand` adds for a command that is sent, given the outcome of
      `sendCommand` (or the missing manager). */
  function CommandDrafts(command: string, now: Time, outcome: Result<Body<ExchangeData>, Error>)
    : (ds: seq<MessageData>)
    ensures |ds| > 0 && ds[0] == Draft("command", "Comando: " + command, now)
    ensures outcome.Failure? ==>
      ds == [Draft("command", "Comando: " + command, now), Draft("system", CommandErrorPrefix + outcome.error.message, now)]
  {
    [Draft("command", "Comando: " + command, now)] +
    match outcome
    case Failure(e) => [Draft("system", CommandErrorPrefix + e.message, now)]
    case Success(body) =>
      match body.data
      case None => [Draft("system", CommandErrorPrefix + UndefinedResult, now)]
      case Some(d) =>
        [Fields("bot", d.result, now)]
        + (if d.botMessage.Some? && d.botMessage.value != "" then [Draft("bot", d.botMessage.value, now)] else [])
        + SpecialDrafts(body, now)
  }

  /** The two commands `handleCommand` handles locally. */
  const DebugCommand := "debug estado"
  const ResetCommand := "reset sessão"

  /** Where `handleCommand` sends a command. */
  datatype Route = ShowDebug | ResetSession | SendToServer

  function CommandRoute(command: string): (r: Route)
    ensures r == ShowDebug <==> ToLower(command) == DebugCommand
    ensures r == ResetSession <==> ToLower(command) == ResetCommand
  {
    if ToLower(command) == DebugCommand then ShowDebug
    else if ToLower(command) == ResetCommand then ResetSession
    else SendToServer
  }

  /** The buttons `createMessageActions` offers under a message. */
  datatype Actions = ConfirmOrCorrect | NoActions | Continue

  function ClassifyActions(content: string): (a: Actions)
    ensures a == ConfirmOrCorrect <==> Contains(content, "Registrado") && Contains(content, "R$")
    ensures a == Continue <==>
      !(Contains(content, "Registrado") && Contains(content, "R$")) &&
      !(Contains(content, "qual") && (Contains(content, "gasto") || Contains(content, "valor"))) &&
      (Contains(content, "próximo") || Contains(content, "Agora vamos"))
  {
    if Contains(content, "Registrado") && Contains(content, "R$") then ConfirmOrCorrect
    else if Contains(content, "qual") && (Contains(content, "gasto") || Contains(content, "valor")) then NoActions
    else if Contains(content, "próximo") || Contains(content, "Agora vamos") then Continue
    else NoActions
  }

  const ConfirmSentence := "sim, " + "confirmo" + " e vamos para o próximo item"
  const CorrectSentence := "não, quero corrigir este valor"
  const NextSentence := "próximo" + " item por favor"

  /** `sendQuickReply`: the three button replies become sentences, anything else is sent
      as it is. */
  function QuickReplyText(reply: string): (message: string)
    ensures reply == "confirmar" ==> message == ConfirmSentence
    ensures reply == "corrigir" ==> message == CorrectSentence
    ensures reply == "próximo" ==> message == NextSentence
    ensures reply != "confirmar" && reply != "corrigir" && reply != "próximo" ==> message == reply
  {
    if reply == "confirmar" then ConfirmSentence
    else if reply == "corrigir" then CorrectSentence
    else if reply == "próximo" then NextSentence
    else reply
  }

  /** `showWelcomeMessage`: the session's current question, or a greeting naming how many
      cost centers were loaded. */
  /** The opening words of the welcome without a question. */
  const WelcomeGreeting := "Olá! " + "Vamos começar a coleta de dados para os centros de custo selecionados. "
  const CentersLoaded := " centro(s) de custo foram carregados."

  function WelcomeText(session: JsObject): (text: string)
    ensures Get(session, CurrentQuestion).Str? && Get(session, CurrentQuestion).s != "" ==>
      text == Get(session, CurrentQuestion).s
    ensures !Truthy(Get(session, CurrentQuestion)) ==>
      text == WelcomeGreeting + NatToString(LengthOr0(Get(session, CostCenters))) + CentersLoaded
  {
    var question := Get(session, CurrentQuestion);
    if Truthy(question) then ValueText(question)
    else
      WelcomeGreeting + NatToString(LengthOr0(Get(session, CostCenters))) + CentersLoaded
  }

  /** The exported chat history of the bound session. */
  datatype ChatExport = ChatExport(sessionId: Value, exportedAt: string, messageCount: nat, messages: seq<Message>)

  /** `exportChatHistory`: fails without a session; otherwise that session's history in
      order, with its length. */
  function ExportChat(session: Option<JsObject>, history: map<Value, seq<Message>>, now: Time)
    : (r: Result<ChatExport, Error>)
    ensures session.None? <==> r.Failure?
    ensures r.Failure? ==> r.error == Error("Nenhuma sessão ativa")
    ensures r.Success? ==>
      r.value.messages == HistoryOf(history, Get(session.value, SessionId)) && r.value.messageCount == |r.value.messages| && r.value.sessionId == Get(session.value, SessionId)
  {
    match session
    case None => Failure(Error("Nenhuma sessão ativa"))
    case Some(s) =>
      var ms := HistoryOf(history, Get(s, SessionId));
      Success(ChatExport(Get(s, SessionId), now.iso, |ms|, ms))
  }

  /** One transcript line: `[time] TYPE: content`. */
  function Line(m: Message): (line: string)
    ensures |line| == |m.timestamp.clock| + |m.kind| + |m.content| + 5
    ensures line[..|m.timestamp.clock| + 3] == "[" + m.timestamp.clock + "] "
    ensures line[|m.timestamp.clock| + 3..|m.timestamp.clock| + 3 + |m.kind|] == ToUpper(m.kind)
    ensures line[|line| - |m.content| - 2..] == ": " + m.content
  {
    var head := "[" + m.timestamp.clock + "] ";
    var kind := ToUpper(m.kind);
    var line := head + kind + ": " + m.content;
    assert line[..|head|] == head;
    assert line[|head|..|head| + |kind|] == kind;
    assert line[|line| - |m.content| - 2..] == ": " + m.content;
    line
  }

  function Lines(messages: seq<Message>): (lines: seq<string>)
    ensures |lines| == |messages|
    ensures forall i :: 0 <= i < |messages| ==> lines[i] == Line(messages[i])
  {
    seq(|messages|, i requires 0 <= i < |messages| => Line(messages[i]))
  }

  /** `formatMessagesAsText`: the lines joined by newlines. */
  function FormatMessagesAsText(messages: seq<Message>): string {
    Join(Lines(messages), "\n")
  }

  // ---------------------------------------------------------------------------
  // Properties

  /** Appending is all `addMessage` ever does: the old transcript is a prefix and at most
      one message is added. */
  lemma AddResultAppends(messages: seq<Message>, d: MessageData)
    ensures messages <= AddResult(messages, d)
    ensures |AddResult(messages, d)| <= |messages| + 1
  {
  }

  /** The messages added by a batch are exactly the accepted ones, after the old ones. */
  lemma {:induction false} AddAllIsAccepted(messages: seq<Message>, ds: seq<MessageData>)
    ensures AddAll(messages, ds) == messages + Accepted(messages, ds)
  {
    if ds != [] {
      AddAllIsAccepted(messages, ds[..|ds| - 1]);
    }
  }

  /** Adding two batches one after the other is adding their concatenation. */
  lemma {:induction false} AddAllConcat(messages: seq<Message>, a: seq<MessageData>, b: seq<MessageData>)
    ensures AddAll(AddAll(messages, a), b) == AddAll(messages, a + b)
    ensures Accepted(messages, a) + Accepted(AddAll(messages, a), b) == Accepted(messages, a + b)
  {
    if b == [] {
      assert a + b == a;
    } else {
      var b' := b[..|b| - 1];
      assert (a + b)[..|a + b| - 1] == a + b';
      assert (a + b)[|a + b| - 1] == b[|b| - 1];
      AddAllConcat(messages, a, b');
    }
  }

  /** Adding one draft to a batch is adding it after the batch. */
  lemma AddAllSnoc(messages: seq<Message>, ds: seq<MessageData>, d: MessageData)
    ensures AddAll(messages, ds + [d]) == AddResult(AddAll(messages, ds), d)
    ensures Accepted(messages, ds + [d]) == Accepted(messages, ds)
      + (if Accepts(AddAll(messages, ds), d) then [ToMessage(d)] else [])
  {
    assert (ds + [d])[..|ds + [d]| - 1] == ds;
  }

  /** Recording two batches for the same session is recording them together. */
  lemma LoggedConcat(history: map<Value, seq<Message>>, session: Option<JsObject>, a: seq<Message>, b: seq<Message>)
    ensures Logged(Logged(history, session, a), session, b) == Logged(history, session, a + b)
  {
    if session.Some? {
      var id := Get(session.value, SessionId);
      if a == [] {
        assert a + b == b;
      } else if b == [] {
        assert a + b == a;
      } else {
        assert HistoryOf(history, id) + a + b == HistoryOf(history, id) + (a + b);
      }
    }
  }

  /** No two consecutive equal bot messages: `addMessage` keeps this for `messages`. */
  lemma AddResultKeepsNoBotRepeat(messages: seq<Message>, d: MessageData)
    requires NoBotRepeat(messages)
    ensures NoBotRepeat(AddResult(messages, d))
  {
    var r := AddResult(messages, d);
    if Accepts(messages, d) {
      forall i | 0 < i < |r|
        ensures !RepeatsLastBot(r[..i], r[i])
      {
        if i < |messages| {
          assert r[..i] == messages[..i] && r[i] == messages[i];
        } else {
          assert r[..i] == messages;
        }
      }
    }
  }

  lemma {:induction false} AddAllKeepsNoBotRepeat(messages: seq<Message>, ds: seq<MessageData>)
    requires NoBotRepeat(messages)
    ensures NoBotRepeat(AddAll(messages, ds))
  {
    if ds != [] {
      AddAllKeepsNoBotRepeat(messages, ds[..|ds| - 1]);
      AddResultKeepsNoBotRepeat(AddAll(messages, ds[..|ds| - 1]), ds[|ds| - 1]);
    }
  }

  /** The history, by contrast, is not deduplicated against itself: after the transcript is
      cleared, the same bot message is accepted again and recorded a second time. */
  lemma HistoryCanRepeat(session: JsObject, m: Message)
    requires m.kind == "bot"
    ensures var d := Draft("bot", m.content, m.timestamp);
      var h1 := Logged(map[], Some(session), Accepted([], [d]));
      var h2 := Logged(h1, Some(session), Accepted([], [d]));
      Accepted([], [d]) == [m] && HistoryOf(h2, Get(session, SessionId)) == [m, m]
  {
    var d := Draft("bot", m.content, m.timestamp);
    assert [d][..0] == [];
  }

  /** A failed exchange appends exactly the user's message and one system message naming
      the error; neither can be dropped. */
  lemma FailedExchangeAppendsTwo(messages: seq<Message>, input: string, now: Time, e: Error,
                                 session: JsObject, app: AppView)
    requires Trim(input) != []
    ensures AddAll(messages, SendDrafts(input, now, Failure(e), Some(session), app)) ==
      messages + [Message("user", Trim(input), now), Message("system", SendErrorPrefix + e.message, now)]
  {
    var message := Trim(input);
    var d1, d2 := Draft("user", message, now), Draft("system", SendErrorPrefix + e.message, now);
    assert SendDrafts(input, now, Failure(e), Some(session), app) == [d1, d2];
    AddTwo(messages, d1, d2);
  }

  /** Two well-formed drafts that are not bot messages are both appended. */
  lemma AddTwo(messages: seq<Message>, d1: MessageData, d2: MessageData)
    requires WellFormed(d1) && WellFormed(d2) && d1.kind != "bot" && d2.kind != "bot"
    ensures AddAll(messages, [d1, d2]) == messages + [ToMessage(d1), ToMessage(d2)]
  {
    assert [d1, d2][..1] == [d1];
    assert [d1][..0] == [];
    var once := AddAll(messages, [d1]);
    assert AddAll(messages, []) == messages;
    assert once == AddResult(AddAll(messages, []), d1);
    assert once == AddResult(messages, d1) == messages + [ToMessage(d1)];
    assert AddAll(messages, [d1, d2]) == AddResult(once, d2) == once + [ToMessage(d2)];
  }

  /** A user text made of digits never contains "confirmo" or "próximo", so the number rule
      alone never adds a transcript message. */
  lemma NumericRuleOnlyLogs(user: string, botMessage: Option<string>, session: Option<JsObject>, now: Time)
    requires IsNumeric(user)
    ensures AuditDrafts(user, botMessage, session, now) == []
  {
    NumericHasNoLetter(user, "confirmo");
    NumericHasNoLetter(user, "próximo");
  }

  /** A numeric text holds only digits and dots. */
  lemma NumericChars(s: string)
    requires IsNumeric(s)
    ensures forall i :: 0 <= i < |s| ==> IsDigit(s[i]) || s[i] == '.'
  {
    if '.' in s {
      var k := IndexOf(s, '.');
      forall i | 0 <= i < |s|
        ensures IsDigit(s[i]) || s[i] == '.'
      {
        if i < k {
          assert s[i] == s[..k][i];
        } else if i > k {
          assert s[i] == s[k + 1..][i - k - 1];
        }
      }
    }
  }

  lemma NumericHasNoLetter(s: string, word: string)
    requires IsNumeric(s) && |word| > 0 && !IsDigit(word[0]) && word[0] != '.'
    ensures !Contains(s, word)
  {
    NumericChars(s);
    NotContainsWithoutFirst(s, word);
  }

  /** The quick replies that move on ("confirmar", "próximo") produce texts that the
      consistency check recognises as a confirmation. */
  lemma ConfirmReplyConfirms()
    ensures Contains(QuickReplyText("confirmar"), "confirmo")
  {
    ContainsAt("confirmo", "confirmo", 0);
    ContainsInContext("sim, ", "confirmo", " e vamos para o próximo item", "confirmo");
  }

  lemma NextReplyConfirms()
    ensures Contains(QuickReplyText("próximo"), "próximo")
  {
    ContainsAt("próximo", "próximo", 0);
    ContainsInContext("", "próximo", " item por favor", "próximo");
    assert "" + "próximo" == "próximo";
  }

  /** Routing ignores case: a command and its lower-case form go the same way. */
  lemma CommandRouteIgnoresCase(command: string)
    ensures CommandRoute(ToLower(command)) == CommandRoute(command)
  {
    ToLowerIdempotent(command);
  }

  /** The three outcomes of `handleSpecialResponse` for the data part: a finished reply
      without a next center is announced as completion, one with a next center as a
      finished center, never both. */
  lemma SpecialDraftsExclusive(body: Body<ExchangeData>, now: Time)
    ensures !(Draft("success", FinishedText, now) in SpecialDrafts(body, now) &&
              Draft("success", CenterDoneText, now) in SpecialDrafts(body, now))
  {
  }

  /** When both an updated and a next center arrive, the app follows the next one while the
      session manager keeps the updated one; and only the session manager can clear
      `isComplete`. */
  lemma CenterPrecedenceDisagrees(session: JsObject, d: ExchangeData)
    requires d.updatedCenter.Some? && d.nextCenter.Some? && d.updatedCenter != d.nextCenter
    requires !d.finished && Get(session, IsComplete) == Bool(true)
    ensures Get(ApplyExchange(session, d), CurrentCostCenter) == CenterRef(d.nextCenter.value)
    ensures MessageUpdate(d)[CurrentCostCenter] == CenterRef(d.updatedCenter.value)
    ensures Get(ApplyExchange(session, d), CurrentCostCenter) != MessageUpdate(d)[CurrentCostCenter]
    ensures Truthy(Get(ApplyExchange(session, d), IsComplete))
    ensures !Truthy(Get(Spread(Some(session), MessageUpdate(d)), IsComplete))
  {
  }

  /** `isComplete` on the app's session never goes from truthy to falsy. */
  lemma ApplyKeepsComplete(session: JsObject, d: ExchangeData)
    requires Truthy(Get(session, IsComplete))
    ensures Truthy(Get(ApplyExchange(session, d), IsComplete))
  {
  }

  /** With the app attached, a final reply announces completion twice: once through the
      app's completion handler and once through the special-response handler. Both are
      `success` messages, which the duplicate rule does not drop. */
  lemma CompletionAnnouncedTwice(messages: seq<Message>, user: string, now: Time, body: Body<ExchangeData>,
                                 session: Option<JsObject>, appSession: JsObject)
    requires body.data.Some? && body.data.value.finished && body.data.value.nextCenter.None?
    requires body.error.None?
    ensures var audit := AuditDrafts(user, body.data.value.botMessage, session, now);
      ReplyDrafts(user, now, Success(body), session, AppWith(Some(appSession)))
        == audit + [Fields("bot", body.data.value.botMessage, now),
                    Draft("success", FinishedText, now), Draft("success", FinishedText, now)]
  {
  }

  /** The text export has one line per message, recoverable by splitting on newlines when
      no message content holds a newline. */
  lemma FormatLinesRoundTrip(messages: seq<Message>)
    requires forall i :: 0 <= i < |messages| ==>
      '\n' !in messages[i].content && '\n' !in messages[i].kind && '\n' !in messages[i].timestamp.clock
    requires |messages| > 0
    ensures Split(FormatMessagesAsText(messages), '\n') == Lines(messages)
  {
    var lines := Lines(messages);
    forall i | 0 <= i < |lines|
      ensures '\n' !in lines[i]
    {
      var m := messages[i];
      assert forall j :: 0 <= j < |m.kind| ==> ToUpper(m.kind)[j] != '\n';
      assert lines[i] == "[" + m.timestamp.clock + "] " + ToUpper(m.kind) + ": " + m.content;
    }
    SplitJoin(lines, '\n');
  }
}
