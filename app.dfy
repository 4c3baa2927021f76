/** The chat screen: the transcript with its loading and error flags, the
    chat session behind it, and the three things that change them —
    creating the session, starting a new chat, and sending a message. */
module App {

  import opened Base
  import opened Text
  import opened JsonValues
  import opened Types
  import opened MondeClient
  import SalesApi
  import opened GeminiService

  /** `chatState`: the rendered transcript and its two flags. */
  datatype ChatState = ChatState(messages: seq<Message>, isLoading: bool, error: Option<string>)

  const WelcomeText: string :=
    "Olá. Sou o agente virtual da Clube Turismo Jardinópolis. Como posso ajudar com suas reservas, cotações, ou consultas no sistema Monde hoje?"

  const InitFailure: string := "Falha ao inicializar serviço de IA."

  const Apology: string :=
    "Peço desculpas, encontrei um problema temporário. Se for um erro de conexão com o Monde, verifique se o serviço está acessível."

  /** The greeting every transcript starts with. */
  function Welcome(id: string, now: nat): (m: Message)
    ensures m.role == Model && m.content == WelcomeText && m.id == id
    ensures m.attachment.None? && m.toolCalls.None? && m.groundingChunks.None?
  {
    Message(id, Model, WelcomeText, now, None, None, None)
  }

  /** A fresh transcript: the greeting alone, idle, without error. */
  function Fresh(id: string, now: nat): (s: ChatState)
    ensures |s.messages| == 1 && s.messages[0] == Welcome(id, now)
    ensures !s.isLoading && s.error.None?
  {
    ChatState([Welcome(id, now)], false, None)
  }

  /** The guard of `handleSendMessage`: nothing to send, or no session. */
  predicate Ignored(text: string, attachment: Option<Attachment>, hasSession: bool) {
    (Trim(text) == "" && attachment.None?) || !hasSession
  }

  /** What is worth sending: some non-blank text, or an attachment. */
  lemma IgnoredIff(text: string, attachment: Option<Attachment>, hasSession: bool)
    ensures !Ignored(text, attachment, hasSession) <==>
              hasSession && (attachment.Some? || exists i :: 0 <= i < |text| && !IsWhitespace(text[i]))
  {
    if Trim(text) == "" {
      assert Blank(text);
    } else if attachment.None? {
      assert !Blank(text);
    }
  }

  /** The user's turn, identified by the clock reading in milliseconds. */
  function UserMessage(text: string, attachment: Option<Attachment>, now: nat): (m: Message)
    ensures m.role == User && m.content == text && m.attachment == attachment
    ensures m.id == NatToString(now) && m.timestamp == now
    ensures m.toolCalls.None? && m.groundingChunks.None?
  {
    Message(NatToString(now), User, text, now, None, attachment, None)
  }

  /** The model's turn: the agent's text, references and call log, under the
      identifier of the clock reading plus one. */
  function BotMessage(reply: AgentResponse, now: nat): (m: Message)
    ensures m.role == Model && m.content == reply.text
    ensures m.groundingChunks == Some(reply.groundingChunks) && m.toolCalls == reply.toolCalls
    ensures m.id == NatToString(now + 1) && m.attachment.None?
  {
    Message(NatToString(now + 1), Model, reply.text, now, Some(reply.groundingChunks), None, reply.toolCalls)
  }

  /** With a clock that does not run backwards, the two messages of one send
      never share an identifier. */
  lemma TurnIdsDistinct(reply: AgentResponse, text: string, attachment: Option<Attachment>, now: nat, later: nat)
    requires now <= later
    ensures UserMessage(text, attachment, now).id != BotMessage(reply, later).id
  {
    NatToStringInjective(now, later + 1);
  }

  /** The state while the agent works: the user's turn appended, loading,
      the last error cleared. */
  function Submitted(s: ChatState, user: Message): (t: ChatState)
    ensures |t.messages| == |s.messages| + 1
    ensures t.messages[..|s.messages|] == s.messages && t.messages[|s.messages|] == user
    ensures t.isLoading && t.error.None?
  {
    ChatState(s.messages + [user], true, None)
  }

  /** The state once the agent has answered or failed. */
  function Settled(s: ChatState, outcome: Result<AgentResponse>, later: nat): (t: ChatState)
    ensures !t.isLoading
    ensures |t.messages| >= |s.messages| && t.messages[..|s.messages|] == s.messages
    ensures outcome.Ok? ==> |t.messages| == |s.messages| + 1 && t.messages[|s.messages|] == BotMessage(outcome.value, later)
    ensures outcome.Ok? ==> t.error == s.error
    ensures outcome.Err? ==> t.messages == s.messages && t.error == Some(Apology)
  {
    if outcome.Ok? then ChatState(s.messages + [BotMessage(outcome.value, later)], false, s.error)
    else ChatState(s.messages, false, Some(Apology))
  }

  /** One accepted send, end to end: the transcript only grows, by the user's
      turn and then exactly one model turn on success, or by the user's turn
      alone with the apology on failure; either way it ends idle. */
  lemma {:induction false} SendAppendsOnly(s: ChatState, text: string, attachment: Option<Attachment>,
                                            now: nat, outcome: Result<AgentResponse>, later: nat)
    ensures var t := Settled(Submitted(s, UserMessage(text, attachment, now)), outcome, later);
      && t.messages[..|s.messages|] == s.messages
      && t.messages[|s.messages|] == UserMessage(text, attachment, now)
      && !t.isLoading
      && (outcome.Ok? ==>
            && t.messages == s.messages + [UserMessage(text, attachment, now), BotMessage(outcome.value, later)]
            && t.error.None?)
      && (outcome.Err? ==>
            && t.messages == s.messages + [UserMessage(text, attachment, now)]
            && t.messages[|t.messages| - 1].role == User
            && t.error == Some(Apology))
  {
    var user := UserMessage(text, attachment, now);
    var u := Submitted(s, user);
    var t := Settled(u, outcome, later);
    assert u.messages == s.messages + [user];
    assert t.messages[..|u.messages|] == u.messages;
    assert t.messages[..|s.messages|] == u.messages[..|s.messages|];
    if outcome.Ok? {
      assert t.messages == u.messages + [BotMessage(outcome.value, later)];
    }
  }

  /** The screen: its transcript, the session id that re-creates the chat
      input, the chat session (absent until created) and the user's
      position (absent until the browser reports one). The back-office
      services the tools use are fixed. */
  class ChatScreen {
    const auth: AuthService
    const ledger: SalesApi.Ledger
    var messages: seq<Message>
    var isLoading: bool
    var error: Option<string>
    var sessionId: nat
    var session: Option<ChatSession>
    var userLocation: Option<MapLocation>

    function State(): ChatState
      reads this
    {
      ChatState(messages, isLoading, error)
    }

    /** The first render: the greeting `welcome-1`, session id 0, no session
        yet, no position. */
    constructor (auth: AuthService, ledger: SalesApi.Ledger, now: nat)
      ensures this.auth == auth && this.ledger == ledger
      ensures State() == Fresh("welcome-1", now)
      ensures sessionId == 0 && session.None? && userLocation.None?
    {
      this.auth := auth;
      this.ledger := ledger;
      messages := [Welcome("welcome-1", now)];
      isLoading := false;
      error := None;
      sessionId := 0;
      session := None;
      userLocation := None;
    }

    /** The session effect, run on mount and after each new chat:
        `createChatSession()` either gives a session or throws, and then only
        the error flag changes. */
    method InitSession(created: Result<ChatSession>)
      modifies this`session, this`error
      ensures created.Ok? ==> session == Some(created.value) && error == old(error)
      ensures created.Err? ==> session == old(session) && error == Some(InitFailure)
    {
      if created.Ok? {
        session := Some(created.value);
      } else {
        error := Some(InitFailure);
      }
    }

    /** The geolocation effect: a position, if the browser grants one. */
    method Locate(position: Option<MapLocation>)
      modifies this`userLocation
      ensures position.Some? ==> userLocation == position
      ensures position.None? ==> userLocation == old(userLocation)
    {
      if position.Some? {
        userLocation := position;
      }
    }

    /** `handleNewChat`: a new session id and a fresh transcript whose
        greeting is named after the clock. The session itself is re-created
        by the session effect. */
    method NewChat(now: nat)
      modifies this`sessionId, this`messages, this`isLoading, this`error
      ensures sessionId == old(sessionId) + 1
      ensures State() == Fresh("welcome-" + NatToString(now), now)
    {
      sessionId := sessionId + 1;
      messages := [Welcome("welcome-" + NatToString(now), now)];
      isLoading := false;
      error := None;
    }

    /** `handleSendMessage`: unless the guard holds, appends the user's turn,
        asks the agent (first message built from the text, the attachment
        and the known position) and settles on its answer. `now` and `later`
        are the two clock readings; `outcome` is what the agent gave, absent
        when the send was ignored. */
    method HandleSendMessage(text: string, attachment: Option<Attachment>, now: nat, later: nat)
      returns (ghost outcome: Option<Result<AgentResponse>>, ghost calls: seq<ToolCall>, ghost results: seq<Json>,
               ghost last: ModelResponse)
      requires auth.Valid()
      modifies this`messages, this`isLoading, this`error, auth, auth.backend, ledger`queries
      modifies if session.Some? then {session.value} else {}
      ensures auth.Valid()
      ensures outcome.None? <==> Ignored(text, attachment, session.Some?)
      ensures session == old(session)
      ensures outcome.None? ==> State() == old(State())
      ensures outcome.None? && session.Some? ==> session.value.sent == old(session.value.sent)
      ensures outcome.Some? ==>
        State() == Settled(Submitted(old(State()), UserMessage(text, attachment, now)), outcome.value, later)
      ensures outcome.Some? ==>
        && |session.value.sent| > |old(session.value.sent)|
        && session.value.sent[..|old(session.value.sent)|] == old(session.value.sent)
        && AgentTurn(session.value, session.value.sent, |old(session.value.sent)|,
                     Sent(BuildPayload(text, attachment), LocationConfig(userLocation)), outcome.value, calls, results, last)
    {
      if Ignored(text, attachment, session.Some?) {
        outcome, calls, results, last := None, [], [], ModelResponse(None, None);
        return;
      }
      var reply;
      reply, calls, results, last := Send(text, attachment, now, later);
      outcome := Some(reply);
    }

    /** An accepted send: the user's turn appended, the agent asked through
        the session, and the transcript settled on its answer. */
    method Send(text: string, attachment: Option<Attachment>, now: nat, later: nat)
      returns (reply: Result<AgentResponse>, ghost calls: seq<ToolCall>, ghost results: seq<Json>, ghost last: ModelResponse)
      requires auth.Valid() && session.Some?
      modifies this`messages, this`isLoading, this`error, auth, auth.backend, ledger`queries, session.value
      ensures auth.Valid()
      ensures State() == Settled(Submitted(old(State()), UserMessage(text, attachment, now)), reply, later)
      ensures |session.value.sent| > |old(session.value.sent)|
      ensures session.value.sent[..|old(session.value.sent)|] == old(session.value.sent)
      ensures AgentTurn(session.value, session.value.sent, |old(session.value.sent)|,
                        Sent(BuildPayload(text, attachment), LocationConfig(userLocation)), reply, calls, results, last)
    {
      var user := UserMessage(text, attachment, now);
      messages, isLoading, error := messages + [user], true, None;
      reply, calls, results, last := SendMessageToAgent(session.value, auth, ledger, text, userLocation, attachment);
      Settle(reply, later);
    }

    /** The end of `handleSendMessage`: the agent's turn on success, the
        apology on failure, and no longer loading. */
    method Settle(reply: Result<AgentResponse>, later: nat)
      modifies this`messages, this`isLoading, this`error
      ensures State() == Settled(old(State()), reply, later)
    {
      if reply.Ok? {
        messages, isLoading := messages + [BotMessage(reply.value, later)], false;
      } else {
        isLoading, error := false, Some(Apology);
      }
    }
  }
}
