/** The agent turn: builds the first message (an attached PDF first, then the
    text), sends it with the user's location, then runs the tool loop — one
    function call per model response, executed locally and answered with one
    `functionResponse` — until the model answers without a call, and
    assembles the final text, the grounding references and the call log. */
module GeminiService {

  import opened Base
  import opened Text
  import opened JsonValues
  import opened Types
  import opened MondeClient
  import SalesApi
  import opened ToolDefinitions

  // ---------------------------------------------------------------------
  // Messages exchanged with the chat session
  // ---------------------------------------------------------------------

  /** A content part, sent or received. */
  datatype Part =
    | InlineData(mimeType: string, data: string)
    | TextPart(text: string)
    | FunctionCall(call: ToolCall)
    | FunctionResponse(name: string, response: Json)

  /** `message`: a plain string, or a list of parts. */
  datatype Payload = PlainText(message: string) | Parts(parts: seq<Part>)

  /** `toolConfig.retrievalConfig.latLng`: the position Maps grounding uses. */
  datatype RequestConfig = RequestConfig(latitude: real, longitude: real)

  /** One `chat.sendMessage({message, config})`. */
  datatype Sent = Sent(payload: Payload, config: Option<RequestConfig>)

  datatype GroundingMetadata = GroundingMetadata(groundingChunks: Option<seq<GroundingChunk>>)

  datatype Content = Content(parts: Option<seq<Part>>)

  datatype Candidate = Candidate(content: Option<Content>, groundingMetadata: Option<GroundingMetadata>)

  /** A model response: its candidates and the SDK's `text` accessor. */
  datatype ModelResponse = ModelResponse(candidates: Option<seq<Candidate>>, text: Option<string>)

  /** What one agent turn hands back to the UI. */
  datatype AgentResponse = AgentResponse(text: string, groundingChunks: seq<GroundingChunk>, toolCalls: Option<seq<ToolCall>>)

  const SessionExhausted: string := "The chat session gave no further answer."

  /** A chat session (`createChatSession`), seen from outside: the answers
      the model gives to the successive sends of this session — a response,
      or the error the send rejects with — and the log of what was sent. */
  class ChatSession {
    const answers: seq<Result<ModelResponse>>
    var sent: seq<Sent>

    constructor (answers: seq<Result<ModelResponse>>)
      ensures this.answers == answers && sent == []
    {
      this.answers := answers;
      sent := [];
    }

    /** The answer to the i-th send; past the last scripted answer every send
        is rejected. */
    function AnswerAt(i: nat): Result<ModelResponse> {
      if i < |answers| then answers[i] else Err(SessionExhausted)
    }

    method SendMessage(s: Sent) returns (r: Result<ModelResponse>)
      modifies this`sent
      ensures sent == old(sent) + [s]
      ensures r == AnswerAt(|old(sent)|)
    {
      r := AnswerAt(|sent|);
      sent := sent + [s];
    }
  }

  // ---------------------------------------------------------------------
  // The first message
  // ---------------------------------------------------------------------

  const DefaultPrompt: string := "Por favor, analise este documento em anexo."

  /** The location config sent with the first message, if a location is
      known. */
  function LocationConfig(location: Option<MapLocation>): (c: Option<RequestConfig>)
    ensures c.Some? <==> location.Some?
    ensures c.Some? ==> c.value.latitude == location.value.latitude && c.value.longitude == location.value.longitude
  {
    if location.Some? then Some(RequestConfig(location.value.latitude, location.value.longitude)) else None
  }

  /** The first message: the bare text, or, with an attachment, the PDF part
      followed by the text — or by the default request when the text is
      blank. */
  function BuildPayload(message: string, attachment: Option<Attachment>): (p: Payload)
    ensures attachment.None? ==> p == PlainText(message)
    ensures attachment.Some? ==>
      && p.Parts? && |p.parts| == 2
      && p.parts[0] == InlineData(attachment.value.mimeType, attachment.value.base64)
      && p.parts[1].TextPart?
      && (Trim(message) != "" ==> p.parts[1].text == message)
      && (Trim(message) == "" ==> p.parts[1].text == DefaultPrompt)
  {
    if attachment.None? then PlainText(message)
    else
      var text := if Trim(message) != "" then message else DefaultPrompt;
      Parts([InlineData(attachment.value.mimeType, attachment.value.base64), TextPart(text)])
  }

  /** With an attachment, the text part never is blank. */
  lemma AttachmentTextNeverBlank(message: string, attachment: Attachment)
    ensures Trim(BuildPayload(message, Some(attachment)).parts[1].text) != ""
  {
    if Trim(message) == "" {
      assert !IsWhitespace(DefaultPrompt[0]);
    }
  }

  // ---------------------------------------------------------------------
  // Reading a response
  // ---------------------------------------------------------------------

  /** `response.candidates?.[0]?.content?.parts`, or no parts. */
  function PartsOf(r: ModelResponse): seq<Part> {
    if r.candidates.Some? && |r.candidates.value| > 0
       && r.candidates.value[0].content.Some? && r.candidates.value[0].content.value.parts.Some?
    then r.candidates.value[0].content.value.parts.value
    else []
  }

  /** `parts.some(p => p.functionCall)`. */
  predicate AnyCall(parts: seq<Part>) {
    exists i | 0 <= i < |parts| :: parts[i].FunctionCall?
  }

  /** `parts.find(p => p.functionCall)`: the call of the first part that
      holds one. */
  function FirstCall(parts: seq<Part>): (c: Option<ToolCall>)
    ensures c.Some? <==> AnyCall(parts)
    ensures c.Some? ==>
              exists i :: 0 <= i < |parts| && parts[i] == FunctionCall(c.value) &&
                (forall j :: 0 <= j < i ==> !parts[j].FunctionCall?)
  {
    if parts == [] then None
    else if parts[0].FunctionCall? then Some(parts[0].call)
    else
      var rest := FirstCall(parts[1..]);
      if rest.Some? then
        var i :| 0 <= i < |parts[1..]| && parts[1..][i] == FunctionCall(rest.value) &&
          forall j :: 0 <= j < i ==> !parts[1..][j].FunctionCall?;
        assert parts[i + 1] == FunctionCall(rest.value);
        Some(rest.value)
      else
        None
  }

  /** Only the first call is taken: a later call never shadows an earlier
      one. */
  lemma FirstCallIsFirst(before: seq<Part>, call: ToolCall, after: seq<Part>)
    requires forall j :: 0 <= j < |before| ==> !before[j].FunctionCall?
    ensures FirstCall(before + [FunctionCall(call)] + after) == Some(call)
  {
    var parts := before + [FunctionCall(call)] + after;
    assert parts[|before|] == FunctionCall(call);
    forall j | 0 <= j < |before|
      ensures !parts[j].FunctionCall?
    {
      assert parts[j] == before[j];
    }
  }

  const DefaultText: string := "Processado com sucesso."

  /** `response.text || "Processado com sucesso."`. */
  function FinalText(r: ModelResponse): (t: string)
    ensures t != ""
    ensures r.text.Some? && r.text.value != "" ==> t == r.text.value
    ensures r.text.None? || r.text.value == "" ==> t == DefaultText
  {
    if r.text.Some? && r.text.value != "" then r.text.value else DefaultText
  }

  /** The grounding chunks of the first candidate, or none. */
  function GroundingOf(r: ModelResponse): (g: seq<GroundingChunk>)
    ensures g != [] ==>
              && r.candidates.Some? && |r.candidates.value| > 0
              && r.candidates.value[0].groundingMetadata.Some?
              && r.candidates.value[0].groundingMetadata.value.groundingChunks == Some(g)
    ensures r.candidates.Some? && |r.candidates.value| > 0
            && r.candidates.value[0].groundingMetadata.Some?
            && r.candidates.value[0].groundingMetadata.value.groundingChunks.Some? ==>
              g == r.candidates.value[0].groundingMetadata.value.groundingChunks.value
  {
    if r.candidates.Some? && |r.candidates.value| > 0
       && r.candidates.value[0].groundingMetadata.Some?
       && r.candidates.value[0].groundingMetadata.value.groundingChunks.Some?
    then r.candidates.value[0].groundingMetadata.value.groundingChunks.value
    else []
  }

  /** The follow-up that answers one call: a single `functionResponse` part
      named after the call, whose response wraps the tool's answer under
      `result`; it carries no location config. */
  function FollowUp(call: ToolCall, result: Json): Sent {
    Sent(Parts([FunctionResponse(call.name, JObj(map["result" := result]))]), None)
  }

  /** The call log, or `undefined` when no tool ran. */
  function LoggedCalls(log: seq<ToolCall>): (t: Option<seq<ToolCall>>)
    ensures t.None? <==> log == []
    ensures t.Some? ==> t.value == log
  {
    if |log| > 0 then Some(log) else None
  }

  /** The answer to send `i` asked for `call` first. */
  ghost predicate AskedFor(chat: ChatSession, i: nat, call: ToolCall) {
    chat.AnswerAt(i).Ok? && FirstCall(PartsOf(chat.AnswerAt(i).value)) == Some(call)
  }

  /** The sends of one turn, from send `n` on: the first message, then one
      follow-up per logged call, each answering the call the previous answer
      asked for. */
  ghost predicate Exchanged(chat: ChatSession, sent: seq<Sent>, n: nat, first: Sent,
                            log: seq<ToolCall>, sentBack: seq<Json>)
  {
    && |sent| == n + 1 + |log| && |sentBack| == |log|
    && sent[n] == first
    && forall k :: 0 <= k < |log| ==>
         && AskedFor(chat, n + k, log[k])
         && sent[n + 1 + k] == FollowUp(log[k], sentBack[k])
  }

  /** One whole agent turn from send `n` on: the exchange of sends, and its
      outcome — the rejection of the last send, or, for a last answer that
      asks for no call, its final text, its grounding and the call log. */
  ghost predicate AgentTurn(chat: ChatSession, sent: seq<Sent>, n: nat, first: Sent, r: Result<AgentResponse>,
                            calls: seq<ToolCall>, results: seq<Json>, last: ModelResponse)
  {
    && Exchanged(chat, sent, n, first, calls, results)
    && (r.Err? ==> chat.AnswerAt(|sent| - 1) == Err(r.message))
    && (r.Ok? ==>
          && chat.AnswerAt(|sent| - 1) == Ok(last)
          && !AnyCall(PartsOf(last))
          && r.value == AgentResponse(FinalText(last), GroundingOf(last), LoggedCalls(calls)))
  }

  lemma ExchangedStep(chat: ChatSession, sent: seq<Sent>, n: nat, first: Sent,
                      log: seq<ToolCall>, sentBack: seq<Json>, call: ToolCall, result: Json)
    requires Exchanged(chat, sent, n, first, log, sentBack)
    requires AskedFor(chat, |sent| - 1, call)
    ensures Exchanged(chat, sent + [FollowUp(call, result)], n, first, log + [call], sentBack + [result])
  {
    var sent', log', back' := sent + [FollowUp(call, result)], log + [call], sentBack + [result];
    forall k | 0 <= k < |log'|
      ensures AskedFor(chat, n + k, log'[k]) && sent'[n + 1 + k] == FollowUp(log'[k], back'[k])
    {
      if k < |log| {
        assert log'[k] == log[k] && back'[k] == sentBack[k] && sent'[n + 1 + k] == sent[n + 1 + k];
      }
    }
  }

  // ---------------------------------------------------------------------
  // sendMessageToAgent
  // ---------------------------------------------------------------------

  /** `executeMondeTool` as the tool loop sees it: only its frame matters
      here and the session stays usable; what each tool does and answers is
      stated by `ExecuteMondeTool` itself. */
  method RunTool(auth: AuthService, ledger: SalesApi.Ledger, call: ToolCall) returns (result: Json)
    requires auth.Valid()
    modifies auth, auth.backend, ledger`queries
    ensures auth.Valid()
  {
    var answer, _, _ := ExecuteMondeTool(auth, ledger, call.name, call.args);
    result := answer;
  }

  /** Sends the first message (with the location config), then, while the
      latest response holds a function call, runs its first call, logs it
      and sends its result back (without config). A rejected send
      propagates. */
  method SendMessageToAgent(chat: ChatSession, auth: AuthService, ledger: SalesApi.Ledger,
                            message: string, location: Option<MapLocation>, attachment: Option<Attachment>)
    returns (r: Result<AgentResponse>, ghost calls: seq<ToolCall>, ghost results: seq<Json>, ghost last: ModelResponse)
    requires auth.Valid()
    modifies chat`sent, auth, auth.backend, ledger`queries
    ensures auth.Valid()
    ensures |chat.sent| > |old(chat.sent)| && chat.sent[..|old(chat.sent)|] == old(chat.sent)
    ensures AgentTurn(chat, chat.sent, |old(chat.sent)|, Sent(BuildPayload(message, attachment), LocationConfig(location)),
                      r, calls, results, last)
  {
    ghost var n := |chat.sent|;
    var config := LocationConfig(location);
    var payload := BuildPayload(message, attachment);
    var first := chat.SendMessage(Sent(payload, config));
    if first.Err? {
      r, calls, results, last := Err(first.message), [], [], ModelResponse(None, None);
      return;
    }
    var response := first.value;
    var log: seq<ToolCall> := [];
    ghost var sentBack: seq<Json> := [];
    while AnyCall(PartsOf(response))
      invariant auth.Valid()
      invariant n < |chat.sent| <= |chat.answers|
      invariant chat.sent[..n] == old(chat.sent)
      invariant Exchanged(chat, chat.sent, n, Sent(payload, config), log, sentBack)
      invariant chat.AnswerAt(|chat.sent| - 1) == Ok(response)
      decreases |chat.answers| - |chat.sent|
    {
      var call := FirstCall(PartsOf(response));
      if call.Some? {
        var result := RunTool(auth, ledger, call.value);
        ExchangedStep(chat, chat.sent, n, Sent(payload, config), log, sentBack, call.value, result);
        log, sentBack := log + [call.value], sentBack + [result];
        var next := chat.SendMessage(FollowUp(call.value, result));
        if next.Err? {
          r, calls, results, last := Err(next.message), log, sentBack, response;
          return;
        }
        response := next.value;
      } else {
        break;
      }
    }
    r := Ok(AgentResponse(FinalText(response), GroundingOf(response), LoggedCalls(log)));
    calls, results, last := log, sentBack, response;
  }
}
