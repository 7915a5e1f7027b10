/** The `/api/chat` handler of server/index.js, as a function from the
    request body, the provider's outcome and the two clock readings around
    the provider call to what the handler does: the message list it sends
    to the provider (if it gets that far), the call record it traces and the
    HTTP response. */
module ChatServer {
  import opened Wrappers
  import opened ChatTypes

  /** The persona instructions sent as the system turn; their wording is not
      part of this model and only this placeholder stands for it. */
  const SystemPrompt: string := "Homer persona instructions"

  const ChatModel := "gpt-4o-mini"
  const SystemRole := "system"
  const UserRole := "user"
  const MissingMessageError := "Message is required"
  const ChatFailedError := "Failed to process chat request"

  /** The body's `conversationHistory`: missing, present but not iterable
      (`null`, a number, an object), or an array of turns. */
  datatype HistoryField = Missing | NotIterable | Turns(turns: seq<Message>)

  datatype ChatRequest = ChatRequest(message: Option<string>, conversationHistory: HistoryField)

  /** `choices[i].message.content`, which the provider may set to null. */
  datatype Choice = Choice(content: Option<string>)

  /** What the non-streaming provider call does: raise, or return its choices
      and its possibly missing usage record. */
  datatype ProviderOutcome = Raised(error: string) | Returned(choices: seq<Choice>, usage: Option<Usage>)

  /** A JSON body: `{error}`, or `{message, usage}` where a missing usage is
      left out of the JSON and a null content is sent as `null`. */
  datatype ResponseBody = ErrorBody(error: string) | ReplyBody(message: Option<string>, usage: Option<Usage>)

  datatype Response = Response(status: nat, body: ResponseBody)

  /** The record handed to the call tracer after a reply. */
  datatype CallTrace = CallTrace(model: string, prompt: string, response: Option<string>, durationMs: int,
                                 tokens: TokenCounts)

  /** `sent` is the message list passed to the provider, None when no call
      was made; `trace` is the traced call record, None when nothing was traced. */
  datatype Exchange = Exchange(sent: Option<seq<Message>>, trace: Option<CallTrace>, response: Response)

  /** JavaScript truthiness of `message`: missing and "" are falsy. */
  predicate IsTruthy(message: Option<string>) {
    message.Some? && message.value != ""
  }

  /** The history after destructuring with default `[]`, or None when
      spreading it raises. */
  function HistoryOrDefault(h: HistoryField): (r: Option<seq<Message>>)
    ensures r.None? <==> h.NotIterable?
    ensures h.Missing? ==> r == Some([])
    ensures h.Turns? ==> r == Some(h.turns)
  {
    match h
    case Missing => Some([])
    case NotIterable => None
    case Turns(turns) => Some(turns)
  }

  /** `[system, ...history, user]`: the system turn first, then the history
      unchanged and in order, then the user's message. */
  function ProviderMessages(history: seq<Message>, message: string): (ms: seq<Message>)
    ensures |ms| == |history| + 2
    ensures ms[0] == Message(SystemRole, Some(SystemPrompt), map[])
    ensures ms[1..|ms| - 1] == history
    ensures ms[|ms| - 1] == Message(UserRole, Some(message), map[])
  {
    [Message(SystemRole, Some(SystemPrompt), map[])] + history + [Message(UserRole, Some(message), map[])]
  }

  /** What the name `traceLLMCall` refers to when the handler runs: nothing
      callable, or a function that records the call. */
  datatype TraceBinding = Unbound | Recorder

  /** The `catch` branch: a fixed 500 body, nothing traced. */
  function Failed(sent: Option<seq<Message>>): Exchange {
    Exchange(sent, None, Response(500, ErrorBody(ChatFailedError)))
  }

  /** The handler's steps, in order, with `traceLLMCall` bound as given.
      Every raise inside the `try` (a history that cannot be spread, a
      provider error, a reply without choices, a call to an unbound name)
      ends in the `catch` branch. */
  function HandleChatWith(binding: TraceBinding, req: ChatRequest, outcome: ProviderOutcome,
                          startMs: int, endMs: int): Exchange
  {
    if !IsTruthy(req.message) then
      Exchange(None, None, Response(400, ErrorBody(MissingMessageError)))
    else
      var message := req.message.value;
      match HistoryOrDefault(req.conversationHistory)
      case None => Failed(None)
      case Some(history) =>
        var messages := ProviderMessages(history, message);
        match outcome
        case Raised(_) => Failed(Some(messages))
        case Returned(choices, usage) =>
          if choices == [] then Failed(Some(messages))
          else
            var responseMessage := choices[0].content;
            match binding
            case Unbound => Failed(Some(messages))
            case Recorder =>
              var trace := CallTrace(ChatModel, message, responseMessage, endMs - startMs, TokensOf(usage));
              Exchange(Some(messages), Some(trace), Response(200, ReplyBody(responseMessage, usage)))
  }

  /** The handler as its authors intended, with `traceLLMCall` recording the
      call. A falsy message is rejected with 400 before any provider call;
      the provider receives the system turn, the history and the user turn;
      a reply with at least one choice is answered with 200 holding the
      first choice's content and the usage unchanged, and traced with the
      usage's token counts, all absent when the usage is; everything else is
      the fixed 500. */
  function HandleChat(req: ChatRequest, outcome: ProviderOutcome, startMs: int, endMs: int): (r: Exchange)
    ensures r.response.status == 400 <==> !IsTruthy(req.message)
    ensures !IsTruthy(req.message) ==>
      r == Exchange(None, None, Response(400, ErrorBody(MissingMessageError)))
    ensures r.sent.Some? <==> IsTruthy(req.message) && !req.conversationHistory.NotIterable?
    ensures r.sent.Some? ==>
      r.sent.value == ProviderMessages(HistoryOrDefault(req.conversationHistory).value, req.message.value)
    ensures r.response.status == 200 <==>
      IsTruthy(req.message) && !req.conversationHistory.NotIterable? && outcome.Returned? && outcome.choices != []
    ensures r.response.status == 200 ==>
      && r.response.body == ReplyBody(outcome.choices[0].content, outcome.usage)
      && r.trace.Some?
      && r.trace.value.model == ChatModel
      && r.trace.value.prompt == req.message.value
      && r.trace.value.response == outcome.choices[0].content
      && r.trace.value.durationMs == endMs - startMs
      && (outcome.usage.None? ==> r.trace.value.tokens == TokenCounts(None, None, None))
      && (outcome.usage.Some? ==> r.trace.value.tokens.prompt == outcome.usage.value.promptTokens)
      && (outcome.usage.Some? ==> r.trace.value.tokens.completion == outcome.usage.value.completionTokens)
      && (outcome.usage.Some? ==> r.trace.value.tokens.total == outcome.usage.value.totalTokens)
    ensures r.response.status != 200 && r.response.status != 400 ==>
      r.response == Response(500, ErrorBody(ChatFailedError)) && r.trace.None?
  {
    HandleChatWith(Recorder, req, outcome, startMs, endMs)
  }

  /** A missing history behaves exactly as an empty one. */
  lemma MissingHistoryIsEmpty(message: Option<string>, outcome: ProviderOutcome, startMs: int, endMs: int)
    ensures HandleChat(ChatRequest(message, Missing), outcome, startMs, endMs)
         == HandleChat(ChatRequest(message, Turns([])), outcome, startMs, endMs)
  {
  }

  /** The provider sees |history| + 2 messages, the history among them
      unchanged and in order. */
  lemma SentHistoryUnchanged(req: ChatRequest, outcome: ProviderOutcome, startMs: int, endMs: int)
    requires req.conversationHistory.Turns?
    requires HandleChat(req, outcome, startMs, endMs).sent.Some?
    ensures var sent := HandleChat(req, outcome, startMs, endMs).sent.value;
      var history := req.conversationHistory.turns;
      && |sent| == |history| + 2
      && forall i :: 0 <= i < |history| ==> sent[i + 1] == history[i]
  {
  }

  /** The handler as written, under one reading: `traceLLMCall` is imported
      from a module that does not export it. If the loader binds the name to
      `undefined`, calling it raises (under native ES-module linking the
      server does not start at all). Then no request is ever answered with
      200, and a valid request whose provider call succeeded still ends in
      the fixed 500. */
  function HandleChatAsWritten(req: ChatRequest, outcome: ProviderOutcome, startMs: int, endMs: int): (r: Exchange)
    ensures r.response.status != 200
    ensures r.response.status == 400 <==> !IsTruthy(req.message)
    ensures r.response.status != 400 ==> r.response == Response(500, ErrorBody(ChatFailedError))
    ensures r.trace.None?
    ensures r.sent.Some? <==> IsTruthy(req.message) && !req.conversationHistory.NotIterable?
  {
    HandleChatWith(Unbound, req, outcome, startMs, endMs)
  }

  /** The first question of a new conversation, answered by the provider:
      as written the provider is called and the client still gets 500; the
      intended handler answers 200 with the reply. */
  lemma UnboundTraceLosesReply()
    ensures var req := ChatRequest(Some("best donuts in Portland?"), Missing);
      var outcome := Returned([Choice(Some("Mmm, donuts!"))], Some(Usage(Some(30), Some(4), Some(34))));
      var asWritten := HandleChatAsWritten(req, outcome, 0, 800);
      var intended := HandleChat(req, outcome, 0, 800);
      && asWritten.sent.Some?
      && asWritten.response == Response(500, ErrorBody(ChatFailedError))
      && intended.response == Response(200, ReplyBody(Some("Mmm, donuts!"), Some(Usage(Some(30), Some(4), Some(34)))))
  {
  }
}
