/** The provider registry and its three adapters (OpenAI, Claude, Cohere).
    Each adapter builds one request envelope from the conversation history and
    the new message, makes one HTTP call, and turns the reply into text or a
    thrown error. The HTTP call is not modelled: the reply each endpoint gives
    is an input (`Endpoints`). */
module AIProvider {
  import opened Runtime
  import opened Types

  datatype Provider = OpenAI | Claude | Cohere

  /** The key a provider is registered under */
  function Key(p: Provider): string {
    match p
    case OpenAI => "openai"
    case Claude => "claude"
    case Cohere => "cohere"
  }

  /** The `modelName` default of each adapter */
  function DefaultModel(p: Provider): string {
    match p
    case OpenAI => "gpt-4"
    case Claude => "claude-3-opus-20240229"
    case Cohere => "command"
  }

  /** The message thrown when a provider's error envelope carries no usable text */
  function FallbackError(p: Provider): string {
    match p
    case OpenAI => "OpenAI API error"
    case Claude => "Claude API error"
    case Cohere => "Cohere API error"
  }

  const ClaudeMaxTokens: nat := 1000

  // ---------------------------------------------------------------------------
  // Request envelopes

  /** `{ role, content }`, the history entry shape of OpenAI and Claude */
  datatype ChatTurn = ChatTurn(role: Role, content: string)

  datatype CohereRole = USER | CHATBOT

  /** `{ role, message }`, Cohere's `chat_history` entry */
  datatype CohereTurn = CohereTurn(role: CohereRole, message: string)

  /** `{ name, description, parameters }` inside an OpenAI tool declaration */
  datatype FunctionSpec = FunctionSpec(name: string, description: string, parameters: ToolParameters)

  /** `{ type: 'function', function: … }` */
  datatype FunctionTool = FunctionTool(kind: string, declaration: FunctionSpec)

  /** How the API key travels: `Authorization: Bearer <key>` or `x-api-key: <key>` */
  datatype Credential = Bearer(token: string) | XApiKey(key: string)

  /** A field that is `None` is `undefined` and left out by `JSON.stringify` */
  datatype OpenAIRequest = OpenAIRequest(auth: Credential, model: string, messages: seq<ChatTurn>,
                                         tools: Option<seq<FunctionTool>>)

  datatype ClaudeRequest = ClaudeRequest(auth: Credential, model: string, messages: seq<ChatTurn>,
                                         tools: Option<seq<Tool>>, maxTokens: nat)

  datatype CohereRequest = CohereRequest(auth: Credential, model: string, chatHistory: seq<CohereTurn>,
                                         message: string, tools: Option<seq<Tool>>)

  datatype Request = ToOpenAI(openai: OpenAIRequest) | ToClaude(claude: ClaudeRequest) | ToCohere(cohere: CohereRequest)

  // ---------------------------------------------------------------------------
  // Reply envelopes

  /** `await response.json()`: a parsed body, or the error parsing threw */
  datatype Body<+T> = Parsed(value: T) | Unparsable(reason: Thrown)

  /** The outcome of one `fetch`: it rejected, or it answered with `response.ok`
      true or false */
  datatype Reply<+S, +E> = FetchRejected(reason: Thrown) | OkReply(success: Body<S>) | ErrorReply(failure: Body<E>) {
    /** `fetch` or `response.json()` threw rather than yielding an envelope */
    predicate Threw() {
      FetchRejected? || (OkReply? && success.Unparsable?) || (ErrorReply? && failure.Unparsable?)
    }

    function Thrown(): Thrown
      requires Threw()
    {
      match this
      case FetchRejected(e) => e
      case OkReply(b) => b.reason
      case ErrorReply(b) => b.reason
    }
  }

  /** `choices[i].message.content` */
  datatype Choice = Choice(content: string)
  datatype ChoicesEnvelope = ChoicesEnvelope(choices: seq<Choice>)

  /** `content[i].text` */
  datatype ContentBlock = ContentBlock(text: string)
  datatype ContentEnvelope = ContentEnvelope(content: seq<ContentBlock>)

  datatype TextEnvelope = TextEnvelope(text: string)

  /** `{ error: { message } }`, the error envelope of OpenAI and Claude */
  datatype ErrorDetail = ErrorDetail(message: Option<string>)
  datatype NestedErrorEnvelope = NestedErrorEnvelope(error: Option<ErrorDetail>)

  /** `{ message }`, Cohere's error envelope */
  datatype FlatErrorEnvelope = FlatErrorEnvelope(message: Option<string>)

  /** What each provider's endpoint answers */
  datatype Endpoints = Endpoints(openai: Reply<ChoicesEnvelope, NestedErrorEnvelope>,
                                 claude: Reply<ContentEnvelope, NestedErrorEnvelope>,
                                 cohere: Reply<TextEnvelope, FlatErrorEnvelope>)

  /** The one request an adapter sends and how its promise settles */
  datatype Exchange = Exchange(request: Request, result: Settled<string>)

  // ---------------------------------------------------------------------------
  // Projections

  /** `conversationHistory.map(msg => ({ role: msg.role, content: msg.content }))` */
  function ChatHistory(history: seq<Message>): (r: seq<ChatTurn>)
    ensures |r| == |history|
    ensures forall i :: 0 <= i < |history| ==> r[i] == ChatTurn(history[i].role, history[i].content)
  {
    if history == [] then [] else [ChatTurn(history[0].role, history[0].content)] + ChatHistory(history[1..])
  }

  function CohereRoleOf(role: Role): CohereRole {
    if role == Assistant then CHATBOT else USER
  }

  /** Cohere's history projection: assistant turns become `CHATBOT`, all others `USER` */
  function CohereHistory(history: seq<Message>): (r: seq<CohereTurn>)
    ensures |r| == |history|
    ensures forall i :: 0 <= i < |history| ==>
              r[i].message == history[i].content
              && (r[i].role == CHATBOT <==> history[i].role == Assistant)
  {
    if history == [] then []
    else [CohereTurn(CohereRoleOf(history[0].role), history[0].content)] + CohereHistory(history[1..])
  }

  /** `tools.map(tool => ({ type: 'function', function: { name, description, parameters } }))` */
  function FunctionTools(tools: seq<Tool>): (r: seq<FunctionTool>)
    ensures |r| == |tools|
    ensures forall i :: 0 <= i < |tools| ==>
              r[i] == FunctionTool("function", FunctionSpec(tools[i].name, tools[i].description, tools[i].parameters))
  {
    if tools == [] then []
    else [FunctionTool("function", FunctionSpec(tools[0].name, tools[0].description, tools[0].parameters))]
         + FunctionTools(tools[1..])
  }

  /** `value || fallback` on an optional string: `undefined`, `null` and `""`
      are falsy */
  function OrElse(value: Option<string>, fallback: string): (r: string)
    ensures value.Some? && value.value != "" ==> r == value.value
    ensures value.None? || value.value == "" ==> r == fallback
    ensures fallback != "" ==> r != ""
  {
    if value.Some? && value.value != "" then value.value else fallback
  }

  /** `error.error?.message || fallback` */
  function NestedErrorText(envelope: NestedErrorEnvelope, fallback: string): string {
    OrElse(if envelope.error.Some? then envelope.error.value.message else None, fallback)
  }

  // ---------------------------------------------------------------------------
  // Adapters

  function OpenAIRequestOf(options: SendOptions): (r: OpenAIRequest)
    ensures r.auth == Bearer(options.apiKey)
    ensures options.modelName.None? ==> r.model == "gpt-4"
    ensures options.modelName.Some? ==> r.model == options.modelName.value
    ensures |r.messages| == |options.conversationHistory| + 1
    ensures forall i :: 0 <= i < |options.conversationHistory| ==>
              r.messages[i] == ChatTurn(options.conversationHistory[i].role, options.conversationHistory[i].content)
    ensures r.messages[|options.conversationHistory|] == ChatTurn(User, options.message)
    ensures r.tools.Some? <==> options.tools.Some?
    ensures options.tools.Some? ==> r.tools == Some(FunctionTools(options.tools.value))
  {
    OpenAIRequest(Bearer(options.apiKey),
                  options.modelName.GetOr(DefaultModel(OpenAI)),
                  ChatHistory(options.conversationHistory) + [ChatTurn(User, options.message)],
                  if options.tools.Some? then Some(FunctionTools(options.tools.value)) else None)
  }

  function ClaudeRequestOf(options: SendOptions): (r: ClaudeRequest)
    ensures r.auth == XApiKey(options.apiKey)
    ensures options.modelName.None? ==> r.model == "claude-3-opus-20240229"
    ensures options.modelName.Some? ==> r.model == options.modelName.value
    ensures |r.messages| == |options.conversationHistory| + 1
    ensures forall i :: 0 <= i < |options.conversationHistory| ==>
              r.messages[i] == ChatTurn(options.conversationHistory[i].role, options.conversationHistory[i].content)
    ensures r.messages[|options.conversationHistory|] == ChatTurn(User, options.message)
    ensures r.tools == options.tools
    ensures r.maxTokens == 1000
  {
    ClaudeRequest(XApiKey(options.apiKey),
                  options.modelName.GetOr(DefaultModel(Claude)),
                  ChatHistory(options.conversationHistory) + [ChatTurn(User, options.message)],
                  options.tools,
                  ClaudeMaxTokens)
  }

  function CohereRequestOf(options: SendOptions): (r: CohereRequest)
    ensures r.auth == Bearer(options.apiKey)
    ensures options.modelName.None? ==> r.model == "command"
    ensures options.modelName.Some? ==> r.model == options.modelName.value
    ensures |r.chatHistory| == |options.conversationHistory|
    ensures forall i :: 0 <= i < |options.conversationHistory| ==>
              r.chatHistory[i].message == options.conversationHistory[i].content
              && (r.chatHistory[i].role == CHATBOT <==> options.conversationHistory[i].role == Assistant)
    ensures r.message == options.message
    ensures r.tools == options.tools
  {
    CohereRequest(Bearer(options.apiKey),
                  options.modelName.GetOr(DefaultModel(Cohere)),
                  CohereHistory(options.conversationHistory),
                  options.message,
                  options.tools)
  }

  function OpenAIResult(reply: Reply<ChoicesEnvelope, NestedErrorEnvelope>): (r: Settled<string>)
    ensures r.Fulfilled? <==> reply.OkReply? && reply.success.Parsed? && |reply.success.value.choices| > 0
    ensures r.Fulfilled? ==> r.value == reply.success.value.choices[0].content
    ensures reply.ErrorReply? && reply.failure.Parsed? ==>
              r == Rejected(ErrorObject(NestedErrorText(reply.failure.value, "OpenAI API error")))
  {
    match reply
    case FetchRejected(e) => Rejected(e)
    case ErrorReply(Unparsable(e)) => Rejected(e)
    case ErrorReply(Parsed(envelope)) => Rejected(ErrorObject(NestedErrorText(envelope, FallbackError(OpenAI))))
    case OkReply(Unparsable(e)) => Rejected(e)
    case OkReply(Parsed(data)) =>
      if |data.choices| == 0 then Rejected(ReadOfUndefined("message")) else Fulfilled(data.choices[0].content)
  }

  function ClaudeResult(reply: Reply<ContentEnvelope, NestedErrorEnvelope>): (r: Settled<string>)
    ensures r.Fulfilled? <==> reply.OkReply? && reply.success.Parsed? && |reply.success.value.content| > 0
    ensures r.Fulfilled? ==> r.value == reply.success.value.content[0].text
    ensures reply.ErrorReply? && reply.failure.Parsed? ==>
              r == Rejected(ErrorObject(NestedErrorText(reply.failure.value, "Claude API error")))
  {
    match reply
    case FetchRejected(e) => Rejected(e)
    case ErrorReply(Unparsable(e)) => Rejected(e)
    case ErrorReply(Parsed(envelope)) => Rejected(ErrorObject(NestedErrorText(envelope, FallbackError(Claude))))
    case OkReply(Unparsable(e)) => Rejected(e)
    case OkReply(Parsed(data)) =>
      if |data.content| == 0 then Rejected(ReadOfUndefined("text")) else Fulfilled(data.content[0].text)
  }

  function CohereResult(reply: Reply<TextEnvelope, FlatErrorEnvelope>): (r: Settled<string>)
    ensures r.Fulfilled? <==> reply.OkReply? && reply.success.Parsed?
    ensures r.Fulfilled? ==> r.value == reply.success.value.text
    ensures reply.ErrorReply? && reply.failure.Parsed? ==>
              r == Rejected(ErrorObject(OrElse(reply.failure.value.message, "Cohere API error")))
  {
    match reply
    case FetchRejected(e) => Rejected(e)
    case ErrorReply(Unparsable(e)) => Rejected(e)
    case ErrorReply(Parsed(envelope)) => Rejected(ErrorObject(OrElse(envelope.message, FallbackError(Cohere))))
    case OkReply(Unparsable(e)) => Rejected(e)
    case OkReply(Parsed(data)) => Fulfilled(data.text)
  }

  /** `providers[p].sendMessage(options)`: the request it posts and how it settles */
  function Send(p: Provider, options: SendOptions, endpoints: Endpoints): Exchange {
    match p
    case OpenAI => Exchange(ToOpenAI(OpenAIRequestOf(options)), OpenAIResult(endpoints.openai))
    case Claude => Exchange(ToClaude(ClaudeRequestOf(options)), ClaudeResult(endpoints.claude))
    case Cohere => Exchange(ToCohere(CohereRequestOf(options)), CohereResult(endpoints.cohere))
  }

  /** What `fetch` or `response.json()` throws is re-thrown as it is; every
      other failure is an `Error` with a non-empty message */
  lemma SendFailures(p: Provider, options: SendOptions, endpoints: Endpoints)
    ensures var r := Send(p, options, endpoints).result;
            var reply := match p
                         case OpenAI => endpoints.openai.Threw()
                         case Claude => endpoints.claude.Threw()
                         case Cohere => endpoints.cohere.Threw();
            r.Rejected? ==> reply || (r.reason.ErrorObject? && r.reason.message != "")
    ensures p == OpenAI && endpoints.openai.Threw() ==>
              Send(p, options, endpoints).result == Rejected(endpoints.openai.Thrown())
    ensures p == Claude && endpoints.claude.Threw() ==>
              Send(p, options, endpoints).result == Rejected(endpoints.claude.Thrown())
    ensures p == Cohere && endpoints.cohere.Threw() ==>
              Send(p, options, endpoints).result == Rejected(endpoints.cohere.Thrown())
  {
  }

  // ---------------------------------------------------------------------------
  // Registry

  /** `getAIProvider(name)`: `providers[name.toLowerCase()]`, read as a lookup
      of the registry's own entries */
  function GetAIProvider(providerName: string): (r: Option<Provider>)
    ensures r.Some? <==> ToLower(providerName) in {"openai", "claude", "cohere"}
    ensures r.Some? ==> Key(r.value) == ToLower(providerName)
  {
    var key := ToLower(providerName);
    if key == "openai" then Some(OpenAI)
    else if key == "claude" then Some(Claude)
    else if key == "cohere" then Some(Cohere)
    else None
  }

  /** Every provider is found under its own key */
  lemma KeyResolves(p: Provider)
    ensures GetAIProvider(Key(p)) == Some(p)
  {
    ToLowerFixesLower(Key(p));
  }

  /** Lookup ignores the case of ASCII letters */
  lemma {:induction false} LookupIgnoresCase(a: string, b: string)
    requires |a| == |b|
    requires forall i :: 0 <= i < |a| ==> LowerChar(a[i]) == LowerChar(b[i])
    ensures GetAIProvider(a) == GetAIProvider(b)
  {
    assert ToLower(a) == ToLower(b);
  }

  lemma MixedCaseNamesResolve()
    ensures GetAIProvider("OpenAI") == Some(OpenAI)
    ensures GetAIProvider("Claude") == Some(Claude)
    ensures GetAIProvider("COHERE") == Some(Cohere)
  {
    LookupIgnoresCase("OpenAI", "openai");
    LookupIgnoresCase("Claude", "claude");
    LookupIgnoresCase("COHERE", "cohere");
    KeyResolves(OpenAI);
    KeyResolves(Claude);
    KeyResolves(Cohere);
  }

  // ---------------------------------------------------------------------------
  // The registry lookup as the source writes it

  /** What the property read `providers[key]` yields on an object literal */
  datatype Lookup = OwnEntry(provider: Provider) | PrototypeMember(key: string) | Undefined

  /** The properties every object literal inherits from `Object.prototype`
      whose names are already lower-case */
  predicate IsPrototypeKey(key: string) {
    key == "constructor" || key == "__proto__"
  }

  /** `providers[providerName.toLowerCase()]`: besides the three entries, the
      inherited `constructor` and `__proto__` are found too */
  function LookupAsWritten(providerName: string): (r: Lookup)
    ensures r.OwnEntry? <==> GetAIProvider(providerName).Some?
    ensures r.PrototypeMember? <==> IsPrototypeKey(ToLower(providerName))
  {
    var key := ToLower(providerName);
    match GetAIProvider(providerName)
    case Some(p) => OwnEntry(p)
    case None => if IsPrototypeKey(key) then PrototypeMember(key) else Undefined
  }

  /** Input that shows it: "Constructor" reaches an inherited member, which is
      truthy, while no provider is registered under that name */
  lemma ConstructorIsFoundAsWritten()
    ensures LookupAsWritten("Constructor") == PrototypeMember("constructor")
    ensures GetAIProvider("Constructor") == None
  {
  }
}
