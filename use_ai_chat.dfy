/** `useAIChat`: resolves the configured provider, forwards one message with
    the conversation history to its adapter, and keeps the `isLoading` and
    `error` status around that call. */
module UseAIChat {
  import opened Runtime
  import opened Types
  import opened AIProvider

  const AnErrorOccurred := "An error occurred"

  function NotSupported(providerName: string): string {
    "AI provider '" + providerName + "' not supported"
  }

  /** `err instanceof Error ? err.message : 'An error occurred'` */
  function ErrorMessage(err: Thrown): string {
    match err
    case ErrorObject(m) => m
    case NonErrorValue => AnErrorOccurred
  }

  /** The props the hook closes over, with `tools` defaulted to `[]` */
  datatype Config = Config(aiProvider: string, apiKey: string, modelName: Option<string>, tools: seq<Tool>)

  function ConfigOf(props: ProviderProps): Config {
    Config(props.aiProvider, props.apiKey, props.modelName, props.tools.GetOr([]))
  }

  /** The status the hook exposes to its caller */
  datatype Status = Status(isLoading: bool, error: Option<string>)

  /** What the `try` block of `sendMessage` does: the request it posts, if
      any, and how it settles */
  datatype Attempt = Attempt(sent: Option<Request>, result: Settled<string>)

  /** The options object handed to the adapter */
  function OptionsOf(config: Config, message: string, history: seq<Message>): SendOptions {
    SendOptions(message, history, config.apiKey, config.modelName, Some(config.tools))
  }

  function Outcome(config: Config, message: string, history: seq<Message>, endpoints: Endpoints): (a: Attempt)
    ensures a.sent.Some? <==> GetAIProvider(config.aiProvider).Some?
    ensures a.sent.None? ==> a.result == Rejected(ErrorObject(NotSupported(config.aiProvider)))
  {
    match GetAIProvider(config.aiProvider)
    case None => Attempt(None, Rejected(ErrorObject(NotSupported(config.aiProvider))))
    case Some(p) =>
      var exchange := Send(p, OptionsOf(config, message, history), endpoints);
      Attempt(Some(exchange.request), exchange.result)
  }

  /** The message, the history, the key, the model name and the tools reach
      the adapter unchanged, with `tools` present even when none were given;
      the history is projected in order with the new message last */
  lemma ForwardsUnchanged(props: ProviderProps, message: string, history: seq<Message>, endpoints: Endpoints)
    requires GetAIProvider(props.aiProvider).Some?
    ensures Outcome(ConfigOf(props), message, history, endpoints).sent
            == Some(Send(GetAIProvider(props.aiProvider).value,
                         SendOptions(message, history, props.apiKey, props.modelName, Some(props.tools.GetOr([]))),
                         endpoints).request)
    ensures var a := Outcome(ConfigOf(props), message, history, endpoints);
            match a.sent.value
            case ToOpenAI(r) =>
              r == OpenAIRequestOf(SendOptions(message, history, props.apiKey, props.modelName, Some(props.tools.GetOr([]))))
              && r.tools.Some? && (props.tools.None? ==> r.tools.value == [])
              && r.messages == ChatHistory(history) + [ChatTurn(User, message)]
            case ToClaude(r) =>
              r.tools == Some(props.tools.GetOr([]))
              && r.messages == ChatHistory(history) + [ChatTurn(User, message)]
            case ToCohere(r) =>
              r.tools == Some(props.tools.GetOr([])) && r.message == message && |r.chatHistory| == |history|
  {
  }

  /** A successful adapter call returns its text untouched */
  lemma SuccessIsAdapterText(config: Config, message: string, history: seq<Message>, endpoints: Endpoints, p: Provider)
    requires GetAIProvider(config.aiProvider) == Some(p)
    requires Send(p, OptionsOf(config, message, history), endpoints).result.Fulfilled?
    ensures Outcome(config, message, history, endpoints).result
            == Fulfilled(Send(p, OptionsOf(config, message, history), endpoints).result.value)
  {
  }

  class AIChat {
    const config: Config
    var isLoading: bool
    var error: Option<string>
    /** Every status the hook has exposed, oldest first */
    ghost var statuses: seq<Status>

    constructor (props: ProviderProps)
      ensures config == ConfigOf(props)
      ensures !isLoading && error == None
      ensures statuses == [Status(false, None)]
    {
      config := ConfigOf(props);
      isLoading, error := false, None;
      statuses := [Status(false, None)];
    }

    /** `sendMessage(message, conversationHistory)`: `result` is what the
        returned promise settles to; a rejection is the caught value thrown on */
    method SendMessage(message: string, conversationHistory: seq<Message>, endpoints: Endpoints)
      returns (result: Settled<string>, sent: Option<Request>)
      modifies this
      ensures Attempt(sent, result) == Outcome(config, message, conversationHistory, endpoints)
      ensures GetAIProvider(config.aiProvider).None? ==>
                result == Rejected(ErrorObject(NotSupported(config.aiProvider)))
                && error == Some(NotSupported(config.aiProvider))
      ensures result.Fulfilled? ==> error == None
      ensures result.Rejected? ==> error == Some(ErrorMessage(result.reason))
      ensures !isLoading
      ensures statuses == old(statuses) + [Status(true, None), Status(false, error)]
    {
      isLoading, error := true, None;
      statuses := statuses + [Status(isLoading, error)];
      // try
      var provider := GetAIProvider(config.aiProvider);
      if provider.None? {
        sent, result := None, Rejected(ErrorObject(NotSupported(config.aiProvider)));
      } else {
        var exchange := Send(provider.value, SendOptions(message, conversationHistory, config.apiKey,
                                                         config.modelName, Some(config.tools)), endpoints);
        sent, result := Some(exchange.request), exchange.result;
      }
      // catch: record the message, then throw the same value on
      if result.Rejected? {
        error := Some(ErrorMessage(result.reason));
      }
      // finally
      isLoading := false;
      statuses := statuses + [Status(isLoading, error)];
    }
  }

  // ---------------------------------------------------------------------------
  // Provider resolution as the source writes it

  /** The `try` block with the registry read as `providers[key]`: an inherited
      member passes the `!provider` guard, and calling its missing
      `sendMessage` throws a TypeError */
  function OutcomeAsWritten(config: Config, message: string, history: seq<Message>, endpoints: Endpoints): (a: Attempt)
    ensures !IsPrototypeKey(ToLower(config.aiProvider)) ==> a == Outcome(config, message, history, endpoints)
  {
    match LookupAsWritten(config.aiProvider)
    case OwnEntry(p) =>
      var exchange := Send(p, OptionsOf(config, message, history), endpoints);
      Attempt(Some(exchange.request), exchange.result)
    case PrototypeMember(_) => Attempt(None, Rejected(ErrorObject("provider.sendMessage is not a function")))
    case Undefined => Attempt(None, Rejected(ErrorObject(NotSupported(config.aiProvider))))
  }

  /** Input that shows it: with provider name "Constructor" the hook reports
      a TypeError instead of "AI provider 'Constructor' not supported" */
  lemma ConstructorMisreported(apiKey: string, modelName: Option<string>, tools: seq<Tool>,
                               message: string, history: seq<Message>, endpoints: Endpoints)
    ensures var config := Config("Constructor", apiKey, modelName, tools);
            OutcomeAsWritten(config, message, history, endpoints).result
              == Rejected(ErrorObject("provider.sendMessage is not a function"))
            && Outcome(config, message, history, endpoints).result
              == Rejected(ErrorObject(NotSupported("Constructor")))
  {
    ConstructorIsFoundAsWritten();
  }
}
