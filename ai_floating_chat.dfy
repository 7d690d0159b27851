/** `AIFloatingChat`: the widget's conversation log, its typing flag, and
    `handleSendMessage`, which appends the user's message, routes it to a
    tool (when an intent matcher picks one) or to the provider, and appends
    exactly one assistant reply. The matcher, the tool's `execute` and the
    provider's endpoints are capabilities whose outcomes are inputs. */
module AIFloatingChat {
  import opened Runtime
  import opened Types
  import opened AIProvider
  import UseAIChat

  const DefaultWelcome := "Hey there! How can I help you today?"
  const DefaultProvider := "openai"
  const Apology := "Sorry, I'm having trouble processing your request right now."

  /** The reply when a tool answers with nothing (or an empty string) */
  function Acknowledgement(toolName: string): string {
    "I've processed your request using " + toolName
  }

  /** The props of the widget that reach the core; of `intentMatcher` only
      whether it is set matters, its answer is part of the `Environment` */
  datatype Props = Props(aiProvider: Option<string>, apiKey: string, modelName: Option<string>,
                         welcomeMessage: Option<string>, tools: Option<seq<Tool>>, hasIntentMatcher: bool)

  /** The widget's routing configuration, defaults applied */
  datatype Config = Config(tools: seq<Tool>, hasIntentMatcher: bool)

  /** How each capability would settle if this send called it */
  datatype Environment = Environment(matcherAnswer: Settled<Option<ToolMatch>>,
                                     toolAnswer: Settled<Option<string>>,
                                     endpoints: Endpoints)

  /** A capability call made during one send */
  datatype Call =
    | MatcherCall(message: string, tools: seq<Tool>)
    | ExecuteCall(tool: Tool, params: map<string, Json>)
    | ProviderCall(message: string, history: seq<Message>)

  /** What one send produces: the assistant reply, the calls made in order,
      and, when the provider path ran, what the hook's `sendMessage` did */
  datatype Turn = Turn(reply: Message, calls: seq<Call>, providerAttempt: Option<UseAIChat.Attempt>)

  // ---------------------------------------------------------------------------
  // Messages

  function UserMessage(text: string): Message {
    Message(User, text, None, false, None)
  }

  function AssistantMessage(text: string): Message {
    Message(Assistant, text, None, false, None)
  }

  /** `content: toolResult || default`, tagged with the matched tool's name */
  function ToolMessage(toolName: string, toolResult: Option<string>): Message {
    Message(Assistant, OrElse(toolResult, Acknowledgement(toolName)), Some(toolName), false, None)
  }

  const ApologyMessage := Message(Assistant, Apology, None, true, None)

  /** The log a fresh widget starts with */
  function WelcomeLog(welcome: string): seq<Message> {
    [AssistantMessage(welcome)]
  }

  // ---------------------------------------------------------------------------
  // Routing

  /** `tools.find(t => t.name === name)` */
  function FindTool(tools: seq<Tool>, name: string): (r: Option<Tool>)
    ensures r.None? <==> forall i :: 0 <= i < |tools| ==> tools[i].name != name
    ensures r.Some? ==> exists k :: 0 <= k < |tools| && tools[k] == r.value
                                    && forall j :: 0 <= j < k ==> tools[j].name != name
    ensures r.Some? ==> r.value.name == name
  {
    if tools == [] then None
    else if tools[0].name == name then Some(tools[0])
    else
      var r := FindTool(tools[1..], name);
      if r.Some? then
        var k :| 0 <= k < |tools[1..]| && tools[1..][k] == r.value
                 && forall j :: 0 <= j < k ==> tools[1..][j].name != name;
        assert tools[k + 1] == r.value;
        r
      else r
  }

  /** `intentMatcher && tools.length > 0` */
  predicate ConsultsMatcher(config: Config) {
    config.hasIntentMatcher && |config.tools| > 0
  }

  /** The `try`/`catch` of `handleSendMessage` for message `text`, with
      `prior` the log as the send's closure saw it (before the user message) */
  function Respond(config: Config, hook: UseAIChat.Config, text: string, prior: seq<Message>, env: Environment): (t: Turn)
    ensures t.reply.role == Assistant && t.reply.isRead == None
    ensures t.reply.error ==> t.reply == ApologyMessage
    ensures |t.calls| <= 2
    ensures ConsultsMatcher(config) <==> |t.calls| > 0 && t.calls[0].MatcherCall?
    ensures ConsultsMatcher(config) ==> t.calls[0] == MatcherCall(text, config.tools)
    ensures forall i :: 1 <= i < |t.calls| ==> !t.calls[i].MatcherCall?
    ensures t.providerAttempt.Some? <==> ProviderCall(text, prior) in t.calls
    ensures !(ProviderCall(text, prior) in t.calls && exists i :: 0 <= i < |t.calls| && t.calls[i].ExecuteCall?)
  {
    var asked := if ConsultsMatcher(config) then [MatcherCall(text, config.tools)] else [];
    var toolMatch := if ConsultsMatcher(config) then env.matcherAnswer else Fulfilled(None);
    match toolMatch
    case Rejected(_) => Turn(ApologyMessage, asked, None)
    case Fulfilled(None) =>
      var attempt := UseAIChat.Outcome(hook, text, prior, env.endpoints);
      var reply := if attempt.result.Fulfilled? then AssistantMessage(attempt.result.value) else ApologyMessage;
      Turn(reply, asked + [ProviderCall(text, prior)], Some(attempt))
    case Fulfilled(Some(m)) =>
      match FindTool(config.tools, m.tool)
      case None => Turn(ApologyMessage, asked, None)
      case Some(tool) =>
        var executed := asked + [ExecuteCall(tool, m.params)];
        match env.toolAnswer
        case Fulfilled(result) => Turn(ToolMessage(m.tool, result), executed, None)
        case Rejected(_) => Turn(ApologyMessage, executed, None)
  }

  /** Some awaited step of the send throws: the matcher, the tool lookup
      (a match naming no configured tool), the tool itself, or the provider */
  predicate Fails(config: Config, hook: UseAIChat.Config, text: string, prior: seq<Message>, env: Environment) {
    if ConsultsMatcher(config) && env.matcherAnswer.Rejected? then true
    else if ConsultsMatcher(config) && env.matcherAnswer.value.Some? then
      (forall i :: 0 <= i < |config.tools| ==> config.tools[i].name != env.matcherAnswer.value.value.tool)
      || env.toolAnswer.Rejected?
    else UseAIChat.Outcome(hook, text, prior, env.endpoints).result.Rejected?
  }

  /** The reply is the apology, flagged as an error and untagged, exactly
      when some step fails */
  lemma ErrorIffFailure(config: Config, hook: UseAIChat.Config, text: string, prior: seq<Message>, env: Environment)
    ensures var t := Respond(config, hook, text, prior, env);
            (t.reply.error <==> Fails(config, hook, text, prior, env))
            && (Fails(config, hook, text, prior, env) ==> t.reply == ApologyMessage)
  {
  }

  /** Without a matcher, without tools, or when the matcher finds no match,
      the message goes to the provider with the log the send started from */
  lemma NoMatchGoesToProvider(config: Config, hook: UseAIChat.Config, text: string, prior: seq<Message>, env: Environment)
    requires !ConsultsMatcher(config) || env.matcherAnswer == Fulfilled(None)
    ensures var t := Respond(config, hook, text, prior, env);
            var attempt := UseAIChat.Outcome(hook, text, prior, env.endpoints);
            t.calls[|t.calls| - 1] == ProviderCall(text, prior)
            && (forall i :: 0 <= i < |t.calls| ==> !t.calls[i].ExecuteCall?)
            && t.providerAttempt == Some(attempt)
            && t.reply == (if attempt.result.Fulfilled? then AssistantMessage(attempt.result.value) else ApologyMessage)
  {
  }

  /** A match naming no configured tool ends in the apology: no tool runs and
      the provider is not asked */
  lemma MissingToolExecutesNothing(config: Config, hook: UseAIChat.Config, text: string, prior: seq<Message>,
                                   env: Environment, m: ToolMatch)
    requires ConsultsMatcher(config) && env.matcherAnswer == Fulfilled(Some(m))
    requires forall i :: 0 <= i < |config.tools| ==> config.tools[i].name != m.tool
    ensures var t := Respond(config, hook, text, prior, env);
            t.reply == ApologyMessage && t.calls == [MatcherCall(text, config.tools)] && t.providerAttempt.None?
  {
  }

  /** A match naming a configured tool runs the first tool of that name once;
      its reply is tagged with the name and carries the tool's text, or the
      acknowledgement when the tool returns null or "" */
  lemma ToolReply(config: Config, hook: UseAIChat.Config, text: string, prior: seq<Message>,
                  env: Environment, m: ToolMatch, k: nat, result: Option<string>)
    requires ConsultsMatcher(config) && env.matcherAnswer == Fulfilled(Some(m))
    requires k < |config.tools| && config.tools[k].name == m.tool
    requires forall j :: 0 <= j < k ==> config.tools[j].name != m.tool
    requires env.toolAnswer == Fulfilled(result)
    ensures var t := Respond(config, hook, text, prior, env);
            t.calls == [MatcherCall(text, config.tools), ExecuteCall(config.tools[k], m.params)]
            && t.reply.tool == Some(m.tool) && !t.reply.error && t.providerAttempt.None?
            && (result.None? || result == Some("") ==> t.reply.content == Acknowledgement(m.tool))
            && (result.Some? && result.value != "" ==> t.reply.content == result.value)
  {
  }

  /** Only the tool branch tags its reply, and only after the tool ran */
  lemma TagMeansToolRan(config: Config, hook: UseAIChat.Config, text: string, prior: seq<Message>, env: Environment)
    ensures var t := Respond(config, hook, text, prior, env);
            t.reply.tool.Some? ==>
              |t.calls| == 2 && t.calls[1].ExecuteCall? && t.calls[1].tool.name == t.reply.tool.value
              && env.toolAnswer.Fulfilled?
  {
  }

  // ---------------------------------------------------------------------------
  // Unread badge

  /** `m.role === 'assistant' && !m.isRead` */
  predicate IsUnread(m: Message) {
    m.role == Assistant && m.isRead != Some(true)
  }

  /** `messages.filter(m => m.role === 'assistant' && !m.isRead).length` */
  function UnreadCount(log: seq<Message>): (n: nat)
    ensures n <= |log|
  {
    if log == [] then 0 else (if IsUnread(log[0]) then 1 else 0) + UnreadCount(log[1..])
  }

  lemma {:induction false} UnreadCountAppend(log: seq<Message>, m: Message)
    ensures UnreadCount(log + [m]) == UnreadCount(log) + (if IsUnread(m) then 1 else 0)
  {
    if log != [] {
      assert (log + [m])[1..] == log[1..] + [m];
      UnreadCountAppend(log[1..], m);
    }
  }

  /** A fresh widget shows one unread message, its welcome */
  lemma WelcomeIsUnread(welcome: string)
    ensures UnreadCount(WelcomeLog(welcome)) == 1
  {
  }

  /** Each non-blank send adds exactly one unread message: the reply, never
      the user's own message */
  lemma SendAddsOneUnread(config: Config, hook: UseAIChat.Config, text: string, prior: seq<Message>, env: Environment)
    ensures UnreadCount(prior + [UserMessage(text), Respond(config, hook, text, prior, env).reply])
            == UnreadCount(prior) + 1
  {
    var reply := Respond(config, hook, text, prior, env).reply;
    UnreadCountAppend(prior, UserMessage(text));
    UnreadCountAppend(prior + [UserMessage(text)], reply);
    assert prior + [UserMessage(text)] + [reply] == prior + [UserMessage(text), reply];
  }

  /** Provider "openai", no tools, no matcher: "hello" is answered with the
      first choice's text, and OpenAI receives the welcome message, then
      "hello", the default model and an empty tool list */
  lemma OpenAIHelloScenario(apiKey: string, answer: string, env: Environment)
    requires env.endpoints.openai == OkReply(Parsed(ChoicesEnvelope([Choice(answer)])))
    ensures var prior := WelcomeLog(DefaultWelcome);
            var t := Respond(Config([], false), UseAIChat.Config("openai", apiKey, None, []), "hello", prior, env);
            t.reply == AssistantMessage(answer)
            && t.calls == [ProviderCall("hello", prior)]
            && t.providerAttempt == Some(UseAIChat.Attempt(
                 Some(ToOpenAI(OpenAIRequest(Bearer(apiKey), "gpt-4",
                                             [ChatTurn(Assistant, DefaultWelcome), ChatTurn(User, "hello")],
                                             Some([])))),
                 Fulfilled(answer)))
  {
    KeyResolves(OpenAI);
    var prior := WelcomeLog(DefaultWelcome);
    assert ChatHistory(prior) + [ChatTurn(User, "hello")]
           == [ChatTurn(Assistant, DefaultWelcome), ChatTurn(User, "hello")];
  }

  /** One tool named "lookup", a matcher that always picks it, and a tool
      that answers "42": the reply is "42", tagged "lookup" */
  lemma LookupToolScenario(lookup: Tool, hook: UseAIChat.Config, prior: seq<Message>, env: Environment)
    requires lookup.name == "lookup"
    requires env.matcherAnswer == Fulfilled(Some(ToolMatch("lookup", map[])))
    requires env.toolAnswer == Fulfilled(Some("42"))
    ensures Respond(Config([lookup], true), hook, "what is it", prior, env).reply
            == Message(Assistant, "42", Some("lookup"), false, None)
  {
  }

  class FloatingChat {
    const config: Config
    const chat: UseAIChat.AIChat
    var messages: seq<Message>
    var isTyping: bool
    /** Every value `isTyping` has taken, oldest first */
    ghost var typingHistory: seq<bool>

    constructor (props: Props)
      ensures config == Config(props.tools.GetOr([]), props.hasIntentMatcher)
      ensures fresh(chat)
      ensures chat.config == UseAIChat.Config(props.aiProvider.GetOr(DefaultProvider), props.apiKey,
                                              props.modelName, props.tools.GetOr([]))
      ensures !chat.isLoading && chat.error == None
      ensures messages == WelcomeLog(props.welcomeMessage.GetOr(DefaultWelcome))
      ensures !isTyping && typingHistory == [false]
    {
      config := Config(props.tools.GetOr([]), props.hasIntentMatcher);
      chat := new UseAIChat.AIChat(ProviderProps(props.aiProvider.GetOr(DefaultProvider), props.apiKey,
                                                 props.modelName, Some(props.tools.GetOr([]))));
      messages := WelcomeLog(props.welcomeMessage.GetOr(DefaultWelcome));
      isTyping := false;
      typingHistory := [false];
    }

    /** `handleSendMessage(messageText)`: `calls` are the capability calls it
        makes, in order */
    method HandleSendMessage(messageText: string, env: Environment) returns (calls: seq<Call>)
      modifies this, chat
      ensures IsBlank(messageText) ==>
                messages == old(messages) && isTyping == old(isTyping)
                && typingHistory == old(typingHistory) && calls == [] && unchanged(chat)
      ensures !IsBlank(messageText) ==>
                var turn := Respond(config, chat.config, messageText, old(messages), env);
                messages == old(messages) + [UserMessage(messageText), turn.reply]
                && calls == turn.calls
                && !isTyping && typingHistory == old(typingHistory) + [true, false]
                && (turn.providerAttempt.None? ==> unchanged(chat))
                && (turn.providerAttempt.Some? ==>
                      !chat.isLoading
                      && chat.statuses == old(chat.statuses) + [UseAIChat.Status(true, None), UseAIChat.Status(false, chat.error)]
                      && chat.error == (if turn.providerAttempt.value.result.Rejected?
                                        then Some(UseAIChat.ErrorMessage(turn.providerAttempt.value.result.reason))
                                        else None))
    {
      calls := [];
      if IsBlank(messageText) {
        return;
      }
      var prior := messages;
      messages := messages + [UserMessage(messageText)];
      isTyping := true;
      typingHistory := typingHistory + [true];
      // try
      var caught: Option<Thrown> := None;
      var toolMatch: Option<ToolMatch> := None;
      if config.hasIntentMatcher && |config.tools| > 0 {
        calls := calls + [MatcherCall(messageText, config.tools)];
        match env.matcherAnswer {
          case Fulfilled(answer) => toolMatch := answer;
          case Rejected(e) => caught := Some(e);
        }
      }
      if caught.None? {
        if toolMatch.Some? {
          var tool := FindTool(config.tools, toolMatch.value.tool);
          if tool.None? {
            caught := Some(ErrorObject("Tool '" + toolMatch.value.tool + "' not found"));
          } else {
            calls := calls + [ExecuteCall(tool.value, toolMatch.value.params)];
            match env.toolAnswer {
              case Fulfilled(toolResult) => messages := messages + [ToolMessage(toolMatch.value.tool, toolResult)];
              case Rejected(e) => caught := Some(e);
            }
          }
        } else {
          calls := calls + [ProviderCall(messageText, prior)];
          var response, _ := chat.SendMessage(messageText, prior, env.endpoints);
          match response {
            case Fulfilled(text) => messages := messages + [AssistantMessage(text)];
            case Rejected(e) => caught := Some(e);
          }
        }
      }
      // catch
      if caught.Some? {
        messages := messages + [ApologyMessage];
      }
      // finally
      isTyping := false;
      typingHistory := typingHistory + [false];
    }
  }

  /** A caller of the widget: a blank send changes nothing, a send of "hello"
      leaves the welcome, the user's message and the provider's answer */
  method ClientScenario(apiKey: string, answer: string, env: Environment)
    requires env.endpoints.openai == OkReply(Parsed(ChoicesEnvelope([Choice(answer)])))
  {
    var widget := new FloatingChat(Props(None, apiKey, None, None, None, false));
    assert widget.config == Config([], false);
    assert widget.chat.config == UseAIChat.Config("openai", apiKey, None, []);
    var calls := widget.HandleSendMessage(" \t\n", env);
    assert IsBlank(" \t\n");
    assert calls == [] && widget.messages == WelcomeLog(DefaultWelcome);
    assert !IsBlank("hello") by { BlankIffAllTrimmable("hello"); assert !IsTrimmable("hello"[0]); }
    OpenAIHelloScenario(apiKey, answer, env);
    calls := widget.HandleSendMessage("hello", env);
    assert widget.messages == [AssistantMessage(DefaultWelcome), UserMessage("hello"), AssistantMessage(answer)];
    assert !widget.isTyping && !widget.chat.isLoading && widget.chat.error == None;
  }
}
