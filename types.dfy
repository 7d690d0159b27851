/** The records the chat core passes around: conversation messages, tools,
    intent matches and the options handed to a provider adapter. */
module Types {
  import opened Runtime

  /** `'user' | 'assistant'` */
  datatype Role = User | Assistant

  /** `IMessage`. The `timestamp` is an opaque clock reading and is not kept;
      `error` is `true` where the source sets it and `false` where it leaves it
      unset; `isRead` is never set by the core, so it stays a three-valued
      optional flag. */
  datatype Message = Message(role: Role, content: string, tool: Option<string>, error: bool, isRead: Option<bool>)

  /** `IToolParameter` (`type` is a keyword here, hence `kind`) */
  datatype ToolParameter = ToolParameter(kind: string, description: string, enumValues: Option<seq<string>>)

  /** `IToolParameters`: a JSON-schema object descriptor */
  datatype ToolParameters = ToolParameters(kind: string, properties: map<string, ToolParameter>, required: Option<seq<string>>)

  /** `ITool` without its `execute` capability, whose outcome is supplied
      separately; this is also exactly what `JSON.stringify` puts on the wire
      for a tool, since function-valued fields are dropped */
  datatype Tool = Tool(name: string, description: string, parameters: ToolParameters)

  /** The `unknown` values of a tool's parameter record */
  datatype Json = JNull | JBool(b: bool) | JNumber(n: int) | JString(s: string)
                | JArray(items: seq<Json>) | JObject(fields: map<string, Json>)

  /** `IToolMatch`: the tool an intent matcher picked, and its arguments */
  datatype ToolMatch = ToolMatch(tool: string, params: map<string, Json>)

  /** `IAIProviderProps` */
  datatype ProviderProps = ProviderProps(aiProvider: string, apiKey: string, modelName: Option<string>, tools: Option<seq<Tool>>)

  /** `ISendMessageOptions` */
  datatype SendOptions = SendOptions(message: string, conversationHistory: seq<Message>, apiKey: string,
                                     modelName: Option<string>, tools: Option<seq<Tool>>)
}
