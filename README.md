# Chat widget routing core, modelled in Dafny

This project models the message-routing core of an embeddable AI chat widget
(`AIFloatingChat`). When the user sends a message, the widget appends it to the
conversation log and raises its typing flag. It then routes the message. An
intent matcher may pick a locally defined tool, and that tool runs. Otherwise the
message goes to one of three hosted model APIs (OpenAI, Claude, Cohere) through
the `useAIChat` hook. Exactly one assistant reply is appended: the tool's text,
the model's text, or an apology flagged as an error. The typing flag is then
lowered.

The project has five modules, one per source file plus one for JavaScript
runtime behaviour:

- `Runtime` (runtime.dfy): optional values, thrown values (`Error` objects vs
  other values), settled promises, `String.prototype.trim` emptiness and
  `toLowerCase`.
- `Types` (types.dfy): `IMessage`, `ITool`, `IToolMatch`, the provider props and
  the adapter options.
- `AIProvider` (ai_provider.dfy): the three adapters and the registry, as pure
  functions. Each adapter builds one request envelope and reads one reply. The
  reply each endpoint gives is an input (`Endpoints`), because `fetch` is not
  modelled.
- `UseAIChat` (use_ai_chat.dfy): class `AIChat` holds `isLoading` and `error`.
  Its `SendMessage` is proved against the function `Outcome`. A ghost log
  `statuses` records every status the hook exposes.
- `AIFloatingChat` (ai_floating_chat.dfy): class `FloatingChat` holds the log
  `messages` and the flag `isTyping`. A ghost log `typingHistory` records every
  value of the flag. `HandleSendMessage` is proved against the function
  `Respond`, and the routing properties are lemmas about `Respond`.

The matcher, a tool's `execute` and the provider endpoints are asynchronous
capabilities. Each is modelled by the outcome it would settle to on this send
(`Environment`). `HandleSendMessage` returns the calls it makes, in order. This
lets the contracts say which capabilities run and which do not.

Four behaviours of the code that a reader might not expect, each modelled as the
code has it:

- OpenAI receives `tools: []` when no tools are configured. The field is not
  omitted, because `useAIChat` defaults `tools` to `[]`.
- A tool that fails does not touch the hook's `error`. Only the provider path
  sets it.
- The flag raised at the start of every send is the widget's `isTyping`. The
  hook's `isLoading` moves only on the provider path.
- An unparsable error body is not replaced by the fallback message. The
  exception from `response.json()` is thrown on unchanged.

## Model

| member | source | states |
|---|---|---|
| `Runtime.BlankIffAllTrimmable` | src/components/AIFloatingChat.tsx:74 | `!messageText.trim()` holds exactly when every character is ECMAScript whitespace or a line terminator, the empty string included |
| `Runtime.ToLowerFixesLower` | src/providers/AIProvider.ts:116 | a name with no upper-case letter is its own lower-case form |
| `AIProvider.ChatHistory` | src/providers/AIProvider.ts:10-13 | the OpenAI/Claude projection has one `{role, content}` entry per history message, in the same order, with the same role and content |
| `AIProvider.CohereHistory` | src/providers/AIProvider.ts:85-88 | Cohere's `chat_history` has one entry per history message, in order. The content goes under `message`, and the role is `CHATBOT` exactly when the message is the assistant's |
| `AIProvider.FunctionTools` | src/providers/AIProvider.ts:24-31 | one `{type: 'function', function: {name, description, parameters}}` per tool, in order |
| `AIProvider.OrElse` | src/providers/AIProvider.ts:37 | JavaScript's or-operator on text and fallback: a present non-empty text wins, and a missing or empty one gives the fallback. The result is never empty when the fallback is not |
| `AIProvider.OpenAIRequestOf` | src/providers/AIProvider.ts:9-32 | Bearer key; model `gpt-4` unless given. The messages are the projected history followed by `{user, message}`, so there are history length + 1 of them. `tools` is present exactly when given, and is then the tools' function declarations (`FunctionTools`), with name, description and parameters |
| `AIProvider.ClaudeRequestOf` | src/providers/AIProvider.ts:46-71 | `x-api-key` key; model `claude-3-opus-20240229` unless given. The messages are the projected history followed by `{user, message}`. Tools are passed as given, and `max_tokens` is 1000 |
| `AIProvider.CohereRequestOf` | src/providers/AIProvider.ts:84-102 | Bearer key; model `command` unless given. `chat_history` has exactly the history's length. The new message appears only in the top-level `message`. Tools are passed as given |
| `AIProvider.OpenAIResult` | src/providers/AIProvider.ts:35-41 | text is returned exactly when the reply is ok, parsed and has a first choice, and it is `choices[0].message.content`. A parsed error envelope throws `error.error.message`, or `OpenAI API error` when that is missing or empty |
| `AIProvider.ClaudeResult` | src/providers/AIProvider.ts:73-79 | text is returned exactly when the reply is ok, parsed and has a first block, and it is `content[0].text`. A parsed error envelope throws `error.error.message`, or `Claude API error` |
| `AIProvider.CohereResult` | src/providers/AIProvider.ts:104-110 | text is returned exactly when the reply is ok and parsed, and it is `text`. A parsed error envelope throws `error.message`, or `Cohere API error` |
| `AIProvider.SendFailures` | src/providers/AIProvider.ts:35-41 | an adapter fails either with exactly what `fetch` or `response.json()` threw, or with an `Error` whose message is non-empty. When `fetch` or `response.json()` throws, the adapter rejects with that same value. This holds for all three adapters |
| `AIProvider.GetAIProvider` | src/providers/AIProvider.ts:115-117 | a provider is found exactly when the lower-cased name is `openai`, `claude` or `cohere`, and it is the provider registered under that key |
| `AIProvider.KeyResolves` | src/providers/AIProvider.ts:7-113 | each of the three providers is found under its own key |
| `AIProvider.LookupIgnoresCase` | src/providers/AIProvider.ts:116 | two names that differ only in letter case resolve alike |
| `AIProvider.MixedCaseNamesResolve` | src/providers/AIProvider.ts:115-117 | `OpenAI`, `Claude` and `COHERE` resolve to their providers |
| `AIProvider.LookupAsWritten` | src/providers/AIProvider.ts:116 | the property read `providers[key]` finds an own entry exactly when `GetAIProvider` does. It finds an inherited member exactly when the key is `constructor` or `__proto__` |
| `AIProvider.ConstructorIsFoundAsWritten` | src/providers/AIProvider.ts:116 | `Constructor` reaches the inherited `constructor` member, while no provider is registered under it |
| `UseAIChat.Outcome` | src/hooks/useAIChat.ts:25-39 | a request is sent exactly when the provider resolves. An unresolved name fails with `AI provider '<name>' not supported` |
| `UseAIChat.ForwardsUnchanged` | src/hooks/useAIChat.ts:31-37 | the request sent is the one the resolved adapter builds from the message, the history, the key, the model name and the tools, all unchanged. `tools` defaults to `[]`, so OpenAI gets `tools: []`. Each wire history keeps the given order with the new message last (OpenAI/Claude) or top-level (Cohere) |
| `UseAIChat.SuccessIsAdapterText` | src/hooks/useAIChat.ts:31-39 | on success the adapter's text is returned unchanged |
| `UseAIChat.AIChat.constructor` | src/hooks/useAIChat.ts:13-18 | the hook starts with `isLoading` false and `error` null, and keeps the props with `tools` defaulted to `[]` |
| `UseAIChat.AIChat.SendMessage` | src/hooks/useAIChat.ts:20-50 | the hook first exposes `isLoading` true with `error` null, and finally `isLoading` false. Success leaves `error` null. A failure sets `error` to the failure's message, or `An error occurred` for a non-Error value, and is re-thrown. An unresolved provider sets `error` to the not-supported text |
| `UseAIChat.OutcomeAsWritten` | src/hooks/useAIChat.ts:26-29 | the try block as written. It agrees with `Outcome` for every name whose lower-case form is not an inherited member name |
| `UseAIChat.ConstructorMisreported` | src/hooks/useAIChat.ts:26-29 | with provider `Constructor`, the code as written fails with `provider.sendMessage is not a function` instead of the not-supported message |
| `AIFloatingChat.FindTool` | src/components/AIFloatingChat.tsx:93 | `tools.find`: nothing is found exactly when no tool has the name. Otherwise the result is the first tool with that name |
| `AIFloatingChat.Respond` | src/components/AIFloatingChat.tsx:85-132 | the reply is an assistant message with `isRead` unset, and it is flagged as an error only as the apology. At most two calls are made. The matcher is called first, and only when configured with tools. The provider is called exactly when the hook ran, and never in the same send as a tool |
| `AIFloatingChat.ErrorIffFailure` | src/components/AIFloatingChat.tsx:123-131 | the reply is flagged as an error exactly when the matcher, the tool lookup, the tool or the provider fails, and it is then the fixed apology with no tool tag |
| `AIFloatingChat.NoMatchGoesToProvider` | src/components/AIFloatingChat.tsx:87-92 | without a matcher, without tools, or with no match, the provider is called with the log before the user message, and no tool runs. The reply is the provider's text or the apology |
| `AIFloatingChat.MissingToolExecutesNothing` | src/components/AIFloatingChat.tsx:93-97 | a match naming no configured tool ends in the apology. Only the matcher was called |
| `AIFloatingChat.ToolReply` | src/components/AIFloatingChat.tsx:99-108 | a match runs the first tool of that name once. The reply is tagged with the name and carries the tool's text, or `I've processed your request using <name>` for null or "" |
| `AIFloatingChat.TagMeansToolRan` | src/components/AIFloatingChat.tsx:101-108 | a tool-tagged reply means that the tool of that name ran and succeeded |
| `AIFloatingChat.UnreadCount` | src/components/AIFloatingChat.tsx:172 | the unread badge never exceeds the number of messages |
| `AIFloatingChat.UnreadCountAppend` | src/components/AIFloatingChat.tsx:172 | appending a message raises the badge by one exactly when it is an assistant message not marked read |
| `AIFloatingChat.WelcomeIsUnread` | src/components/AIFloatingChat.tsx:47 | a fresh widget shows one unread message, its welcome |
| `AIFloatingChat.SendAddsOneUnread` | src/components/AIFloatingChat.tsx:82 | the two messages a send appends raise the badge by exactly one |
| `AIFloatingChat.OpenAIHelloScenario` | src/components/AIFloatingChat.tsx:110-121 | OpenAI with no tools and no matcher: "hello" is answered with the first choice. OpenAI receives the welcome, then "hello", `gpt-4` and `tools: []` |
| `AIFloatingChat.LookupToolScenario` | src/components/AIFloatingChat.tsx:92-108 | a matcher picking tool `lookup`, which answers "42", gives the reply "42" tagged `lookup` |
| `AIFloatingChat.FloatingChat.constructor` | src/components/AIFloatingChat.tsx:25-58 | the log starts as the welcome message (by default `Hey there! How can I help you today?`), and typing is off. The hook gets provider `openai` by default and tools `[]` |
| `AIFloatingChat.FloatingChat.HandleSendMessage` | src/components/AIFloatingChat.tsx:73-137 | blank input changes nothing. Otherwise the log gains exactly the untrimmed user message and then `Respond`'s reply, in that order. `isTyping` is raised and then lowered. Without a provider call, the hook's state is untouched. With one, the hook's status log gains `isLoading` true with `error` null and then `isLoading` false, and `error` follows the provider's outcome |

## Left out

- The HTTP layer is not modelled: `fetch` itself, the URLs, the `Content-Type` and `anthropic-version` headers, and `JSON.stringify`. Each endpoint's reply is an input. The API key is kept only as the credential header it becomes.
- Replies are assumed to have the documented shapes. The model does not cover a success body that lacks `choices`, `content` or `text`, a body that is `null`, an OpenAI choice whose content is `null`, or an error `message` that is not a string. Only an empty `choices` or `content` list is modelled, as the TypeError V8 raises.
- Timestamps (`new Date()`) are not kept, and `console.error` logging is not modelled.
- `Runtime.ToLower`: maps only ASCII letters. The only non-ASCII characters that lower-case to ASCII are U+212A (to `k`) and U+0130 (to `i` plus a combining dot), so no other name resolves to a provider under full Unicode lower-casing.
- The capabilities' answers are given per send. The matcher's answer does not depend on its arguments, which are recorded in the `MatcherCall`. Tool parameter values are modelled as JSON with integer numbers.
- React behaviour is not modelled: batching, re-rendering, and overlapping sends. One send runs at a time. The history given to the provider is the log as it was before the user message, as the `messages` closure holds it.
- UI state is not modelled: the open/close toggle, scrolling, positions and themes. The badge is rendered only while the widget is closed, so the `isOpen ? 0 : …` branch is not modelled.
- A standalone `useAIChat` without `aiProvider` (it would throw when lower-casing `undefined`) is not modelled. The provider name is always a string.
- `UseAIChat.AIChat.SendMessage`: resolves the provider with the corrected lookup `GetAIProvider` (see Findings), so for a name that lower-cases to `constructor` or `__proto__` it reports the not-supported error where the code throws `provider.sendMessage is not a function`. The code as written is `UseAIChat.OutcomeAsWritten`.
- `AIFloatingChat.FloatingChat.HandleSendMessage`: runs the hook's corrected `SendMessage` through `Respond`, so the same two names give the not-supported error in the hook's `error`. The apology reply is the same either way.
- `IMessage.error` is a boolean: `true` where the code sets it and `false` where it is absent.

## Findings

| source | as written | input that shows it | evidently intended | confidence | as-written member | corrected member |
|---|---|---|---|---|---|---|
| src/providers/AIProvider.ts:116 | `providers[providerName.toLowerCase()]` also finds the members every object inherits, `constructor` and `__proto__`. These are truthy, so the `!provider` guard at src/hooks/useAIChat.ts:27 passes, and calling their missing `sendMessage` throws a TypeError | provider name `Constructor` (or `constructor`, `__proto__`) | such names fail with `AI provider 'Constructor' not supported`, like any other unknown name | not executed; high (standard property lookup on an object literal) | `UseAIChat.OutcomeAsWritten` (discrepancy shown by `UseAIChat.ConstructorMisreported`) | `UseAIChat.Outcome` (uses `AIProvider.GetAIProvider`, which finds only the three own entries) |
