# Trello voice assistant — a Dafny model of its core logic

This project models four pieces of logic of the Trello voice assistant:

- **The voice agent's tool set** (`agent.py`):
  - the required-environment check run at start-up
  - `${NAME}` substitution in header values
  - the loop that turns server records into MCP server descriptions and a per-server allow-list
  - the patched `prepare_dynamic_tools`, which lists, filters (by Python `fnmatch` globs), converts and decorates each server's tools
  - `llm_node`, which says a "checking" line at the first tool call
- **The A2A client** (`a2a.py`):
  - the agent-card request
  - the JSON-RPC `tasks/send` envelope
  - how the answer becomes reply text
  - the `A2AServerConfig` adapter
- **The browser client's push-to-talk state machine** (`frontend/script.js`, class `TrelloVoiceAssistant`): its flags and transcript under the button, recognition, utterance and room events, plus the keyword reply chooser `generateResponse`.
- **The deployment entry point** (`railway_start.py`): it picks one service and a port from the environment.

Modules:

| module | file | models |
|---|---|---|
| `Wrappers` | wrappers.dfy | `Option` and `Result` |
| `Text` | text.dfy | substring search (`in` on Python strings, `includes` in JavaScript) |
| `PyInt` | pyint.dfy | Python `int(s)` and `str(n)` in base 10 |
| `Glob` | glob.dfy | `fnmatch.fnmatch` on POSIX: case-sensitive, `*`, `?`, `[seq]`, `[!seq]`, whole-name match |
| `AgentEnv` | agent_env.dfy | `expand_env_vars` and the required-variable check |
| `AgentConfig` | agent_config.dfy | the `for conf in mcp_configs` loop of `entrypoint` |
| `Subsequences` | subsequences.dfy | order-preserving selection, used to state what filtering keeps |
| `AgentTools` | agent_tools.dfy | `filtered_prepare_dynamic_tools` |
| `AgentLlm` | agent_llm.dfy | `FunctionAgent.llm_node` |
| `A2A` | a2a.dfy | `send_a2a_task` and `A2AServerConfig` |
| `RailwayStart` | railway_start.dfy | `main` of the deployment script |
| `VoiceAssistant` | voice_assistant.dfy | class `TrelloVoiceAssistant` |

Outside effects are parameters or logs:

- **MCP servers.** Code that cannot be seen becomes function parameters:
  - A server's tool listing is given as a `Result`.
  - `MCPUtil.to_function_tool` and `_create_decorated_tool` are functions that say whether they raise.
- **HTTP.** A function from request to response, given by the caller. The requests made are returned.
- **uuids.** Parameters.
- **Python's `repr` of a status.** A parameter `show`.
- **The browser client.**
  - Each browser event is a method.
  - `Date.now()` is a parameter.
  - What the client asks of the speech services is appended to an effect log.
  - The conversation panel is a sequence of messages.

Two behaviours of the code worth knowing:

- An unrecognised `RAILWAY_SERVICE_TYPE` starts the frontend (railway_start.py:36-40).
- A `list_tools` error aborts the whole tool preparation (agent.py:100): the servers' failures are not collected.

## Model

| member | source | states |
|---|---|---|
| `AgentEnv.ExpandEnvVars` | agent.py:66-68 | `expand_env_vars`: each `${NAME}` becomes the variable's value or `""`, scanning resumes after it, other text is copied; its properties are the lemmas below |
| `AgentEnv.PlaceholderAt` | agent.py:68 | a match of `\$\{(\w+)\}` at the front is exactly `${` + a non-empty run of word characters + `}` |
| `AgentEnv.NoPlaceholderUnchanged` | agent.py:66-68 | a value containing no well-formed `${NAME}` is returned unchanged whatever the environment |
| `AgentEnv.ChangedImpliesPlaceholder` | agent.py:66-68 | if expansion changes a value, the value contains a well-formed placeholder |
| `AgentEnv.MalformedFormsKept` | agent.py:68 | `${}` and `${A-B}` are left as they are |
| `AgentEnv.ExpandPlaceholderFirst` | agent.py:68 | a leading `${NAME}` becomes the variable's value, or `""` when unset, and scanning resumes right after it |
| `AgentEnv.ExpandPlainFirst` | agent.py:68 | text without `$` is copied unchanged and expansion continues after it |
| `AgentEnv.MissingVars` | agent.py:19 | a variable is reported missing iff it is required and unset or empty; no more entries than required names |
| `AgentEnv.MissingVarsInOrder` | agent.py:19-21 | the missing names keep the order of the required list, the order the error message joins them in |
| `AgentEnv.StartupCheck` | agent.py:18-21 | the start-up check: the `RuntimeError` text naming the missing variables, or success; stated by the two lemmas below |
| `AgentEnv.StartupCheckPasses` | agent.py:18-21 | start-up passes iff both `OPENAI_API_KEY` and `ELEVEN_API_KEY` are set to non-empty values |
| `AgentEnv.StartupCheckNamesMissing` | agent.py:21 | with only `ELEVEN_API_KEY` missing, the error message names exactly that variable in the fixed wording |
| `AgentConfig.ExpandHeaders` | agent.py:77-79 | the header loop yields the same keys, each value expanded |
| `AgentConfig.BuildServers` | agent.py:76-91 | one server per record in record order, each with the record's params and name; the allow-list map is the one built by processing records in order |
| `AgentConfig.ServerFor` | agent.py:77-88 | the server built for one record; its shape is stated by `ServerForShape` |
| `AgentConfig.AllowList` | agent.py:87-91 | the allow-list map after processing the records in order; stated by `AllowListKeys` and `AllowListValue` |
| `AgentConfig.ServerForShape` | agent.py:77-88 | params hold the url; they hold headers iff the record has at least one header, with the same keys and expanded values; the name is the record's name, else its url |
| `AgentConfig.PlainHeadersPassThrough` | agent.py:78-82 | header values without placeholders reach the params exactly as configured |
| `AgentConfig.AllowListKeys` | agent.py:87-91 | the allow-list map has an entry for a name iff some record of that name has `allowed_tools` |
| `AgentConfig.AllowListValue` | agent.py:90-91 | a name's entry is the pattern set of the last record of that name that has `allowed_tools` |
| `Glob.Compile` | agent.py:103 | the pattern's tokens, at most one per pattern character, as `fnmatch.translate` reads it |
| `Glob.FnMatch` | agent.py:103 | `fnmatch.fnmatch`: the whole name is accepted by the tokens; stated by the lemmas below |
| `Glob.LiteralPatternMatchesOnlyItself` | agent.py:103 | a pattern without `*`, `?` or `[` matches a name iff the name equals it |
| `Glob.StarMatchesEverything` | agent.py:103 | `*` matches every name, the empty one included |
| `Glob.PrefixPattern` | agent.py:103 | `prefix*` with a literal prefix matches exactly the names starting with the prefix |
| `Glob.DeployExample` | agent.py:103 | `dep*` matches `deploy` but not `redeploy`: matching is anchored to the whole name |
| `Glob.StarSplit` | agent.py:103 | `*` followed by a pattern matches iff some suffix of the name matches that pattern |
| `Glob.NoStarFixesLength` | agent.py:103 | a pattern without `*` only matches names of one length, one character per token |
| `Glob.QuestionMarkMatchesOneChar` | agent.py:103 | `?` matches exactly the one-character names |
| `Glob.ClassPattern` | agent.py:103 | `[seq]` matches a one-character name iff the character is in the set, and `[!seq]` iff it is not |
| `Glob.UnclosedBracketIsLiteral` | agent.py:103 | a `[` without a closing `]` is an ordinary character |
| `AgentTools.Filter` | agent.py:103 | the allow-list comprehension; stated by `FilterMembers` and `FilterIsSubsequence` |
| `AgentTools.DecorateAll` | agent.py:107-112 | the decoration loop's result; stated by `DecorateMembers`, `DecorateIsSubsequence` and `DecorateAllSucceeds` |
| `AgentTools.ServerTools` | agent.py:98-112 | one server's contribution or the error that aborts; stated by `ServerToolsMembers`, `AllowListMembers` and `ServerToolsIsSubsequence` |
| `AgentTools.Prepare` | agent.py:95-113 | the servers' contributions in order, or the first error; stated by `PreparedIsSubsequenceOfListed`, `PrepareErrorPersists`, `ListingErrorAborts` and `DecorationNeverAborts` |
| `AgentTools.ConvertAll` | agent.py:106 | conversion succeeds iff no tool's conversion raises; then each tool is bound to its server in order |
| `AgentTools.PrepareErrorPersists` | agent.py:97-113 | once the servers processed so far have raised, the whole call raises that error |
| `AgentTools.DecorateEach` | agent.py:107-112 | the try/except loop keeps the decorated instances in order, skipping those whose decoration raises |
| `AgentTools.PrepareServer` | agent.py:98-112 | one server's pass: list, filter by its allow-list, convert, decorate |
| `AgentTools.FilteredPrepareDynamicTools` | agent.py:95-113 | the loop over servers yields the prepared tools of all servers in order, or the first error raised |
| `AgentTools.FilterMembers` | agent.py:103 | a tool survives the filter iff it is listed and its full name matches at least one pattern |
| `AgentTools.FilterIsSubsequence` | agent.py:103 | filtering keeps listing order |
| `AgentTools.DecorateMembers` | agent.py:107-112 | a prepared tool is present iff its instance was converted and its decoration does not raise: failing ones are dropped, the rest kept |
| `AgentTools.DecorateIsSubsequence` | agent.py:107-112 | the decorated instances keep the order of the converted ones |
| `AgentTools.ServerToolsIsSubsequence` | agent.py:98-112 | a server contributes a subsequence of its own listing, bound to it |
| `AgentTools.PreparedIsSubsequenceOfListed` | agent.py:96-113 | the prepared tools form a subsequence of all listed tools: servers in order, each server's tools together and in listing order |
| `AgentTools.NoAllowListKeepsAll` | agent.py:99-101 | a server without an allow-list entry keeps every listed tool, when none fails to convert or decorate |
| `AgentTools.DecorateAllSucceeds` | agent.py:107-110 | when no decoration raises, every instance is prepared |
| `AgentTools.ServerToolsMembers` | agent.py:98-112 | a server contributes exactly its kept tools bound to it, less those whose decoration raises, in both directions |
| `AgentTools.AllowListMembers` | agent.py:99-112 | with an allow-list, a server contributes exactly the listed tools whose name matches one of its patterns and whose decoration does not raise, each bound to it |
| `AgentTools.DecorationNeverAborts` | agent.py:108-112 | whether preparation raises does not depend on decoration failures |
| `AgentTools.ListingErrorAborts` | agent.py:100 | a `list_tools` error aborts the whole call with that error, once the servers before it succeeded |
| `AgentTools.ExampleServerA` | agent.py:99-103 | server A with allow-list `x*` keeps only `x` of `x`, `y`, `z` |
| `AgentTools.ExampleServerB` | agent.py:99-101 | server B without an entry keeps both its tools |
| `AgentTools.TwoServerExample` | agent.py:95-113 | the two servers' results are joined in server order |
| `AgentLlm.LlmNode` | agent.py:45-58 | every chunk is yielded unchanged and in order; the checking line is said exactly once iff some chunk carries tool calls, and then just before the first such chunk |
| `A2A.Envelope` | a2a.py:52-70 | the JSON-RPC `tasks/send` envelope of a task; stated by `EnvelopeRoundTrip` and `ReadEnvelopeExact` |
| `A2A.PartText` | a2a.py:86-89 | one part's contribution to the reply text; stated by `PartsTextMeaning` |
| `A2A.ReplyText` | a2a.py:86-89 | the reply text of a message's parts; stated by `PartsTextMeaning` and `EchoedMessageText` |
| `A2A.ResolveReply` | a2a.py:77-94 | the reply for a task response; stated by the reply lemmas below |
| `A2A.SendA2aTask` | a2a.py:41-94 | the requests made and the reply or error; stated by `CardFailureStopsBeforePost` and `PostedEnvelope` |
| `A2A.EnvelopeRoundTrip` | a2a.py:52-70 | the posted envelope reads back as the task: version `2.0`, method `tasks/send`, request id equal to the task id, text output, one user text part |
| `A2A.ReadEnvelopeExact` | a2a.py:52-70 | only the envelope of a task reads back as that task: the format has no other members |
| `A2A.PartsTextMeaning` | a2a.py:86-89 | the parts loop yields the in-order concatenation of the parts' `text` values, parts without `text` contributing nothing, or fails when a part cannot be read |
| `A2A.JoinPartTexts` | a2a.py:86-89 | the accumulating loop computes that concatenation, or the failure |
| `A2A.EchoedMessageText` | a2a.py:58-63 | a message shaped like the one posted reads back as the user's text |
| `A2A.ReplyFromLastMessage` | a2a.py:79-90 | completed with a non-empty `messages` list: the reply comes from its last message |
| `A2A.ReplyFromStatusMessage` | a2a.py:80-83 | completed with `messages` empty or absent: `status.message` is used |
| `A2A.NoMessagesAnywhere` | a2a.py:91-92 | completed with no message at all: exactly `No messages in response!` |
| `A2A.IncompleteIsReported` | a2a.py:93-94 | any other state, or no state or status, returns `Task did not complete. Status: ` and the status (None when absent) rather than raising |
| `A2A.MissingResultIsIncomplete` | a2a.py:77-94 | an answer without `result` reports an incomplete task with status None |
| `A2A.EchoedTaskIsUserText` | a2a.py:54-90 | an agent completing the task with the posted message gives back the user's text |
| `A2A.CardFailureStopsBeforePost` | a2a.py:46-49 | a non-200 card response raises with the status code, and no task is posted |
| `A2A.PostedEnvelope` | a2a.py:46-76 | the card request comes first; after a 200 card exactly one post goes to `/tasks/send` with this task's envelope; a non-200 answer raises with its code and body; a 200 answer is resolved |
| `A2A.A2AServerConfig.constructor` | a2a.py:16-20 | type `a2a` and the given base url, headers and name |
| `A2A.A2AServerConfig.ListTools` | a2a.py:22-33 | non-200 raises with the code; otherwise the card's `skills`, `[]` when absent |
| `A2A.A2AServerConfig.Connect` | a2a.py:35-39 | connecting changes nothing |
| `PyInt.ParseInt` | railway_start.py:17 | Python's `int` on a string, `None` where it raises; stated by the lemmas below |
| `PyInt.ParseShow` | railway_start.py:17 | `int` reads back every integer that `str` writes |
| `PyInt.RejectsNoDigits` | railway_start.py:17 | `int` rejects an empty or blank string and a lone sign |
| `PyInt.RejectsStrayUnderscores` | railway_start.py:17 | `int` rejects leading, trailing and doubled underscores |
| `PyInt.AcceptsPadding` | railway_start.py:17 | `int` accepts surrounding whitespace |
| `PyInt.AcceptsPlusSign` | railway_start.py:17 | `int` accepts a leading `+` |
| `PyInt.AcceptsUnderscore` | railway_start.py:17 | `int` accepts an underscore between digits |
| `RailwayStart.Port` | railway_start.py:17 | the port resolved from `PORT`, or the error `int` raises; stated by `Defaults`, `PortFromText` and `VoiceAgentNeedsValidPort` |
| `RailwayStart.Main` | railway_start.py:16-40 | the service started, or the start-up error; stated by `OneService` and `UnknownTypeServesFrontend` |
| `RailwayStart.Defaults` | railway_start.py:16-17 | with neither variable set, the frontend serves on 8080 |
| `RailwayStart.PortFromText` | railway_start.py:17 | a decimal PORT is that port |
| `RailwayStart.OneService` | railway_start.py:24-40 | exactly one service starts: the voice agent iff the type is `voice_agent`, otherwise the frontend on the resolved port |
| `RailwayStart.UnknownTypeServesFrontend` | railway_start.py:36-40 | an unknown service type falls back to the frontend |
| `RailwayStart.VoiceAgentNeedsValidPort` | railway_start.py:17-34 | the voice agent starts only when PORT parses, because the port is resolved first |
| `VoiceAssistant.Trim` | frontend/script.js:269-271 | JavaScript's `trim`; stated by `TrimMeaning` and `TrimIdempotent` |
| `VoiceAssistant.TrimMeaning` | frontend/script.js:269-271 | `trim` removes exactly the leading and trailing whitespace and leaves a contiguous piece of the input |
| `VoiceAssistant.TrimIdempotent` | frontend/script.js:269-271 | trimming twice is trimming once |
| `VoiceAssistant.Utf16LengthBmp` | frontend/script.js:408 | for text inside the Basic Multilingual Plane, `length` is the number of characters |
| `VoiceAssistant.Response` | frontend/script.js:519-531 | `generateResponse`; stated by `ResponsePriority`, `ResponseIgnoresCase` and `ResponseExample` |
| `VoiceAssistant.ResponsePriority` | frontend/script.js:519-531 | the reply is that of the first of boards, cards, create, hello contained in the lower-cased input, else the default; each in both directions |
| `VoiceAssistant.ResponseIgnoresCase` | frontend/script.js:523-529 | the reply does not depend on letter case |
| `VoiceAssistant.ResponseExample` | frontend/script.js:523-529 | `Hello, show me my CARDS` gets the cards reply: cards is checked before hello, and case is ignored |
| `VoiceAssistant.InterimIgnored` | frontend/script.js:228-235 | interim results never change the final text |
| `VoiceAssistant.NoFinalNoText` | frontend/script.js:228-241 | a batch of interim results adds nothing |
| `VoiceAssistant.FinalTextAppend` | frontend/script.js:228-235 | the final text of consecutive batches is the concatenation of theirs |
| `VoiceAssistant.VoiceInputShownPerQueued` | frontend/script.js:404-417 | corrected, an input is shown once per reply it queues (so a short one not at all); as written, twice per reply; for every input the as-written messages are the corrected ones twice over |
| `VoiceAssistant.VoiceInputDuplicateExample` | frontend/script.js:416 | `show me my boards` queues one reply and, as written, is shown twice |
| `VoiceAssistant.TrelloVoiceAssistant.constructor` | frontend/script.js:2-20 | all flags false except push-to-talk, press time 0, empty transcript |
| `VoiceAssistant.TrelloVoiceAssistant.OnConnected` | frontend/script.js:154-158 | connected, and the welcome message is shown |
| `VoiceAssistant.TrelloVoiceAssistant.OnDisconnected` | frontend/script.js:160-161 | disconnected |
| `VoiceAssistant.TrelloVoiceAssistant.StartPushToTalk` | frontend/script.js:295-345 | nothing changes while pressed, speaking or disconnected; otherwise the press starts at the given time with an empty transcript, recognition is started unless listening, and refused microphone access ends the press through `stopPushToTalk` |
| `VoiceAssistant.TrelloVoiceAssistant.StopPushToTalk` | frontend/script.js:348-385 | ignored when not pressed; otherwise unpressed, running recognition stopped, and a press under 300 ms clears the transcript |
| `VoiceAssistant.TrelloVoiceAssistant.OnStart` | frontend/script.js:217-219 | listening |
| `VoiceAssistant.TrelloVoiceAssistant.OnResult` | frontend/script.js:225-241 | the transcript grows by the in-order final text from `resultIndex` on plus one space, only when that text is not empty |
| `VoiceAssistant.TrelloVoiceAssistant.OnEnd` | frontend/script.js:260-274 | listening stops; if still pressed in push-to-talk mode a restart is requested and the transcript kept; otherwise a non-blank transcript goes trimmed to `handleVoiceInput` as written (shown twice when accepted) and is reset |
| `VoiceAssistant.TrelloVoiceAssistant.OnEndCorrected` | frontend/script.js:260-274 | the same, with the corrected `handleVoiceInput`: an accepted transcript is shown once |
| `VoiceAssistant.TrelloVoiceAssistant.HandleVoiceInput` | frontend/script.js:404-417 | corrected: input under 3 code units is ignored; otherwise it is shown once and its processing starts |
| `VoiceAssistant.TrelloVoiceAssistant.HandleVoiceInputAsWritten` | frontend/script.js:404-417 | as written: an accepted input is shown twice and processed |
| `VoiceAssistant.TrelloVoiceAssistant.ProcessVoiceInput` | frontend/script.js:508-516 | the input is shown and its processing delay starts |
| `VoiceAssistant.TrelloVoiceAssistant.OnProcessingDone` | frontend/script.js:513-535 | the oldest pending input gets the keyword reply, shown and spoken |
| `VoiceAssistant.TrelloVoiceAssistant.OnUtteranceStart` | frontend/script.js:554-555 | speaking |
| `VoiceAssistant.TrelloVoiceAssistant.OnUtteranceEnd` | frontend/script.js:561-570 | not speaking |
| `VoiceAssistant.TrelloVoiceAssistant.InterruptSpeech` | frontend/script.js:387-396 | only while speaking: speech is cancelled and speaking ends; otherwise nothing changes |
| `VoiceAssistant.TrelloVoiceAssistant.SendVoiceCommand` | frontend/script.js:595-602 | nothing while disconnected; otherwise the command is shown once and processed |

## Left out

- Loading the server list from YAML (agent.py:60-64). The records arrive already parsed. A record without `url` (a `KeyError` in the source) cannot be written, and header values are strings.
- `FunctionAgent.__init__`, agent creation, the room connection and the greeting (agent.py:26-43, 116-127). These are library calls and I/O.
- The runtime rebinding of `MCPToolsIntegration.prepare_dynamic_tools` (agent.py:94, 114). The filter is modelled as a plain function of the servers and their listings.
- `async`, `await` and the async generator are modelled as sequential code: the chunk stream is a finite sequence, and the listings are given in advance.
- AgentEnv.ExpandEnvVars: `\w` is taken as ASCII letters, digits and `_`. Python's Unicode word characters are not modelled.
- Glob.FnMatch: POSIX behaviour only. Windows case folding (`os.path.normcase`) is not modelled.
- Logging of failed decorations (agent.py:112). Only the skipping is modelled.
- Network transport, timeouts and `uuid4` (a2a.py:28-29, 47, 52-53, 73). Responses come from a caller-given function, and the ids are parameters.
- A2A.ResolveReply: JSON numbers are integers. Floats are not modelled.
- A2A.ResolveReply: the exact Python `repr` of the status is not modelled. It is rendered by the parameter `show`, with an absent status passed as `null`.
- A2A.A2AServerConfig.ListTools: the request timeout is not modelled.
- The printing, `sys.path` setup and the started services' own behaviour (railway_start.py:13, 19-22, 27-28, 33-34).
- PyInt.ParseInt: only ASCII digits and ASCII whitespace are accepted. Python also accepts other Unicode digits and spaces.
- VoiceAssistant.Lower: only ASCII letters are lower-cased. JavaScript lower-cases all of Unicode.
- The DOM, status texts, notifications, CSS classes, audio visualisation with its floating-point bar heights, and particles (frontend/script.js:491 and elsewhere).
- The LiveKit connection itself (frontend/script.js:128-191), apart from its `Connected` and `Disconnected` events.
- The recognition `onerror` handler (frontend/script.js:249-258), the simulated `startListening`/`stopListening`, `manualInterrupt`, `clearConversation` and the keyboard shortcuts.
- The voice chosen for speech synthesis, and the fallback that simulates speaking when the browser has no synthesis (frontend/script.js:537-591). Speaking is a `Speak` effect, and `isSpeaking` follows the utterance events.
- The status-only timer in `handleVoiceInput` (frontend/script.js:420-424). Timers that change state are events: the recognition restart is an effect, and the end of the processing delay is `OnProcessingDone`.
- VoiceAssistant.TrelloVoiceAssistant.StartPushToTalk: events that arrive while `getUserMedia` is pending are not interleaved. A `recognition.start()` that throws is not modelled.

## Findings

| source | as written | input that shows it | evidently intended | confidence | as-written member | corrected member |
|---|---|---|---|---|---|---|
| frontend/script.js:416 | `handleVoiceInput` shows the user's words and then calls `processVoiceInput`, which shows them again (frontend/script.js:509) | any transcript of three or more code units, e.g. `show me my boards` released after a long press | each spoken input appears once, as quick-action commands sent through `sendVoiceCommand` do | not executed; high | `VoiceAssistant.TrelloVoiceAssistant.HandleVoiceInputAsWritten` | `VoiceAssistant.TrelloVoiceAssistant.HandleVoiceInput` |

`VoiceAssistant.VoiceInputShownPerQueued` relates the two halves: as written an accepted input is shown twice for the one reply it queues, corrected once; `VoiceAssistant.VoiceInputDuplicateExample` exhibits the duplicate for `show me my boards`. `OnEnd` calls the method as written, as the source does; `OnEndCorrected` uses the corrected one.
